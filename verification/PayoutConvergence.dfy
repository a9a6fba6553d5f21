/** Three calls of process() on fresh snapshots settle any payout once ledger and provider answer. */
module PayoutConvergence {
  import opened Common
  import opened Parties
  import opened PayoutLifecycle
  import opened PayoutSaga
  import opened PayoutDriver
  import PayoutTheorems

  /** Claim a fresh snapshot and process it. */
  function Call(s: Payout, w: nat, net: Answers, now: int): seq<Action> {
    [Claim(w)] + Script(s.rec.status, w, net, now, true)
  }

  /** The ledger answers, and the provider answers with a final status or a refusal. */
  predicate Conclusive(net: Answers) {
    && (net.debit.Applied? || net.debit.Insufficient?)
    && net.credit.Applied?
    && (net.create.CreateAnswered? ==> net.create.report.status != SaysOther)
    && net.lookup.LookupAnswered? && net.lookup.report.status != SaysOther
  }

  predicate Settles(s: Status) {
    s == Confirmed || s == Failed || s == Cancelled || s == Reversed
  }

  function CallsLeft(s: Status): nat {
    match s
    case PendingDebit => 3
    case PendingProvider => 2
    case ProviderUnknown => 2
    case Processing => 2
    case PendingCompensation => 1
    case PendingCompensationCancelled => 1
    case PendingCompensationReversed => 1
    case _ => 0
  }

  /** A compare-and-set on a row that nobody moved takes effect. */
  lemma CommittedMoves(s: Payout, e: External, w: nat, next: Status, f: Fields, now: int)
    ensures var u := Committed(s, e, w, s.rec.status, next, f, now);
            u.rec.status == next && u.workers == s.workers - {w}
  {
  }

  lemma EffectMoves(c: Payout, a: Action, w: nat, now: int)
    requires !Outside(a) && !a.Cas? && a.w == w && Legal(c, [a, Cas(w, now)])
    requires Enabled(c, a) && PhaseAfter(c, a).Some? && PhaseAfter(c, a).value.Ready?
    requires PhaseAfter(c, a).value.expected == c.rec.status
    ensures var u := Exec(c, [a, Cas(w, now)]);
            u.rec.status == PhaseAfter(c, a).value.next && u.workers == c.workers - {w}
  {
    var ph := PhaseAfter(c, a).value;
    EffectThenCas(c, a, w, now);
    CommittedMoves(c, ExtAfter(c.ext, a), w, ph.next, ph.f, now);
  }

  lemma CreateMoves(c: Payout, w: nat, net: Answers, now: int)
    requires w in c.workers && c.workers[w] == Snap(PendingProvider) && c.rec.status == PendingProvider
    requires Conclusive(net) && Legal(c, Script(PendingProvider, w, net, now, true))
    ensures var u := Exec(c, Script(PendingProvider, w, net, now, true));
            CallsLeft(u.rec.status) < 2 && u.workers == c.workers - {w}
  {
    var a := Create(w, net.truth, net.create);
    if net.create.CreateNoAnswer? {
      AskThenCas(c, w, net, now);
      var r := net.lookup.report;
      CommittedMoves(c, ExtAfter(c.ext, a), w, Target(r.status), WorkerFields(r), now);
    } else {
      EffectMoves(c, a, w, now);
    }
  }

  lemma ScriptMoves(c: Payout, w: nat, net: Answers, now: int)
    requires w in c.workers && c.workers[w] == Snap(c.rec.status) && !Settles(c.rec.status)
    requires Conclusive(net) && Legal(c, Script(c.rec.status, w, net, now, true))
    ensures var u := Exec(c, Script(c.rec.status, w, net, now, true));
            CallsLeft(u.rec.status) < CallsLeft(c.rec.status) && u.workers == c.workers - {w}
  {
    if c.rec.status == PendingProvider {
      CreateMoves(c, w, net, now);
    } else {
      var a := Script(c.rec.status, w, net, now, true)[0];
      assert Script(c.rec.status, w, net, now, true) == [a, Cas(w, now)];
      assert Legal(c, [a, Cas(w, now)]) && Enabled(c, a);
      assert PhaseAfter(c, a).Some? && PhaseAfter(c, a).value.Ready? && PhaseAfter(c, a).value.expected == c.rec.status;
      assert CallsLeft(PhaseAfter(c, a).value.next) < CallsLeft(c.rec.status);
      EffectMoves(c, a, w, now);
    }
  }

  /** A conclusive call on a fresh snapshot brings the row one call nearer to its end. */
  lemma CallEffect(s: Payout, w: nat, net: Answers, now: int)
    requires w !in s.workers && Conclusive(net) && !Settles(s.rec.status) && Legal(s, Call(s, w, net, now))
    ensures var u := Exec(s, Call(s, w, net, now));
            u.workers == s.workers && CallsLeft(u.rec.status) < CallsLeft(s.rec.status)
  {
    var c := Next(s, Claim(w));
    assert Call(s, w, net, now)[1..] == Script(s.rec.status, w, net, now, true);
    ScriptMoves(c, w, net, now);
    assert c.workers - {w} == s.workers;
  }

  /** On a settled row a further call changes nothing: not the row, not the ledger, not the provider. */
  lemma CallOnSettled(s: Payout, w: nat, net: Answers, now: int)
    requires w !in s.workers && Settles(s.rec.status)
    ensures Legal(s, Call(s, w, net, now)) && Exec(s, Call(s, w, net, now)) == s
  {
    var c := Next(s, Claim(w));
    assert c.workers - {w} == s.workers;
    PayoutTheorems.LegalCons(c, Crash(w), []);
    PayoutTheorems.LegalCons(s, Claim(w), [Crash(w)]);
  }

  /** The calls of one worker, one after the other, each with its own answers. */
  predicate LegalCalls(s: Payout, w: nat, nets: seq<Answers>, now: int)
    decreases |nets|
  {
    nets == [] || (Legal(s, Call(s, w, nets[0], now)) && LegalCalls(Exec(s, Call(s, w, nets[0], now)), w, nets[1..], now))
  }

  function Calls(s: Payout, w: nat, nets: seq<Answers>, now: int): Payout
    requires LegalCalls(s, w, nets, now)
    decreases |nets|
  {
    if nets == [] then s else Calls(Exec(s, Call(s, w, nets[0], now)), w, nets[1..], now)
  }

  /** From any state of the row, with any other workers stalled, as many calls as CallsLeft says are
      enough; CallsLeft is never more than three. */
  lemma {:induction false} Convergence(s: Payout, w: nat, nets: seq<Answers>, now: int)
    requires w !in s.workers && LegalCalls(s, w, nets, now)
    requires forall i :: 0 <= i < |nets| ==> Conclusive(nets[i])
    requires |nets| >= CallsLeft(s.rec.status)
    ensures Settles(Calls(s, w, nets, now).rec.status)
    ensures CallsLeft(s.rec.status) <= 3
    decreases |nets|
  {
    if nets != [] {
      var u := Exec(s, Call(s, w, nets[0], now));
      if Settles(s.rec.status) {
        CallOnSettled(s, w, nets[0], now);
      } else {
        CallEffect(s, w, nets[0], now);
      }
      Convergence(u, w, nets[1..], now);
    }
  }

  /** What a provider says that has come to a final truth. */
  function FinalWord(t: Truth): Report {
    Report(match t
           case Paid => SaysConfirmed
           case CancelledThere => SaysCancelled
           case ReversedThere => SaysReversed
           case _ => SaysRejected, "", "", "", "")
  }

  lemma EffectLegal(c: Payout, a: Action, w: nat, now: int)
    requires !Outside(a) && !a.Cas? && a.w == w && Enabled(c, a)
    requires PhaseAfter(c, a).Some? && PhaseAfter(c, a).value.Ready?
    ensures Legal(c, [a, Cas(w, now)])
  {
    PayoutTheorems.LegalCons(Next(c, a), Cas(w, now), []);
    PayoutTheorems.LegalCons(c, a, [Cas(w, now)]);
    assert [a] + [Cas(w, now)] == [a, Cas(w, now)];
  }

  /** The truth a payout can still be brought to. */
  function Goal(s: Payout): Truth {
    if s.ext.truth == Paid || GivesBack(s.ext.truth) then s.ext.truth else Paid
  }

  function FinalAnswers(t: Truth): Answers {
    Answers(Applied, Applied, t, CreateAnswered(FinalWord(t)), LookupAnswered(FinalWord(t)))
  }

  /** The provider has come to the truth t, or has not heard of the payout and will when it is sent. */
  predicate CanAnswer(s: Payout, t: Truth) {
    && (t == Paid || GivesBack(t))
    && (s.ext.truth == t || (s.ext.truth == Unheard && t == Paid && (s.rec.status == PendingDebit || s.rec.status == PendingProvider || Settles(s.rec.status))))
  }

  lemma CallLegal(s: Payout, w: nat, t: Truth, now: int)
    requires w !in s.workers && CanAnswer(s, t) && !Settles(s.rec.status)
    ensures var c, script := Next(s, Claim(w)), Script(s.rec.status, w, FinalAnswers(t), now, true);
            Legal(s, Call(s, w, FinalAnswers(t), now)) && Legal(c, script) && Exec(s, Call(s, w, FinalAnswers(t), now)) == Exec(c, script)
  {
    var c, script := Next(s, Claim(w)), Script(s.rec.status, w, FinalAnswers(t), now, true);
    EffectLegal(c, script[0], w, now);
    assert script == [script[0], Cas(w, now)];
    PayoutTheorems.LegalCons(s, Claim(w), script);
  }

  lemma CallAnswers(s: Payout, w: nat, t: Truth, now: int)
    requires w !in s.workers && CanAnswer(s, t) && !Settles(s.rec.status)
    ensures Legal(s, Call(s, w, FinalAnswers(t), now)) && CanAnswer(Exec(s, Call(s, w, FinalAnswers(t), now)), t)
  {
    var c, script := Next(s, Claim(w)), Script(s.rec.status, w, FinalAnswers(t), now, true);
    CallLegal(s, w, t, now);
    assert script == [script[0], Cas(w, now)];
    EffectThenCas(c, script[0], w, now);
  }

  /** A chain of conclusive calls from any such state. */
  lemma {:induction false} ChainOfCalls(s: Payout, w: nat, t: Truth, n: nat, now: int)
    requires w !in s.workers && CanAnswer(s, t)
    ensures var nets := seq(n, _ => FinalAnswers(t));
            LegalCalls(s, w, nets, now) && forall i :: 0 <= i < n ==> Conclusive(nets[i])
    decreases n
  {
    if n > 0 {
      var net := FinalAnswers(t);
      if Settles(s.rec.status) {
        CallOnSettled(s, w, net, now);
      } else {
        CallAnswers(s, w, t, now);
        CallEffect(s, w, net, now);
      }
      ChainOfCalls(Exec(s, Call(s, w, net, now)), w, t, n - 1, now);
      assert seq(n, _ => net)[1..] == seq(n - 1, _ => net);
    }
  }

  /** What the provider alone still has to do: nothing, or to pay a payout it has open or has yet to receive. */
  function ProviderMoves(s: Payout): seq<Action> {
    if s.ext.creates > 0 && s.ext.truth != Goal(s) then [Advance(Paid)] else []
  }

  /** From every reachable state, wherever the row and the provider stand, after at most one move of the provider a
      chain of conclusive calls exists that settles the payout: Convergence speaks of real runs. */
  lemma SettlingRunExists(s: Payout, w: nat, now: int)
    requires Inv(s) && w !in s.workers
    ensures Legal(s, ProviderMoves(s))
    ensures var u, nets := Exec(s, ProviderMoves(s)), seq(CallsLeft(s.rec.status), _ => FinalAnswers(Goal(s)));
            && LegalCalls(u, w, nets, now) && (forall i :: 0 <= i < |nets| ==> Conclusive(nets[i]))
            && Settles(Calls(u, w, nets, now).rec.status)
  {
    var moves := ProviderMoves(s);
    if moves != [] { One(s, moves[0]); }
    var u := Exec(s, moves);
    assert u.rec == s.rec && u.workers == s.workers;
    assert s.rec.status in s.history && Fact(s.ext, s.history, s.rec.status);
    if s.ext.creates == 0 { SentOnce(s); }
    assert CanAnswer(u, Goal(s));
    var n := CallsLeft(s.rec.status);
    var nets := seq(n, _ => FinalAnswers(Goal(s)));
    ChainOfCalls(u, w, Goal(s), n, now);
    Convergence(u, w, nets, now);
  }

  /** A row that has gone past pending_provider was sent to the provider, or failed before. */
  lemma SentOnce(s: Payout)
    requires Inv(s) && s.ext.creates == 0
    ensures s.ext.truth == Unheard && (s.rec.status == PendingDebit || s.rec.status == PendingProvider || Settles(s.rec.status))
  {
    assert s.rec.status in s.history && Fact(s.ext, s.history, s.rec.status);
  }
}
