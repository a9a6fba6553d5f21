/** When a refund comes to an end, and when it never does (process and applyProvider in internal/app/refunds.go). */
module RefundConvergence {
  import opened Common
  import opened Parties
  import opened RefundSaga
  import opened RefundDriver

  /** Claim a fresh snapshot and process it. */
  function Call(s: Refund, w: nat, net: Answers, now: int): seq<Action> {
    [Claim(w)] + Script(s.rec.status, w, net, now, true)
  }

  lemma LegalCons(s: Refund, a: Action, rest: seq<Action>)
    requires Enabled(s, a)
    ensures Legal(s, [a] + rest) <==> Legal(Next(s, a), rest)
    ensures Legal(s, [a] + rest) ==> Exec(s, [a] + rest) == Exec(Next(s, a), rest)
  {
    assert ([a] + rest)[1..] == rest;
  }

  lemma ThenCas(s: Refund, a: Action, w: nat, now: int)
    requires !Outside(a) && !a.Cas? && a.w == w && Legal(s, [a, Cas(w, now)])
    ensures Enabled(s, a) && PhaseAfter(s, a).Some? && PhaseAfter(s, a).value.Ready?
    ensures Exec(s, [a, Cas(w, now)]) == Next(Next(s, a), Cas(w, now))
  {
    assert [a] + [Cas(w, now)] == [a, Cas(w, now)];
    RunApart(s, [a], [Cas(w, now)]);
    One(s, a);
    One(Next(s, a), Cas(w, now));
  }

  /** The ledger answers. */
  predicate LedgerAnswers(net: Answers) {
    (net.debit.Applied? || net.debit.Insufficient?) && net.credit.Applied?
  }

  /** The provider's answer reaches the worker, in a call on a row with this status. */
  predicate Hears(status: Status, net: Answers) {
    (status == PendingProvider && net.create.CreateAnswered?) || net.lookup.LookupAnswered?
  }

  /** What the provider must come to for a refund to end. */
  predicate Decisive(t: Truth) {
    t == Paid || t == Refused || t == FailedThere
  }

  /** What the first answer under truth t makes of the row. */
  function Verdict(t: Truth): Status {
    if t == Paid then Succeeded else if t == Refused || t == FailedThere then PendingCompensation else Pending
  }

  /** The provider keeps to the truth t, or comes to it when it is sent the refund. */
  predicate Keeps(s: Refund, t: Truth) {
    t != Unheard && t != Open && (s.ext.truth == t || s.rec.status == PendingProvider)
  }

  predicate Awaits(s: Status) {
    s == PendingProvider || s == Pending
  }

  /** One call on a row that waits for the provider: the verdict if the worker hears, nothing otherwise. */
  lemma CallOnAwaiting(s: Refund, w: nat, t: Truth, net: Answers, now: int)
    requires w !in s.workers && Awaits(s.rec.status) && Keeps(s, t) && net.truth == t && Legal(s, Call(s, w, net, now))
    ensures var u := Exec(s, Call(s, w, net, now));
            && u.workers == s.workers && u.ext.truth == t
            && u.rec.status == if Hears(s.rec.status, net) then Verdict(t) else s.rec.status
  {
    var c, script := Next(s, Claim(w)), Script(s.rec.status, w, net, now, true);
    LegalCons(s, Claim(w), script);
    assert c.workers - {w} == s.workers;
    if s.rec.status == Pending {
      AskPending(c, w, t, net, now);
    } else if net.create.CreateAnswered? {
      CreateHeard(c, w, t, net, now);
    } else {
      AskAfterCreate(c, w, t, net, now);
    }
  }

  lemma AskPending(c: Refund, w: nat, t: Truth, net: Answers, now: int)
    requires w in c.workers && c.workers[w] == Snap(Pending) && c.rec.status == Pending && c.ext.truth == t
    requires t != Unheard && t != Open && Legal(c, Script(Pending, w, net, now, true))
    ensures var u := Exec(c, Script(Pending, w, net, now, true));
            && u.workers == c.workers - {w} && u.ext.truth == t
            && u.rec.status == if net.lookup.LookupAnswered? then Verdict(t) else Pending
  {
    var b := Lookup(w, net.lookup);
    if net.lookup.LookupAnswered? {
      ThenCas(c, b, w, now);
      assert Next(c, b).workers - {w} == c.workers - {w};
    } else {
      One(c, b);
    }
  }

  lemma CreateHeard(c: Refund, w: nat, t: Truth, net: Answers, now: int)
    requires w in c.workers && c.workers[w] == Snap(PendingProvider) && c.rec.status == PendingProvider
    requires net.truth == t && t != Unheard && t != Open && net.create.CreateAnswered? && Legal(c, Script(PendingProvider, w, net, now, true))
    ensures var u := Exec(c, Script(PendingProvider, w, net, now, true));
            u.workers == c.workers - {w} && u.ext.truth == t && u.rec.status == Verdict(t)
  {
    var a := Create(w, net.truth, net.create);
    ThenCas(c, a, w, now);
    assert Next(c, a).workers - {w} == c.workers - {w};
  }

  lemma AskAfterCreate(c: Refund, w: nat, t: Truth, net: Answers, now: int)
    requires w in c.workers && c.workers[w] == Snap(PendingProvider) && c.rec.status == PendingProvider
    requires net.truth == t && t != Unheard && t != Open && !net.create.CreateAnswered? && Legal(c, Script(PendingProvider, w, net, now, true))
    ensures var u := Exec(c, Script(PendingProvider, w, net, now, true));
            && u.workers == c.workers - {w} && u.ext.truth == t
            && u.rec.status == if net.lookup.LookupAnswered? then Verdict(t) else PendingProvider
  {
    var a, b := Create(w, net.truth, net.create), Lookup(w, net.lookup);
    var rest := if net.lookup.LookupAnswered? then [b, Cas(w, now)] else [b];
    assert Script(PendingProvider, w, net, now, true) == [a] + rest;
    RunApart(c, [a], rest);
    One(c, a);
    var d := Next(c, a);
    if net.lookup.LookupAnswered? {
      ThenCas(d, b, w, now);
    } else {
      One(d, b);
    }
    assert d.workers - {w} == c.workers - {w} && Next(d, b).workers - {w} == c.workers - {w};
  }

  /** One call on a row that owes the merchant his money back. */
  lemma CallOnCompensation(s: Refund, w: nat, net: Answers, now: int)
    requires w !in s.workers && s.rec.status == PendingCompensation && LedgerAnswers(net) && Legal(s, Call(s, w, net, now))
    ensures var u := Exec(s, Call(s, w, net, now));
            u.workers == s.workers && u.ext.truth == s.ext.truth && u.rec.status == Failed
  {
    var c, script := Next(s, Claim(w)), Script(s.rec.status, w, net, now, true);
    LegalCons(s, Claim(w), script);
    assert script == [Credit(w, net.credit), Cas(w, now)];
    ThenCas(c, Credit(w, net.credit), w, now);
    assert Next(c, Credit(w, net.credit)).workers - {w} == s.workers;
  }

  lemma CallOnDebit(s: Refund, w: nat, net: Answers, now: int)
    requires w !in s.workers && s.rec.status == PendingDebit && LedgerAnswers(net) && Legal(s, Call(s, w, net, now))
    ensures var u := Exec(s, Call(s, w, net, now));
            u.workers == s.workers && u.ext.truth == s.ext.truth
            && u.rec.status == if net.debit.Applied? then PendingProvider else Failed
  {
    var c, script := Next(s, Claim(w)), Script(s.rec.status, w, net, now, true);
    LegalCons(s, Claim(w), script);
    assert script == [Debit(w, net.debit), Cas(w, now)];
    ThenCas(c, Debit(w, net.debit), w, now);
    assert Next(c, Debit(w, net.debit)).workers - {w} == s.workers;
  }

  /** A call on an ended refund changes nothing at all. */
  lemma CallOnEnded(s: Refund, w: nat, net: Answers, now: int)
    requires w !in s.workers && Ends(s.rec.status)
    ensures Legal(s, Call(s, w, net, now)) && Exec(s, Call(s, w, net, now)) == s
  {
    var c := Next(s, Claim(w));
    LegalCons(s, Claim(w), [Crash(w)]);
    One(c, Crash(w));
    assert c.workers - {w} == s.workers;
  }

  // ----- repeated calls

  predicate LegalCalls(s: Refund, w: nat, nets: seq<Answers>, now: int)
    decreases |nets|
  {
    nets == [] || (Legal(s, Call(s, w, nets[0], now)) && LegalCalls(Exec(s, Call(s, w, nets[0], now)), w, nets[1..], now))
  }

  function Calls(s: Refund, w: nat, nets: seq<Answers>, now: int): Refund
    requires LegalCalls(s, w, nets, now)
    decreases |nets|
  {
    if nets == [] then s else Calls(Exec(s, Call(s, w, nets[0], now)), w, nets[1..], now)
  }

  /** The provider has come to the truth t and keeps to it, and the ledger answers, in every call. */
  predicate Steady(t: Truth, nets: seq<Answers>) {
    forall i :: 0 <= i < |nets| ==> nets[i].truth == t && LedgerAnswers(nets[i])
  }

  /** How many calls are needed after the first answer. */
  function After(t: Truth): nat {
    if t == Paid then 0 else 1
  }

  lemma {:induction false} EndedStays(s: Refund, w: nat, nets: seq<Answers>, now: int)
    requires w !in s.workers && Ends(s.rec.status) && LegalCalls(s, w, nets, now)
    ensures Calls(s, w, nets, now) == s
    decreases |nets|
  {
    if nets != [] {
      CallOnEnded(s, w, nets[0], now);
      EndedStays(s, w, nets[1..], now);
    }
  }

  lemma {:induction false} CompensationEnds(s: Refund, w: nat, nets: seq<Answers>, now: int)
    requires w !in s.workers && s.rec.status == PendingCompensation && LegalCalls(s, w, nets, now)
    requires forall i :: 0 <= i < |nets| ==> LedgerAnswers(nets[i])
    ensures Ends(Calls(s, w, nets, now).rec.status) <==> nets != []
  {
    if nets != [] {
      CallOnCompensation(s, w, nets[0], now);
      EndedStays(Exec(s, Call(s, w, nets[0], now)), w, nets[1..], now);
    }
  }

  /** Under a truth that does not decide, calls go on for ever. */
  lemma {:induction false} UndecidedNeverEnds(s: Refund, w: nat, t: Truth, nets: seq<Answers>, now: int)
    requires w !in s.workers && Awaits(s.rec.status) && Keeps(s, t) && Steady(t, nets) && LegalCalls(s, w, nets, now)
    requires !Decisive(t)
    ensures Awaits(Calls(s, w, nets, now).rec.status)
    decreases |nets|
  {
    if nets != [] {
      CallOnAwaiting(s, w, t, nets[0], now);
      assert forall i :: 0 <= i < |nets[1..]| ==> nets[1..][i] == nets[i + 1];
      UndecidedNeverEnds(Exec(s, Call(s, w, nets[0], now)), w, t, nets[1..], now);
    }
  }

  /** A refund that is with the provider ends, by repeated fresh calls with an answering ledger and a provider that has
      come to its truth, if and only if that truth is paid, refused or failed and one of the calls hears it, with one
      more call after it for the money to go back. */
  lemma {:induction false} EndsExactlyIfHeard(s: Refund, w: nat, t: Truth, nets: seq<Answers>, now: int)
    requires w !in s.workers && Awaits(s.rec.status) && Keeps(s, t) && Steady(t, nets) && LegalCalls(s, w, nets, now)
    ensures Ends(Calls(s, w, nets, now).rec.status)
            <==> Decisive(t) && exists i :: 0 <= i < |nets| - After(t) && Hears(s.rec.status, nets[i])
    decreases |nets|
  {
    if !Decisive(t) {
      UndecidedNeverEnds(s, w, t, nets, now);
    } else if nets != [] {
      var u, rest := Exec(s, Call(s, w, nets[0], now)), nets[1..];
      CallOnAwaiting(s, w, t, nets[0], now);
      assert forall i :: 0 <= i < |rest| ==> rest[i] == nets[i + 1];
      if !Hears(s.rec.status, nets[0]) {
        EndsExactlyIfHeard(u, w, t, rest, now);
        forall i | 0 <= i < |nets| - After(t) && Hears(s.rec.status, nets[i]) ensures 0 <= i - 1 < |rest| - After(t) && Hears(s.rec.status, rest[i - 1]) {}
        forall i | 0 <= i < |rest| - After(t) && Hears(s.rec.status, rest[i]) ensures Hears(s.rec.status, nets[i + 1]) {}
      } else if t == Paid {
        EndedStays(u, w, rest, now);
      } else {
        CompensationEnds(u, w, rest, now);
        assert rest != [] ==> 0 < |nets| - After(t) && Hears(s.rec.status, nets[0]);
      }
    }
  }

  function CallsLeft(s: Status): nat {
    match s
    case PendingDebit => 3
    case PendingProvider => 2
    case Pending => 2
    case PendingCompensation => 1
    case _ => 0
  }

  /** So three calls that all hear a decisive answer are enough from anywhere. */
  lemma Convergence(s: Refund, w: nat, t: Truth, nets: seq<Answers>, now: int)
    requires w !in s.workers && Steady(t, nets) && Decisive(t) && LegalCalls(s, w, nets, now)
    requires s.rec.status == Pending ==> s.ext.truth == t
    requires |nets| >= CallsLeft(s.rec.status) && forall i :: 0 <= i < |nets| ==> nets[i].lookup.LookupAnswered?
    ensures Ends(Calls(s, w, nets, now).rec.status)
    ensures CallsLeft(s.rec.status) <= 3
  {
    match s.rec.status {
      case PendingDebit =>
        var u, rest := Exec(s, Call(s, w, nets[0], now)), nets[1..];
        CallOnDebit(s, w, nets[0], now);
        assert forall i :: 0 <= i < |rest| ==> rest[i] == nets[i + 1];
        if Ends(u.rec.status) { EndedStays(u, w, rest, now); } else { EndsExactlyIfHeard(u, w, t, rest, now); assert Hears(PendingProvider, rest[0]); }
      case PendingCompensation => CompensationEnds(s, w, nets, now);
      case Succeeded => EndedStays(s, w, nets, now);
      case Failed => EndedStays(s, w, nets, now);
      case _ =>
        EndsExactlyIfHeard(s, w, t, nets, now);
        assert Hears(s.rec.status, nets[0]);
    }
  }

  // ----- such calls exist

  function FinalWord(t: Truth): Report {
    Report(match t
           case Paid => SaysConfirmed
           case CancelledThere => SaysCancelled
           case ReversedThere => SaysReversed
           case _ => SaysRejected, "", "", "", "")
  }

  /** A call in which the worker hears the provider's truth, or hears nothing. */
  function CallAnswers(t: Truth, heard: bool): Answers {
    if heard then Answers(Applied, Applied, t, CreateAnswered(FinalWord(t)), LookupAnswered(FinalWord(t)))
    else Answers(Applied, Applied, t, CreateNoAnswer, LookupNoAnswer)
  }

  /** Whatever has been heard so far, the next call can hear or not. */
  lemma EitherCallExists(s: Refund, w: nat, t: Truth, heard: bool, now: int)
    requires w !in s.workers && t != Unheard && t != Open
    requires s.ext.truth == t || (s.rec.status == PendingProvider && Advances(s.ext.truth, t)) || s.rec.status == PendingDebit
    ensures Legal(s, Call(s, w, CallAnswers(t, heard), now)) && LedgerAnswers(CallAnswers(t, heard))
    ensures Awaits(s.rec.status) ==> (Hears(s.rec.status, CallAnswers(t, heard)) <==> heard)
  {
    var net := CallAnswers(t, heard);
    var c, script := Next(s, Claim(w)), Script(s.rec.status, w, net, now, true);
    LegalCons(s, Claim(w), script);
    var a := script[0];
    if |script| == 1 {
      One(c, a);
    } else {
      assert script == [a] + [script[1]];
      LegalCons(c, a, [script[1]]);
      One(Next(c, a), script[1]);
    }
  }

  // ----- all runs

  /** A worker is about to commit that the refund was paid. */
  predicate AboutToSucceed(s: Refund, w: nat) {
    w in s.workers && s.workers[w].Ready? && s.workers[w].next == Succeeded && s.workers[w].expected == s.rec.status
  }

  predicate GoneBack(t: Truth) {
    t == CancelledThere || t == ReversedThere
  }

  lemma StaysOpen(s: Refund, a: Action)
    requires Inv(s) && GoneBack(s.ext.truth) && !Ends(s.rec.status) && Enabled(s, a)
    requires forall w :: !AboutToSucceed(s, w)
    ensures GoneBack(Next(s, a).ext.truth) && !Ends(Next(s, a).rec.status) && forall w :: !AboutToSucceed(Next(s, a), w)
  {
    WaitsForProvider(s);
    if a.Cas? { OpenCas(s, a); } else { OpenCall(s, a); }
  }

  /** Where such a refund stands. */
  lemma WaitsForProvider(s: Refund)
    requires Inv(s) && GoneBack(s.ext.truth) && !Ends(s.rec.status)
    ensures Awaits(s.rec.status) && PendingCompensation !in s.history
    ensures s.ext.debited && !s.ext.released
  {
    assert s.rec.status in s.history;
    forall st | st in s.history ensures Fact(s.ext, s.history, st) {}
    assert PendingProvider in s.history ==> Rank(PendingProvider) >= Rank(s.rec.status);
  }

  lemma OpenCas(s: Refund, a: Action)
    requires Inv(s) && GoneBack(s.ext.truth) && Awaits(s.rec.status) && Enabled(s, a) && a.Cas?
    requires forall w :: !AboutToSucceed(s, w)
    ensures !Ends(Next(s, a).rec.status) && forall w :: !AboutToSucceed(Next(s, a), w)
  {
    var u, ph := Next(s, a), s.workers[a.w];
    assert PhaseOk(s.ext, s.history, ph);
    assert !AboutToSucceed(s, a.w);
    forall w ensures !AboutToSucceed(u, w) {
      assert !AboutToSucceed(s, w);
      if w in u.workers && u.workers[w].Ready? { LaterExpected(s, w); }
    }
  }

  /** Nobody expects a status the row has not been in. */
  lemma LaterExpected(s: Refund, w: nat)
    requires HistoryOk(s.history, s.rec.status) && WorkersOk(s.ext, s.history, s.workers)
    requires w in s.workers && s.workers[w].Ready?
    ensures Rank(s.workers[w].expected) >= Rank(s.rec.status)
  {
    assert PhaseOk(s.ext, s.history, s.workers[w]);
  }

  lemma OpenCall(s: Refund, a: Action)
    requires Inv(s) && GoneBack(s.ext.truth) && Enabled(s, a) && !a.Cas?
    requires forall w :: !AboutToSucceed(s, w)
    ensures GoneBack(Next(s, a).ext.truth) && forall w :: !AboutToSucceed(Next(s, a), w)
  {
    forall w ensures !AboutToSucceed(Next(s, a), w) {
      assert !AboutToSucceed(s, w);
    }
  }

  lemma {:induction false} StaysOpenForEver(s: Refund, acts: seq<Action>)
    requires Inv(s) && GoneBack(s.ext.truth) && !Ends(s.rec.status) && Legal(s, acts)
    requires forall w :: !AboutToSucceed(s, w)
    ensures !Ends(Exec(s, acts).rec.status)
    decreases |acts|
  {
    if acts != [] {
      StaysOpen(s, acts[0]);
      StepInv(s, acts[0]);
      StaysOpenForEver(Next(s, acts[0]), acts[1..]);
    }
  }

  /** Once the provider has cancelled or reversed a refund that has not ended, no run of any length ends it, unless a
      worker who was told "confirmed" before the reversal is still about to commit that. */
  lemma GoneBackNeverEndsExactly(s: Refund)
    requires Inv(s) && GoneBack(s.ext.truth) && !Ends(s.rec.status)
    ensures (exists acts :: Legal(s, acts) && Ends(Exec(s, acts).rec.status)) <==> exists w :: AboutToSucceed(s, w)
    ensures s.ext.debited && !s.ext.released
  {
    WaitsForProvider(s);
    if w :| AboutToSucceed(s, w) {
      One(s, Cas(w, 0));
      assert Legal(s, [Cas(w, 0)]) && Ends(Exec(s, [Cas(w, 0)]).rec.status);
    } else {
      forall acts | Legal(s, acts) ensures !Ends(Exec(s, acts).rec.status) { StaysOpenForEver(s, acts); }
    }
  }

  /** No create and no query of this run is answered. */
  predicate Silent(acts: seq<Action>) {
    forall i :: 0 <= i < |acts| ==> (acts[i].Create? ==> !acts[i].create.CreateAnswered?) && (acts[i].Lookup? ==> acts[i].lookup.LookupNoAnswer?)
  }

  /** No verdict about the present status is waiting to be committed. */
  predicate NoVerdict(s: Refund) {
    forall w :: w in s.workers ==> !s.workers[w].Ready? || Rank(s.workers[w].expected) > Rank(s.rec.status)
  }

  /** A rejected create counts as no answer: however often a refund is sent and refused, and whatever else happens, as long
      as no query is answered the row stays where it is, with the money held. */
  lemma {:induction false} UnheardStaysPut(s: Refund, acts: seq<Action>)
    requires Inv(s) && Awaits(s.rec.status) && Legal(s, acts) && Silent(acts)
    requires NoVerdict(s)
    ensures Exec(s, acts).rec == s.rec && Exec(s, acts).ext.debited && !Exec(s, acts).ext.released
    decreases |acts|
  {
    if acts == [] {
      assert s.rec.status in s.history;
      forall st | st in s.history ensures Fact(s.ext, s.history, st) {}
    } else {
      UnheardStep(s, acts[0]);
      StepInv(s, acts[0]);
      assert forall i :: 0 <= i < |acts[1..]| ==> acts[1..][i] == acts[i + 1];
      UnheardStaysPut(Next(s, acts[0]), acts[1..]);
    }
  }

  lemma UnheardStep(s: Refund, a: Action)
    requires Inv(s) && Awaits(s.rec.status) && Enabled(s, a)
    requires (a.Create? ==> !a.create.CreateAnswered?) && (a.Lookup? ==> a.lookup.LookupNoAnswer?)
    requires NoVerdict(s)
    ensures Next(s, a).rec == s.rec && NoVerdict(Next(s, a))
  {
    if a.Credit? { NotCompensating(s, a.w); }
  }

  lemma NotCompensating(s: Refund, w: nat)
    requires Inv(s) && Awaits(s.rec.status) && w in s.workers
    ensures s.workers[w] != Snap(PendingCompensation)
  {
    assert PhaseOk(s.ext, s.history, s.workers[w]);
  }
}
