/** What the payout saga guarantees over every run: money safety for any number of stale workers,
    settlement when no two workers debit at once, bounded progress, and a faithful webhook log. */
module PayoutTheorems {
  import opened Common
  import opened Parties
  import opened PayoutLifecycle
  import opened PayoutSaga

  lemma Reached(acts: seq<Action>)
    requires Legal(Start(), acts)
    ensures Inv(Exec(Start(), acts))
  {
    StartInv();
    RunInv(Start(), acts);
  }

  // ----- money safety, with no assumption about how workers overlap

  /** Every create call that was answered with a rejection was refused for good. */
  predicate Truthful(acts: seq<Action>) {
    forall i :: 0 <= i < |acts| && acts[i].Create? ==> !Misleads(acts[i].truth, acts[i].create)
  }

  lemma {:induction false} MisledExactly(s: Payout, acts: seq<Action>)
    requires Legal(s, acts)
    ensures Exec(s, acts).ext.misled <==> s.ext.misled || !Truthful(acts)
    decreases |acts|
  {
    if acts != [] {
      MisledExactly(Next(s, acts[0]), acts[1..]);
      assert forall i :: 0 <= i < |acts[1..]| ==> acts[1..][i] == acts[i + 1];
      assert Truthful(acts) <==> (acts[0].Create? ==> !Misleads(acts[0].truth, acts[0].create)) && Truthful(acts[1..]) by {
        assert forall i :: 0 < i < |acts| ==> acts[i] == acts[1..][i - 1];
      }
    }
  }

  /** No payout is both paid and given back, as long as rejections are true. */
  lemma NeverPaidAndGivenBack(acts: seq<Action>)
    requires Legal(Start(), acts) && Truthful(acts)
    ensures var s := Exec(Start(), acts);
            && (s.ext.released ==> s.ext.debited && GivesBack(s.ext.truth))
            && (s.ext.truth == Paid ==> s.ext.debited && !s.ext.released)
  {
    Reached(acts);
    MisledExactly(Start(), acts);
    var s := Exec(Start(), acts);
    forall st | st in s.history ensures Fact(s.ext, s.history, st) {}
  }

  /** A confirmed row was paid, and a cancelled or reversed row mirrors the provider's final truth; so does a
      failed one if rejections are true. */
  lemma RowMirrorsProvider(acts: seq<Action>)
    requires Legal(Start(), acts)
    ensures var s := Exec(Start(), acts);
            && (Confirmed in s.history ==> s.ext.truth == Paid || s.ext.truth == ReversedThere)
            && (s.rec.status == Cancelled ==> s.ext.truth == CancelledThere)
            && (s.rec.status == Reversed ==> s.ext.truth == ReversedThere)
            && (s.rec.status == Failed && Truthful(acts) ==> s.ext.truth == Unheard || s.ext.truth == Refused || s.ext.truth == FailedThere)
  {
    Reached(acts);
    MisledExactly(Start(), acts);
    var s := Exec(Start(), acts);
    MirrorByInv(s);
  }

  lemma MirrorByInv(s: Payout)
    requires HistoryOk(s.history, s.rec.status) && MoneyOk(s.ext, s.history) && PastOk(s.ext)
    ensures Confirmed in s.history ==> s.ext.truth == Paid || s.ext.truth == ReversedThere
    ensures s.rec.status == Cancelled ==> s.ext.truth == CancelledThere
    ensures s.rec.status == Reversed ==> s.ext.truth == ReversedThere
    ensures s.rec.status == Failed && !s.ext.misled ==> s.ext.truth == Unheard || s.ext.truth == Refused || s.ext.truth == FailedThere
  {
    forall st | st in s.history ensures Fact(s.ext, s.history, st) {}
    TerminalPredecessor(s.history, s.rec.status);
    OnlyFirstIsPendingDebit(s.history, s.rec.status);
    if s.rec.status == Failed && PendingCompensation !in s.history { FailedPath(s.history); }
  }

  /** Each terminal status was entered from the one status that leads to it. */
  lemma TerminalPredecessor(history: seq<Status>, status: Status)
    requires HistoryOk(history, status)
    ensures status == Cancelled ==> PendingCompensationCancelled in history
    ensures status == Reversed ==> PendingCompensationReversed in history
    ensures status == Failed ==> |history| > 1 && (history[|history| - 2] == PendingDebit || history[|history| - 2] == PendingCompensation)
  {
    var n := |history|;
    if n > 1 { assert Edge(history[n - 2], history[n - 1]); }
  }

  lemma OnlyFirstIsPendingDebit(history: seq<Status>, status: Status)
    requires HistoryOk(history, status)
    ensures forall i :: 0 < i < |history| ==> history[i] != PendingDebit
  {
    forall i | 0 < i < |history| ensures history[i] != PendingDebit {
      assert Edge(history[i - 1], history[i]);
    }
  }

  /** CreatePayout is only ever called once the debit has been applied. */
  lemma DebitBeforeCreate(acts: seq<Action>, a: Action)
    requires Legal(Start(), acts) && a.Create? && Enabled(Exec(Start(), acts), a)
    ensures Exec(Start(), acts).ext.debited
  {
    Reached(acts);
    var s := Exec(Start(), acts);
    assert PhaseOk(s.ext, s.history, s.workers[a.w]);
    assert Fact(s.ext, s.history, PendingProvider);
  }

  /** The row has left pending_provider and nobody still holds a snapshot from before. */
  predicate Submitted(s: Payout) {
    && s.rec.status != PendingDebit && s.rec.status != PendingProvider
    && (forall w :: w in s.workers ==> s.workers[w] != Snap(PendingProvider))
  }

  lemma SubmittedStep(s: Payout, a: Action)
    requires WorkersOk(s.ext, s.history, s.workers) && Submitted(s) && Enabled(s, a)
    ensures Submitted(Next(s, a)) && Next(s, a).ext.creates == s.ext.creates
  {
    if a.Cas? { assert PhaseOk(s.ext, s.history, s.workers[a.w]); }
  }

  /** From then on the provider is only ever asked, never sent the payout again. */
  lemma {:induction false} NoResubmission(s: Payout, acts: seq<Action>)
    requires Inv(s) && Submitted(s) && Legal(s, acts)
    ensures Exec(s, acts).ext.creates == s.ext.creates && Submitted(Exec(s, acts))
    decreases |acts|
  {
    if acts != [] {
      SubmittedStep(s, acts[0]);
      StepInv(s, acts[0]);
      NoResubmission(Next(s, acts[0]), acts[1..]);
    }
  }

  /** Until then, it can be sent once more. */
  lemma SendsAgain(s: Payout) returns (acts: seq<Action>)
    requires Inv(s) && !Submitted(s)
    ensures Legal(s, acts) && Exec(s, acts).ext.creates == s.ext.creates + 1
  {
    if w :| w in s.workers && s.workers[w] == Snap(PendingProvider) {
      acts := [Create(w, s.ext.truth, CreateNoAnswer)];
      One(s, acts[0]);
    } else {
      var w := Unused(s.workers);
      var first := if s.rec.status == PendingDebit then [Claim(w), Debit(w, Applied), Cas(w, 0)] else [];
      if s.rec.status == PendingDebit { DebitsAtOnce(s, w); }
      ClaimsAndCreates(Exec(s, first), w);
      var second := [Claim(w), Create(w, Exec(s, first).ext.truth, CreateNoAnswer)];
      RunOn(s, first, second);
      acts := first + second;
    }
  }

  lemma ClaimsAndCreates(s: Payout, w: nat)
    requires s.rec.status == PendingProvider && w !in s.workers
    ensures var acts := [Claim(w), Create(w, s.ext.truth, CreateNoAnswer)];
            Legal(s, acts) && Exec(s, acts).ext.creates == s.ext.creates + 1
  {
    var a := Create(w, s.ext.truth, CreateNoAnswer);
    LegalCons(Next(s, Claim(w)), a, []);
    LegalCons(s, Claim(w), [a]);
    assert [Claim(w)] + [a] == [Claim(w), a];
  }

  lemma DebitsAtOnce(s: Payout, w: nat)
    requires s.rec.status == PendingDebit && w !in s.workers
    ensures Legal(s, [Claim(w), Debit(w, Applied), Cas(w, 0)])
    ensures var u := Exec(s, [Claim(w), Debit(w, Applied), Cas(w, 0)]);
            u.rec.status == PendingProvider && u.workers == s.workers && u.ext == s.ext.(debited := true)
  {
    var s1 := Next(s, Claim(w));
    var s2 := Next(s1, Debit(w, Applied));
    var s3 := Next(s2, Cas(w, 0));
    LegalCons(s2, Cas(w, 0), []);
    LegalCons(s1, Debit(w, Applied), [Cas(w, 0)]);
    LegalCons(s, Claim(w), [Debit(w, Applied), Cas(w, 0)]);
    assert [Claim(w)] + [Debit(w, Applied), Cas(w, 0)] == [Claim(w), Debit(w, Applied), Cas(w, 0)];
    assert s3.workers == s.workers;
  }

  /** The provider can still be sent the payout exactly as long as the row has not left pending_provider or a
      snapshot from before is in somebody's hands. */
  lemma ResubmissionExactly(s: Payout)
    requires Inv(s)
    ensures (exists acts :: Legal(s, acts) && Exec(s, acts).ext.creates > s.ext.creates) <==> !Submitted(s)
  {
    if Submitted(s) {
      forall acts | Legal(s, acts) ensures Exec(s, acts).ext.creates == s.ext.creates { NoResubmission(s, acts); }
    } else {
      var acts := SendsAgain(s);
    }
  }

  /** The outcome of a create call can be lost by a crash, and the next worker submits again. */
  lemma PaidUnderAnOldSnapshot(w: nat)
    ensures Legal(Start(), PaidUnanswered(w)) &&
            var s := Exec(Start(), PaidUnanswered(w));
            s.rec.status == PendingProvider && s.ext.truth == Paid && w in s.workers && s.workers[w] == Snap(PendingProvider)
  {
    DebitsAtOnce(Start(), w);
    var s := Exec(Start(), [Claim(w), Debit(w, Applied), Cas(w, 0)]);
    LosesTheReply(s, w);
    RunOn(Start(), [Claim(w), Debit(w, Applied), Cas(w, 0)], [Claim(w), Create(w, Paid, CreateNoAnswer), Crash(w), Claim(w)]);
    assert PaidUnanswered(w) == [Claim(w), Debit(w, Applied), Cas(w, 0)] + [Claim(w), Create(w, Paid, CreateNoAnswer), Crash(w), Claim(w)];
  }

  lemma LosesTheReply(s: Payout, w: nat)
    requires s.rec.status == PendingProvider && s.ext.truth == Unheard && w !in s.workers
    ensures var acts := [Claim(w), Create(w, Paid, CreateNoAnswer), Crash(w), Claim(w)];
            Legal(s, acts) &&
            var u := Exec(s, acts);
            u.rec.status == PendingProvider && u.ext.truth == Paid && w in u.workers && u.workers[w] == Snap(PendingProvider)
  {
    var s1 := Next(s, Claim(w));
    var s2 := Next(s1, Create(w, Paid, CreateNoAnswer));
    var s3 := Next(s2, Crash(w));
    LegalCons(s3, Claim(w), []);
    LegalCons(s2, Crash(w), [Claim(w)]);
    LegalCons(s1, Create(w, Paid, CreateNoAnswer), [Crash(w), Claim(w)]);
    LegalCons(s, Claim(w), [Create(w, Paid, CreateNoAnswer), Crash(w), Claim(w)]);
    assert [Claim(w)] + [Create(w, Paid, CreateNoAnswer), Crash(w), Claim(w)] == [Claim(w), Create(w, Paid, CreateNoAnswer), Crash(w), Claim(w)];
  }

  function PaidUnanswered(w: nat): seq<Action> {
    [Claim(w), Debit(w, Applied), Cas(w, 0), Claim(w), Create(w, Paid, CreateNoAnswer), Crash(w), Claim(w)]
  }

  // ----- what an untrue rejection does

  /** A rejection verdict waits to be committed. */
  predicate Condemns(s: Payout, w: nat) {
    && w in s.workers && s.workers[w].Ready? && s.rec.status == PendingProvider
    && s.workers[w].expected == PendingProvider && s.workers[w].next == PendingCompensation
  }

  /** The provider may have paid or may still pay, and a rejection verdict was or is about to be committed. */
  ghost predicate Endangered(s: Payout) {
    !GivesBack(s.ext.truth) && (PendingCompensation in s.history || exists w :: Condemns(s, w))
  }

  predicate PaidAndGivenBack(s: Payout) {
    s.ext.truth == Paid && s.ext.released
  }

  lemma SafeCas(s: Payout, a: Action)
    requires WorkersOk(s.ext, s.history, s.workers) && HistoryOk(s.history, s.rec.status)
    requires Enabled(s, a) && !Endangered(s) && a.Cas?
    ensures !Endangered(Next(s, a))
  {
    var u, ph := Next(s, a), s.workers[a.w];
    assert PhaseOk(s.ext, s.history, ph);
    if !GivesBack(s.ext.truth) {
      assert ph.next == PendingCompensation && ph.expected == s.rec.status ==> Condemns(s, a.w);
      forall w ensures !Condemns(u, w) {
        if Condemns(u, w) { NotYet(s, w); }
        assert !Condemns(s, w);
      }
    }
  }

  /** Nobody expects pending_provider before the row has been there. */
  lemma NotYet(s: Payout, w: nat)
    requires WorkersOk(s.ext, s.history, s.workers) && HistoryOk(s.history, s.rec.status)
    requires w in s.workers && s.workers[w].Ready? && s.workers[w].expected == PendingProvider
    ensures s.rec.status != PendingDebit
  {
    assert PhaseOk(s.ext, s.history, s.workers[w]);
    assert Rank(PendingProvider) >= Rank(s.rec.status);
  }

  /** A verdict that the provider's own truth backs is none that endangers. */
  lemma SafePhase(s: Payout, a: Action)
    requires PastOk(s.ext) && Enabled(s, a) && !Outside(a) && !a.Cas? && (a.Create? ==> !Misleads(a.truth, a.create))
    requires PhaseAfter(s, a).Some?
    ensures var ph := PhaseAfter(s, a).value;
            ph.Ready? && ph.next == PendingCompensation ==> GivesBack(ExtAfter(s.ext, a).truth)
  {
  }

  lemma SafeQuiet(s: Payout, a: Action)
    requires PastOk(s.ext) && Enabled(s, a) && !Endangered(s) && !a.Cas? && (a.Create? ==> !Misleads(a.truth, a.create))
    ensures !Endangered(Next(s, a))
  {
    var u := Next(s, a);
    if !GivesBack(u.ext.truth) {
      forall w ensures !Condemns(u, w) {
        if Outside(a) || w != a.w {
          assert !Condemns(s, w);
        } else if w in u.workers {
          SafePhase(s, a);
        }
      }
    }
  }

  lemma SafeStep(s: Payout, a: Action)
    requires Inv(s) && Enabled(s, a) && !Endangered(s) && (a.Create? ==> !Misleads(a.truth, a.create))
    ensures !Endangered(Next(s, a))
  {
    if a.Cas? { SafeCas(s, a); } else { SafeQuiet(s, a); }
  }

  lemma {:induction false} SafeRun(s: Payout, acts: seq<Action>)
    requires Inv(s) && Legal(s, acts) && Truthful(acts) && !Endangered(s)
    ensures !Endangered(Exec(s, acts)) && Inv(Exec(s, acts))
    decreases |acts|
  {
    if acts != [] {
      SafeStep(s, acts[0]);
      StepInv(s, acts[0]);
      assert forall i :: 0 <= i < |acts[1..]| ==> acts[1..][i] == acts[i + 1];
      SafeRun(Next(s, acts[0]), acts[1..]);
    }
  }

  /** A payout whose compensation was committed is given back, unless it was already. */
  lemma Releases(s: Payout) returns (acts: seq<Action>)
    requires Inv(s) && PendingCompensation in s.history && !GivesBack(s.ext.truth)
    ensures Legal(s, acts) && Truthful(acts) && Exec(s, acts).ext.released && Exec(s, acts).ext.truth == s.ext.truth
    ensures Exec(s, acts).ext.creates == s.ext.creates
  {
    acts := [];
    assert Fact(s.ext, s.history, s.rec.status) by { assert s.rec.status in s.history; }
    TerminalPredecessor(s.history, s.rec.status);
    forall st | st in s.history ensures Fact(s.ext, s.history, st) {}
    if !s.ext.released {
      assert s.rec.status == PendingCompensation;
      var w := Unused(s.workers);
      var s1 := Next(s, Claim(w));
      acts := [Claim(w), Credit(w, Applied)];
      LegalCons(s1, Credit(w, Applied), []);
      LegalCons(s, Claim(w), [Credit(w, Applied)]);
      assert [Claim(w)] + [Credit(w, Applied)] == acts;
    }
  }

  lemma SafeIsUnbroken(s: Payout)
    requires MoneyOk(s.ext, s.history) && !Endangered(s)
    ensures !PaidAndGivenBack(s)
  {
    forall st | st in s.history ensures Fact(s.ext, s.history, st) {}
  }

  /** Even if every further rejection is true: a payout can still come to be both paid and given back if and
      only if a rejection verdict was or is about to be committed while the provider has not ended without paying. */
  lemma PaidAndGivenBackExactly(s: Payout)
    requires Inv(s)
    ensures (exists acts :: Legal(s, acts) && Truthful(acts) && PaidAndGivenBack(Exec(s, acts))) <==> Endangered(s)
  {
    if !Endangered(s) {
      forall acts | Legal(s, acts) && Truthful(acts) ensures !PaidAndGivenBack(Exec(s, acts)) {
        SafeRun(s, acts);
        SafeIsUnbroken(Exec(s, acts));
      }
    } else {
      var acts := Breaks(s);
    }
  }

  lemma Commits(s: Payout) returns (acts: seq<Action>)
    requires Inv(s) && Endangered(s)
    ensures Legal(s, acts) && Truthful(acts) && PendingCompensation in Exec(s, acts).history && Exec(s, acts).ext == s.ext
  {
    acts := [];
    if PendingCompensation !in s.history {
      var w :| Condemns(s, w);
      acts := [Cas(w, 0)];
      One(s, acts[0]);
    }
  }

  lemma GetsPaid(s: Payout) returns (acts: seq<Action>)
    requires !GivesBack(s.ext.truth) && s.ext.creates > 0 && s.ext.released
    ensures Legal(s, acts) && Truthful(acts) && PaidAndGivenBack(Exec(s, acts))
  {
    acts := [];
    if s.ext.truth != Paid {
      acts := [Advance(Paid)];
      One(s, acts[0]);
    }
  }

  lemma Breaks(s: Payout) returns (acts: seq<Action>)
    requires Inv(s) && Endangered(s)
    ensures Legal(s, acts) && Truthful(acts) && PaidAndGivenBack(Exec(s, acts))
  {
    var first := Commits(s);
    var u := Exec(s, first);
    RunInv(s, first);
    assert Fact(u.ext, u.history, PendingCompensation);
    var second := Releases(u);
    var third := GetsPaid(Exec(u, second));
    RunOn(u, second, third);
    RunOn(s, first, second + third);
    acts := first + (second + third);
  }

  function ThenRejected(w: nat): seq<Action> {
    [Create(w, Paid, CreateRejected), Cas(w, 0), Claim(w), Credit(w, Applied)]
  }

  /** A whole run that ends so: the first create is paid and its reply lost, the next one is answered 409. */
  lemma PaidThenRejected(w: nat)
    ensures Legal(Start(), PaidUnanswered(w) + ThenRejected(w))
    ensures PaidAndGivenBack(Exec(Start(), PaidUnanswered(w) + ThenRejected(w)))
  {
    PaidUnderAnOldSnapshot(w);
    IsGivenBack(Exec(Start(), PaidUnanswered(w)), w);
    RunOn(Start(), PaidUnanswered(w), ThenRejected(w));
  }

  lemma IsGivenBack(s: Payout, w: nat)
    requires s.rec.status == PendingProvider && s.ext.truth == Paid && w in s.workers && s.workers[w] == Snap(PendingProvider)
    ensures Legal(s, ThenRejected(w)) && PaidAndGivenBack(Exec(s, ThenRejected(w)))
  {
    var s1 := Next(s, Create(w, Paid, CreateRejected));
    var s2 := Next(s1, Cas(w, 0));
    var s3 := Next(s2, Claim(w));
    LegalCons(s3, Credit(w, Applied), []);
    LegalCons(s2, Claim(w), [Credit(w, Applied)]);
    LegalCons(s1, Cas(w, 0), [Claim(w), Credit(w, Applied)]);
    LegalCons(s, Create(w, Paid, CreateRejected), [Cas(w, 0), Claim(w), Credit(w, Applied)]);
    assert ThenRejected(w) == [Create(w, Paid, CreateRejected)] + [Cas(w, 0), Claim(w), Credit(w, Applied)];
  }

  /** One more action in front of a schedule. */
  lemma LegalCons(s: Payout, a: Action, rest: seq<Action>)
    requires Enabled(s, a) && Legal(Next(s, a), rest)
    ensures Legal(s, [a] + rest) && Exec(s, [a] + rest) == Exec(Next(s, a), rest)
  {
    assert ([a] + rest)[1..] == rest;
  }

  // ----- settlement, when at most one worker handles a pending_debit row

  /** The worker took its snapshot while the row waited for the debit. */
  predicate Debits(s: Payout, w: nat) {
    w in s.workers && (s.workers[w] == Snap(PendingDebit) || (s.workers[w].Ready? && s.workers[w].expected == PendingDebit))
  }

  ghost predicate OneDebitor(s: Payout) {
    forall v, w :: Debits(s, v) && Debits(s, w) ==> v == w
  }

  /** The schedule never lets two workers handle the pending_debit row at the same time. */
  ghost predicate Exclusive(s: Payout, acts: seq<Action>)
    requires Legal(s, acts)
    decreases |acts|
  {
    OneDebitor(s) && (acts == [] || Exclusive(Next(s, acts[0]), acts[1..]))
  }

  ghost predicate DebitOk(s: Payout) {
    && (forall w :: Debits(s, w) ==> s.rec.status == PendingDebit && (s.workers[w].Ready? && s.workers[w].next == Failed ==> !s.ext.debited))
    && (Failed in s.history && PendingCompensation !in s.history ==> !s.ext.debited)
  }

  /** No debit reaches the ledger after the worker that sent it gave up. */
  predicate Prompt(acts: seq<Action>) {
    forall i :: 0 <= i < |acts| ==> !acts[i].DebitArrives?
  }

  /** Everything but the compare-and-set leaves the row alone; only a lone debitor can debit. */
  lemma DebitQuiet(s: Payout, a: Action)
    requires HistoryOk(s.history, s.rec.status) && DebitOk(s) && OneDebitor(s) && Enabled(s, a) && !a.Cas? && !a.DebitArrives?
    ensures DebitOk(Next(s, a))
  {
    var u := Next(s, a);
    if a.Debit? { assert Debits(s, a.w); }
    forall w | Debits(u, w)
      ensures u.rec.status == PendingDebit && (u.workers[w].Ready? && u.workers[w].next == Failed ==> !u.ext.debited)
    {
      if w in s.workers && u.workers[w] == s.workers[w] { assert Debits(s, w); }
    }
  }

  lemma DebitCas(s: Payout, a: Action)
    requires Inv(s) && DebitOk(s) && OneDebitor(s) && Enabled(s, a) && a.Cas?
    ensures DebitOk(Next(s, a))
  {
    var u, ph := Next(s, a), s.workers[a.w];
    assert PhaseOk(s.ext, s.history, ph);
    if ph.expected == PendingDebit { assert Debits(s, a.w); }
    forall w | Debits(u, w)
      ensures u.rec.status == PendingDebit && (u.workers[w].Ready? && u.workers[w].next == Failed ==> !u.ext.debited)
    {
      assert Debits(s, w);
    }
  }

  lemma DebitStep(s: Payout, a: Action)
    requires Inv(s) && DebitOk(s) && OneDebitor(s) && Enabled(s, a) && !a.DebitArrives?
    ensures DebitOk(Next(s, a))
  {
    if a.Cas? { DebitCas(s, a); } else { DebitQuiet(s, a); }
  }

  lemma {:induction false} RunDebitOk(s: Payout, acts: seq<Action>)
    requires Inv(s) && DebitOk(s) && Legal(s, acts) && Exclusive(s, acts) && Prompt(acts)
    ensures Inv(Exec(s, acts)) && DebitOk(Exec(s, acts))
    decreases |acts|
  {
    if acts != [] {
      assert forall i :: 0 <= i < |acts[1..]| ==> acts[1..][i] == acts[i + 1];
      StepInv(s, acts[0]);
      DebitStep(s, acts[0]);
      RunDebitOk(Next(s, acts[0]), acts[1..]);
    }
  }

  predicate Terminal(s: Status) {
    s == Failed || s == Cancelled || s == Reversed
  }

  /** Every payout is settled: what ended was fully given back or never taken, what is with the
      provider or confirmed is held exactly once, and the row's own flag agrees with the ledger. */
  predicate SettledOk(s: Payout) {
    && (Terminal(s.rec.status) ==> (s.ext.debited <==> s.ext.released))
    && (s.rec.status == PendingDebit ==> !s.ext.released)
    && (s.rec.status == PendingProvider || s.rec.status == ProviderUnknown || s.rec.status == Processing || s.rec.status == Confirmed
        ==> s.ext.debited && !s.ext.released)
    && (s.rec.status != PendingDebit ==> (s.rec.balanceDebited <==> s.ext.debited))
  }

  lemma SettledByInv(s: Payout)
    requires Inv(s) && DebitOk(s)
    ensures SettledOk(s) && !Stranded(s)
  {
    SettledUnlessStranded(s);
  }

  /** A row that skipped pending_provider is still waiting for its debit or failed for lack of balance. */
  lemma NeverWithProvider(history: seq<Status>, status: Status)
    requires HistoryOk(history, status) && PendingProvider !in history
    ensures history == [PendingDebit] || history == [PendingDebit, Failed]
  {
    if |history| > 1 {
      assert Edge(history[0], history[1]);
      assert |history| > 2 ==> Edge(history[1], history[2]);
    }
  }

  lemma Settlement(acts: seq<Action>)
    requires Legal(Start(), acts) && Exclusive(Start(), acts) && Prompt(acts)
    ensures SettledOk(Exec(Start(), acts))
  {
    StartInv();
    RunDebitOk(Start(), acts);
    SettledByInv(Exec(Start(), acts));
  }

  /** Compensation presupposes that the payout was with the provider. */
  lemma ComesThroughProvider(history: seq<Status>)
    requires HistoryOk(history, Failed) && PendingCompensation in history
    ensures PendingProvider in history
  {
    if PendingProvider !in history { NeverWithProvider(history, Failed); }
  }

  /** Two workers around a balance top-up: the first is told the balance is short, the second debits,
      the first one's verdict wins. Nobody is left to give the money back. */
  lemma ExclusionIsNeeded()
    ensures var acts := [Claim(0), Claim(1), Debit(0, Insufficient), Debit(1, Applied)] + [Cas(0, 0), Cas(1, 0)];
            Legal(Start(), acts) &&
            var s := Exec(Start(), acts);
            s.rec.status == Failed && s.ext.debited && !s.ext.released && s.workers == map[]
  {
    BothDebit();
    var s := Exec(Start(), [Claim(0), Claim(1), Debit(0, Insufficient), Debit(1, Applied)]);
    var s5 := Next(s, Cas(0, 0));
    LegalCons(s5, Cas(1, 0), []);
    LegalCons(s, Cas(0, 0), [Cas(1, 0)]);
    assert [Cas(0, 0)] + [Cas(1, 0)] == [Cas(0, 0), Cas(1, 0)];
    RunOn(Start(), [Claim(0), Claim(1), Debit(0, Insufficient), Debit(1, Applied)], [Cas(0, 0), Cas(1, 0)]);
  }

  lemma BothDebit()
    ensures var acts := [Claim(0), Claim(1), Debit(0, Insufficient), Debit(1, Applied)];
            Legal(Start(), acts) &&
            var s := Exec(Start(), acts);
            && s.rec.status == PendingDebit && s.ext.debited && !s.ext.released
            && s.workers == map[0 := Ready(PendingDebit, Failed, NO_FIELDS.(lastError := InsufficientBalance)),
                                1 := Ready(PendingDebit, PendingProvider, NO_FIELDS.(debited := true))]
  {
    var s0 := Start();
    var s1 := Next(s0, Claim(0));
    var s2 := Next(s1, Claim(1));
    var s3 := Next(s2, Debit(0, Insufficient));
    LegalCons(s3, Debit(1, Applied), []);
    LegalCons(s2, Debit(0, Insufficient), [Debit(1, Applied)]);
    LegalCons(s1, Claim(1), [Debit(0, Insufficient), Debit(1, Applied)]);
    LegalCons(s0, Claim(0), [Claim(1), Debit(0, Insufficient), Debit(1, Applied)]);
    assert [Claim(0)] + [Claim(1), Debit(0, Insufficient), Debit(1, Applied)] == [Claim(0), Claim(1), Debit(0, Insufficient), Debit(1, Applied)];
  }

  /** Failed for lack of balance, and debited all the same. */
  predicate Stranded(s: Payout) {
    s.rec.status == Failed && PendingCompensation !in s.history && s.ext.debited
  }

  /** Without any assumption about overlapping workers: a payout is settled exactly when it is not stranded. */
  lemma SettledUnlessStranded(s: Payout)
    requires Inv(s)
    ensures SettledOk(s) <==> !Stranded(s)
  {
    assert s.rec.status in s.history;
    forall st | st in s.history ensures Fact(s.ext, s.history, st) {}
    TerminalPredecessor(s.history, s.rec.status);
    if s.rec.status == Failed { FailedPath(s.history); }
    if PendingProvider !in s.history { NeverWithProvider(s.history, s.rec.status); }
  }

  lemma StrandedHolds(s: Payout)
    requires Inv(s)
    ensures Stranded(s) ==> !s.ext.released
  {
    if Stranded(s) { FailedPath(s.history); }
  }

  /** Failed without compensation means failed straight from pending_debit. */
  lemma FailedPath(history: seq<Status>)
    requires HistoryOk(history, Failed)
    ensures PendingCompensation !in history ==> history == [PendingDebit, Failed]
    ensures PendingCompensation in history ==> PendingCompensationCancelled !in history && PendingCompensationReversed !in history
  {
    var n := |history|;
    TerminalPredecessor(history, Failed);
    OnlyFirstIsPendingDebit(history, Failed);
    assert history[n - 2] in history;
    if history[n - 2] == PendingCompensation {
      forall i | 0 <= i < n - 2 ensures Rank(history[i]) > Rank(PendingCompensation) {
        RankFalls(history, i, n - 2);
      }
    }
  }

  lemma {:induction false} RankFalls(history: seq<Status>, i: nat, j: nat)
    requires i < j < |history| && history[j] != Processing
    requires forall k :: 0 < k < |history| ==> Edge(history[k - 1], history[k])
    ensures Rank(history[i]) > Rank(history[j])
  {
    EdgeRank(history[j - 1], history[j]);
    if i < j - 1 && history[j - 1] != Processing { RankFalls(history, i, j - 1); }
    if i < j - 1 && history[j - 1] == Processing { RankNotBelow(history, i, j - 1); }
  }

  lemma {:induction false} RankNotBelow(history: seq<Status>, i: nat, j: nat)
    requires i <= j < |history|
    requires forall k :: 0 < k < |history| ==> Edge(history[k - 1], history[k])
    ensures Rank(history[i]) >= Rank(history[j])
  {
    if i < j {
      EdgeRank(history[j - 1], history[j]);
      RankNotBelow(history, i, j - 1);
    }
  }

  /** A verdict "insufficient balance" is committed after somebody else's debit. */
  predicate FailsAfterDebit(s: Payout, a: Action) {
    && a.Cas? && a.w in s.workers && s.workers[a.w].Ready?
    && s.workers[a.w].expected == PendingDebit && s.workers[a.w].next == Failed
    && s.rec.status == PendingDebit && s.ext.debited
  }

  /** A debit from an old snapshot arrives after that verdict was committed. */
  predicate DebitsAfterFailure(s: Payout, a: Action) {
    a.Debit? && Reaches(a.out) && s.rec.status == Failed && PendingCompensation !in s.history
  }

  /** A debit that was given up on reaches the ledger after that verdict. */
  predicate ArrivesAfterFailure(s: Payout, a: Action) {
    a.DebitArrives? && s.rec.status == Failed && PendingCompensation !in s.history
  }

  predicate Strands(s: Payout, a: Action) {
    FailsAfterDebit(s, a) || DebitsAfterFailure(s, a) || ArrivesAfterFailure(s, a)
  }

  /** The three steps, and no others, that strand a payout; nothing ever frees it again. */
  lemma HowAPayoutStrands(s: Payout, a: Action)
    requires Inv(s) && Enabled(s, a)
    ensures Stranded(Next(s, a)) <==> Stranded(s) || Strands(s, a)
  {
    if a.Cas? { CasStrands(s, a); }
  }

  lemma CasStrands(s: Payout, a: Action)
    requires HistoryOk(s.history, s.rec.status) && WorkersOk(s.ext, s.history, s.workers) && Enabled(s, a) && a.Cas?
    ensures Stranded(Next(s, a)) <==> Stranded(s) || FailsAfterDebit(s, a)
  {
    var ph := s.workers[a.w];
    assert PhaseOk(s.ext, s.history, ph);
    assert ph.expected == PendingCompensation && s.rec.status == ph.expected ==> PendingCompensation in s.history;
    if s.rec.status == PendingDebit {
      assert forall st :: st in s.history ==> Rank(st) >= 6;
    }
  }

  /** Somewhere in the schedule one of these steps is taken. */
  predicate HasStrandingStep(s: Payout, acts: seq<Action>)
    requires Legal(s, acts)
    decreases |acts|
  {
    acts != [] && (Strands(s, acts[0]) || HasStrandingStep(Next(s, acts[0]), acts[1..]))
  }

  lemma {:induction false} RunStrands(s: Payout, acts: seq<Action>)
    requires Inv(s) && Legal(s, acts)
    ensures Stranded(Exec(s, acts)) <==> Stranded(s) || HasStrandingStep(s, acts)
    decreases |acts|
  {
    if acts != [] {
      HowAPayoutStrands(s, acts[0]);
      StepInv(s, acts[0]);
      RunStrands(Next(s, acts[0]), acts[1..]);
    }
  }

  /** The exact condition for settlement, over all runs and any overlap of workers. */
  lemma SettledExactlyWithoutStrandingStep(acts: seq<Action>)
    requires Legal(Start(), acts)
    ensures SettledOk(Exec(Start(), acts)) <==> !HasStrandingStep(Start(), acts)
  {
    StartInv();
    RunStrands(Start(), acts);
    RunInv(Start(), acts);
    SettledUnlessStranded(Exec(Start(), acts));
  }

  /** A single worker never meets another. */
  lemma {:induction false} AloneIsExclusive(s: Payout, acts: seq<Action>, w: nat)
    requires Legal(s, acts) && s.workers.Keys <= {w}
    requires forall i :: 0 <= i < |acts| ==> Outside(acts[i]) || acts[i].w == w
    ensures Exclusive(s, acts)
    decreases |acts|
  {
    if acts != [] {
      assert forall i :: 0 <= i < |acts[1..]| ==> acts[1..][i] == acts[i + 1];
      AloneIsExclusive(Next(s, acts[0]), acts[1..], w);
    }
  }

  /** The public failure object appears exactly on payouts that failed without ever having been with the provider, and
      so, where nothing is stranded, on those that were never debited: a provider's rejection reason is erased by the
      compensation transition that follows it. */
  lemma FailureShownIffNeverDebited(acts: seq<Action>)
    requires Legal(Start(), acts)
    ensures var s := Exec(Start(), acts);
            && (ShowsFailure(s.rec) <==> s.rec.status == Failed && PendingProvider !in s.history)
            && (!HasStrandingStep(Start(), acts) ==> (ShowsFailure(s.rec) <==> s.rec.status == Failed && !s.ext.debited))
  {
    Reached(acts);
    StartInv();
    RunStrands(Start(), acts);
    var s := Exec(Start(), acts);
    FailureByInv(s);
  }

  lemma FailureByInv(s: Payout)
    requires HistoryOk(s.history, s.rec.status) && RecordOk(s.rec, s.history, s.ext.truth) && MoneyOk(s.ext, s.history)
    ensures ShowsFailure(s.rec) <==> s.rec.status == Failed && PendingProvider !in s.history
    ensures !Stranded(s) ==> (ShowsFailure(s.rec) <==> s.rec.status == Failed && !s.ext.debited)
  {
    forall st | st in s.history ensures Fact(s.ext, s.history, st) {}
    if s.rec.status == Failed { FailedPath(s.history); }
    if s.rec.status == Failed && PendingCompensation in s.history { ComesThroughProvider(s.history); }
  }

  /** One worker at a time is not enough: a debit times out, the next attempt is told the balance is short, and the
      first debit arrives. */
  lemma LateDebitStrands()
    ensures var acts := [Claim(0), Debit(0, Unreached), Claim(0), Debit(0, Insufficient), Cas(0, 0)] + [DebitArrives];
            Legal(Start(), acts) && Exclusive(Start(), acts) && Stranded(Exec(Start(), acts))
  {
    var acts := [Claim(0), Debit(0, Unreached), Claim(0), Debit(0, Insufficient), Cas(0, 0)];
    FailsAfterTimeout();
    ThenArrives(Exec(Start(), acts));
    RunOn(Start(), acts, [DebitArrives]);
    AloneIsExclusive(Start(), acts + [DebitArrives], 0);
  }

  lemma ThenArrives(s: Payout)
    requires s.rec.status == Failed && s.ext.debitOut && PendingCompensation !in s.history
    ensures Legal(s, [DebitArrives]) && Stranded(Exec(s, [DebitArrives]))
  {
    One(s, DebitArrives);
  }

  lemma FailsAfterTimeout()
    ensures var acts := [Claim(0), Debit(0, Unreached), Claim(0), Debit(0, Insufficient), Cas(0, 0)];
            Legal(Start(), acts) &&
            var s := Exec(Start(), acts);
            s.rec.status == Failed && s.ext.debitOut && PendingCompensation !in s.history
  {
    var s0 := Start();
    var s1 := Next(s0, Claim(0));
    var s2 := Next(s1, Debit(0, Unreached));
    LegalCons(s1, Debit(0, Unreached), []);
    LegalCons(s0, Claim(0), [Debit(0, Unreached)]);
    assert [Claim(0)] + [Debit(0, Unreached)] == [Claim(0), Debit(0, Unreached)];
    FallsShort(s2);
    RunOn(s0, [Claim(0), Debit(0, Unreached)], [Claim(0), Debit(0, Insufficient), Cas(0, 0)]);
    assert [Claim(0), Debit(0, Unreached)] + [Claim(0), Debit(0, Insufficient), Cas(0, 0)]
        == [Claim(0), Debit(0, Unreached), Claim(0), Debit(0, Insufficient), Cas(0, 0)];
  }

  lemma FallsShort(s: Payout)
    requires s.rec.status == PendingDebit && 0 !in s.workers && !s.ext.debited
    ensures var acts := [Claim(0), Debit(0, Insufficient), Cas(0, 0)];
            Legal(s, acts) && Exec(s, acts).rec.status == Failed && Exec(s, acts).ext == s.ext
            && Exec(s, acts).history == s.history + [Failed]
  {
    var s1 := Next(s, Claim(0));
    var s2 := Next(s1, Debit(0, Insufficient));
    LegalCons(s2, Cas(0, 0), []);
    LegalCons(s1, Debit(0, Insufficient), [Cas(0, 0)]);
    LegalCons(s, Claim(0), [Debit(0, Insufficient), Cas(0, 0)]);
    assert [Claim(0)] + [Debit(0, Insufficient), Cas(0, 0)] == [Claim(0), Debit(0, Insufficient), Cas(0, 0)];
  }

  // ----- progress

  /** How many committed transitions changed the status. */
  function Changes(history: seq<Status>): nat
    decreases |history|
  {
    if |history| < 2 then 0
    else Changes(history[..|history| - 1]) + if history[|history| - 2] == history[|history| - 1] then 0 else 1
  }

  lemma {:induction false} ChangesBounded(history: seq<Status>)
    requires |history| > 0 && history[0] == PendingDebit
    requires forall i :: 0 < i < |history| ==> Edge(history[i - 1], history[i])
    ensures Changes(history) + Rank(history[|history| - 1]) <= 6
    decreases |history|
  {
    if |history| > 1 {
      var before := history[..|history| - 1];
      ChangesBounded(before);
      EdgeRank(history[|history| - 2], history[|history| - 1]);
    }
  }

  lemma NoRepeats(history: seq<Status>, status: Status)
    requires HistoryOk(history, status)
    ensures forall i :: 0 < i < |history| && history[i - 1] == history[i] ==> history[i] == Processing
  {
    forall i | 0 < i < |history| && history[i - 1] == history[i] ensures history[i] == Processing {
      EdgeRank(history[i - 1], history[i]);
    }
  }

  /** Each end date is set exactly when the row has that end. */
  lemma DatesByInv(s: Payout)
    requires HistoryOk(s.history, s.rec.status) && RecordOk(s.rec, s.history, s.ext.truth)
    ensures s.rec.failedAt.Some? <==> s.rec.status == Failed
    ensures s.rec.cancelledAt.Some? <==> s.rec.status == Cancelled
    ensures s.rec.reversedAt.Some? <==> s.rec.status == Reversed
  {
    assert s.rec.status in s.history;
  }

  /** At most six status changes in a life; the version counts the commits; repeated statuses are
      rewrites of processing; each end date is set exactly when the row has that end. */
  lemma ProgressAndDates(acts: seq<Action>)
    requires Legal(Start(), acts)
    ensures var s := Exec(Start(), acts);
            && Changes(s.history) <= 6
            && s.rec.version == |s.history|
            && (forall i :: 0 < i < |s.history| && s.history[i - 1] == s.history[i] ==> s.history[i] == Processing)
            && (s.rec.failedAt.Some? <==> s.rec.status == Failed)
            && (s.rec.cancelledAt.Some? <==> s.rec.status == Cancelled)
            && (s.rec.reversedAt.Some? <==> s.rec.status == Reversed)
  {
    Reached(acts);
    var s := Exec(Start(), acts);
    ChangesBounded(s.history);
    NoRepeats(s.history, s.rec.status);
    DatesByInv(s);
  }

  /** A status once left is never taken again: later histories extend earlier ones, rank by rank. */
  lemma {:induction false} HistoryOnlyExtends(s: Payout, acts: seq<Action>)
    requires Inv(s) && Legal(s, acts)
    ensures var u := Exec(s, acts);
            s.history <= u.history && (u.rec.status == s.rec.status || Rank(u.rec.status) < Rank(s.rec.status))
    decreases |acts|
  {
    if acts != [] {
      var u := Next(s, acts[0]);
      StepInv(s, acts[0]);
      assert s.history <= u.history;
      assert s.rec.status in u.history;
      HistoryOnlyExtends(u, acts[1..]);
    }
  }

  // ----- the merchant's webhook log

  /** What a merchant learns who believes a webhook only if its previousStatus is what he knew. */
  function Replay(outbox: seq<Webhook>): Option<Public>
    decreases |outbox|
  {
    if |outbox| == 0 then None
    else
      var w := outbox[|outbox| - 1];
      if |outbox| == 1 then (if w.id == CreatedId then Some(w.status) else None)
      else
        var known := Replay(outbox[..|outbox| - 1]);
        if known.Some? && w.previous == known && w.id != CreatedId then Some(w.status) else None
  }

  lemma {:induction false} ChainReplays(outbox: seq<Webhook>)
    requires Chained(outbox)
    ensures Replay(outbox) == Some(outbox[|outbox| - 1].status)
    decreases |outbox|
  {
    if |outbox| > 1 {
      var before := outbox[..|outbox| - 1];
      assert Chained(before);
      ChainReplays(before);
    }
  }

  /** Replaying the log gives the current public status, the log is one of the five public lives, no
      event id occurs twice, and every public change of the history was written: nothing was dropped. */
  lemma WebhooksTellTheStory(acts: seq<Action>)
    requires Legal(Start(), acts)
    ensures var s := Exec(Start(), acts);
            && Replay(s.rec.outbox) == Some(PublicStatus(s.rec.status))
            && Statuses(s.rec.outbox) == PathTo(PublicStatus(s.rec.status))
            && Statuses(s.rec.outbox) == PublicPath(s.history)
            && (forall i, j :: 0 <= i < j < |s.rec.outbox| ==> s.rec.outbox[i].id != s.rec.outbox[j].id)
  {
    Reached(acts);
    var s := Exec(Start(), acts);
    LogTells(s.rec.outbox, s.rec.version, s.rec.status, s.history);
  }

  lemma LogTells(o: seq<Webhook>, version: nat, status: Status, history: seq<Status>)
    requires LogOk(o, version, status, history)
    ensures Replay(o) == Some(PublicStatus(status))
    ensures Statuses(o) == PathTo(PublicStatus(status)) && Statuses(o) == PublicPath(history)
    ensures forall i, j :: 0 <= i < j < |o| ==> o[i].id != o[j].id
  {
    ChainReplays(o);
    assert o[|o| - 1].status == Statuses(o)[|o| - 1];
    forall i, j | 0 <= i < j < |o| ensures o[i].id != o[j].id {
      assert o[i].status == Statuses(o)[i] && o[j].status == Statuses(o)[j];
      assert o[i].status != o[j].status;
    }
  }
}
