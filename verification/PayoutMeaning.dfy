/** What the public statuses of a payout mean, and what provider events bring about
    (publicPayoutStatus, TransitionPayout and ApplyPayoutProviderEvent in internal/adapters/postgres/payouts.go). */
module PayoutMeaning {
  import opened Common
  import opened Parties
  import opened PayoutLifecycle
  import opened PayoutSaga
  import opened PayoutTheorems

  /** What the merchant was last told. */
  function LastTold(r: Record): Public
    requires r.outbox != []
  {
    r.outbox[|r.outbox| - 1].status
  }

  /** In every run the last webhook says failed, cancelled or reversed exactly when the row carries the date of that end,
      and confirmed exactly while the row is confirmed or on its way back from there. */
  lemma ToldByDates(acts: seq<Action>)
    requires Legal(Start(), acts)
    ensures var s := Exec(Start(), acts);
            && s.rec.outbox != []
            && (LastTold(s.rec) == PubFailed <==> s.rec.failedAt.Some?)
            && (LastTold(s.rec) == PubCancelled <==> s.rec.cancelledAt.Some?)
            && (LastTold(s.rec) == PubReversed <==> s.rec.reversedAt.Some?)
            && (LastTold(s.rec) == PubConfirmed <==>
                s.rec.reversedAt.None? && (s.rec.confirmedAt.Some? || PendingCompensationReversed in s.history))
  {
    Reached(acts);
    ToldByInv(Exec(Start(), acts));
  }

  lemma ToldByInv(s: Payout)
    requires Inv(s)
    ensures s.rec.outbox != [] && LastTold(s.rec) == PublicStatus(s.rec.status)
    ensures LastTold(s.rec) == PubFailed <==> s.rec.failedAt.Some?
    ensures LastTold(s.rec) == PubCancelled <==> s.rec.cancelledAt.Some?
    ensures LastTold(s.rec) == PubReversed <==> s.rec.reversedAt.Some?
    ensures LastTold(s.rec) == PubConfirmed <==>
            s.rec.reversedAt.None? && (s.rec.confirmedAt.Some? || PendingCompensationReversed in s.history)
  {
    var o := s.rec.outbox;
    assert o[|o| - 1].status == Statuses(o)[|o| - 1];
    DatesByInv(s);
    AfterConfirmed(s.history, s.rec.status);
  }

  /** A row that was confirmed, or is to be reversed, stays so until it is reversed. */
  lemma {:induction false} AfterConfirmed(history: seq<Status>, status: Status)
    requires HistoryOk(history, status)
    ensures Confirmed in history || PendingCompensationReversed in history
            <==> status == Confirmed || status == PendingCompensationReversed || status == Reversed
  {
    assert status in history;
    TerminalPredecessor(history, status);
    var n := |history|;
    if n > 1 {
      var before := history[..n - 1];
      assert history == before + [status];
      assert Edge(history[n - 2], history[n - 1]);
      Shorter(history, status);
      AfterConfirmed(before, before[n - 2]);
    }
  }

  /** The history before the last commit. */
  lemma Shorter(history: seq<Status>, status: Status)
    requires HistoryOk(history, status) && |history| > 1
    ensures HistoryOk(history[..|history| - 1], history[|history| - 2])
  {
    var before := history[..|history| - 1];
    forall st | st in before ensures Rank(st) > Rank(history[|history| - 2]) || st == history[|history| - 2] {
      var i :| 0 <= i < |before| && before[i] == st;
      if i < |before| - 1 && before[|before| - 1] != Processing { RankFalls(history, i, |before| - 1); }
      if i < |before| - 1 && before[|before| - 1] == Processing { ProcessingRepeats(history, i, |before| - 1); }
    }
  }

  /** Before processing stands processing or something of higher rank. */
  lemma {:induction false} ProcessingRepeats(history: seq<Status>, i: nat, j: nat)
    requires i <= j < |history| && history[j] == Processing
    requires forall k :: 0 < k < |history| ==> Edge(history[k - 1], history[k])
    ensures history[i] == Processing || Rank(history[i]) > Rank(Processing)
  {
    if i < j {
      EdgeRank(history[j - 1], history[j]);
      if history[j - 1] == Processing { ProcessingRepeats(history, i, j - 1); } else { RankNotBelow(history, i, j - 1); }
    }
  }

  /** "Confirmed" is told without a confirmation date exactly if the provider's first decisive answer to a worker was
      "reversed". */
  lemma ToldConfirmedUndatedExactly(acts: seq<Action>)
    requires Legal(Start(), acts)
    ensures var s := Exec(Start(), acts);
            s.rec.outbox != [] &&
            (LastTold(s.rec) == PubConfirmed && s.rec.confirmedAt.None?
             <==> s.rec.status == PendingCompensationReversed && Confirmed !in s.history)
  {
    Reached(acts);
    ToldByInv(Exec(Start(), acts));
    DatesByInv(Exec(Start(), acts));
    AfterConfirmed(Exec(Start(), acts).history, Exec(Start(), acts).rec.status);
  }

  /** It happens: a payout that the provider has already reversed when it first answers. */
  lemma ToldConfirmedUndated(w: nat, p: Report)
    requires p.status == SaysReversed
    ensures var acts := [Claim(w), Debit(w, Applied), Cas(w, 0)] + [Claim(w), Create(w, ReversedThere, CreateAnswered(p)), Cas(w, 0)];
            Legal(Start(), acts) && Exec(Start(), acts).rec.status == PendingCompensationReversed && Exec(Start(), acts).rec.confirmedAt.None?
            && Exec(Start(), acts).rec.outbox != [] && LastTold(Exec(Start(), acts).rec) == PubConfirmed
  {
    var first, second := [Claim(w), Debit(w, Applied), Cas(w, 0)], [Claim(w), Create(w, ReversedThere, CreateAnswered(p)), Cas(w, 0)];
    DebitedUndated(w);
    AnswersReversed(Exec(Start(), first), w, p);
    RunOn(Start(), first, second);
    Reached(first + second);
    ToldByInv(Exec(Start(), first + second));
  }

  lemma DebitedUndated(w: nat)
    ensures var acts := [Claim(w), Debit(w, Applied), Cas(w, 0)];
            Legal(Start(), acts) &&
            var s := Exec(Start(), acts);
            s.rec.status == PendingProvider && s.ext.truth == Unheard && s.workers == map[] && s.rec.confirmedAt.None?
  {
    var acts := [Claim(w), Debit(w, Applied), Cas(w, 0)];
    DebitsAtOnce(Start(), w);
    Reached(acts);
    AfterConfirmed(Exec(Start(), acts).history, PendingProvider);
  }

  lemma AnswersReversed(s: Payout, w: nat, p: Report)
    requires s.rec.status == PendingProvider && s.ext.truth == Unheard && w !in s.workers && p.status == SaysReversed
    ensures var acts := [Claim(w), Create(w, ReversedThere, CreateAnswered(p)), Cas(w, 0)];
            Legal(s, acts) && Exec(s, acts).rec.status == PendingCompensationReversed && Exec(s, acts).rec.confirmedAt == s.rec.confirmedAt
  {
    var s1 := Next(s, Claim(w));
    var s2 := Next(s1, Create(w, ReversedThere, CreateAnswered(p)));
    LegalCons(s2, Cas(w, 0), []);
    LegalCons(s1, Create(w, ReversedThere, CreateAnswered(p)), [Cas(w, 0)]);
    LegalCons(s, Claim(w), [Create(w, ReversedThere, CreateAnswered(p)), Cas(w, 0)]);
    assert [Claim(w)] + [Create(w, ReversedThere, CreateAnswered(p)), Cas(w, 0)] == [Claim(w), Create(w, ReversedThere, CreateAnswered(p)), Cas(w, 0)];
  }

  /** What the merchant is told is true: of the provider, and of his money. */
  lemma ToldTruth(acts: seq<Action>)
    requires Legal(Start(), acts)
    ensures var s := Exec(Start(), acts);
            && s.rec.outbox != []
            && (LastTold(s.rec) == PubConfirmed ==> s.ext.debited && (s.ext.truth == Paid || s.ext.truth == ReversedThere))
            && (LastTold(s.rec) == PubCancelled ==> s.ext.released && s.ext.truth == CancelledThere)
            && (LastTold(s.rec) == PubReversed ==> s.ext.released && s.ext.truth == ReversedThere)
            && (LastTold(s.rec) == PubFailed ==> s.ext.released || PendingProvider !in s.history)
            && (LastTold(s.rec) == PubFailed && Truthful(acts) ==>
                  s.ext.truth == Unheard || s.ext.truth == Refused || s.ext.truth == FailedThere)
  {
    Reached(acts);
    MisledExactly(Start(), acts);
    var s := Exec(Start(), acts);
    ToldByInv(s);
    MirrorByInv(s);
    HeldByInv(s);
  }

  lemma HeldByInv(s: Payout)
    requires Inv(s)
    ensures s.rec.status == Confirmed || s.rec.status == PendingCompensationReversed ==>
              s.ext.debited && (s.ext.truth == Paid || s.ext.truth == ReversedThere)
    ensures s.rec.status == Cancelled || s.rec.status == Reversed ==> s.ext.released
    ensures s.rec.status == Failed ==> s.ext.released || PendingProvider !in s.history
  {
    assert s.rec.status in s.history && Fact(s.ext, s.history, s.rec.status);
    if s.rec.status == Failed { FailedPath(s.history); }
  }

  // ----- what an event brings about

  /** An event that the provider has announced, on a row that nobody moves meanwhile, moves it as EventMove says. */
  lemma EventMoves(s: Payout, w: nat, p: Report, now: int)
    requires w !in s.workers && Announced(s.ext.past, p.status) && EventMove(s.rec.status, p.status).Some?
    ensures Legal(s, [Event(w, p), Cas(w, now)])
    ensures var u := Exec(s, [Event(w, p), Cas(w, now)]);
            && u.rec.status == EventMove(s.rec.status, p.status).value && u.history == s.history + [u.rec.status]
            && u.ext == s.ext && u.workers == s.workers
  {
    EventMovesExactly(s.rec.status, p.status);
    var s1 := Next(s, Event(w, p));
    LegalCons(s1, Cas(w, now), []);
    LegalCons(s, Event(w, p), [Cas(w, now)]);
    assert [Event(w, p)] + [Cas(w, now)] == [Event(w, p), Cas(w, now)];
    assert s1.workers - {w} == s.workers;
  }

  /** A reversal that the provider announces for a confirmed payout gives the money back and ends it. */
  lemma ReversalIsCompensated(s: Payout, w: nat, p: Report)
    requires Inv(s) && w !in s.workers && s.rec.status == Confirmed && ReversedThere in s.ext.past && p.status == SaysReversed
    ensures var acts := [Event(w, p), Cas(w, 0)] + [Claim(w), Credit(w, Applied), Cas(w, 0)];
            Legal(s, acts) && Exec(s, acts).rec.status == Reversed && Exec(s, acts).ext.released
  {
    EventMoves(s, w, p, 0);
    Compensates(Exec(s, [Event(w, p), Cas(w, 0)]), w);
    RunOn(s, [Event(w, p), Cas(w, 0)], [Claim(w), Credit(w, Applied), Cas(w, 0)]);
  }

  /** A row that waits for compensation is given its money back and ended by one call. */
  lemma Compensates(s: Payout, w: nat)
    requires w !in s.workers && (s.rec.status == PendingCompensation || s.rec.status == PendingCompensationCancelled || s.rec.status == PendingCompensationReversed)
    ensures var acts := [Claim(w), Credit(w, Applied), Cas(w, 0)];
            && Legal(s, acts) && Exec(s, acts).ext.released
            && (s.rec.status == PendingCompensation ==> Exec(s, acts).rec.status == Failed)
            && (s.rec.status == PendingCompensationCancelled ==> Exec(s, acts).rec.status == Cancelled)
            && (s.rec.status == PendingCompensationReversed ==> Exec(s, acts).rec.status == Reversed)
  {
    var s1 := Next(s, Claim(w));
    var s2 := Next(s1, Credit(w, Applied));
    LegalCons(s2, Cas(w, 0), []);
    LegalCons(s1, Credit(w, Applied), [Cas(w, 0)]);
    LegalCons(s, Claim(w), [Credit(w, Applied), Cas(w, 0)]);
    assert [Claim(w)] + [Credit(w, Applied), Cas(w, 0)] == [Claim(w), Credit(w, Applied), Cas(w, 0)];
  }
}
