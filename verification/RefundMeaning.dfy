/** What stands in a refund row, told from what its workers were told, and what its status change means
    (internal/app/refunds.go, TransitionRefund in internal/adapters/postgres/refunds.go). */
module RefundMeaning {
  import opened Common
  import opened Parties
  import opened RefundSaga

  /** The last thing a worker was told. */
  datatype Word = Nothing | Short | Answer(report: Report)

  /** The columns that hold what was told. */
  datatype Columns = Columns(providerId: string, providerStatus: string, submitted: bool, short: bool, completedAt: Option<int>)

  datatype Journal = Journal(heard: map<nat, Word>, columns: Columns)

  const EMPTY := Journal(map[], Columns("", "", false, false, None))

  /** The error column is written by every commit; the texts of an answer go to the columns of their names, and an empty text
      leaves what is there. */
  function Written(c: Columns, word: Word): Columns {
    match word
    case Nothing => c.(short := false)
    case Short => c.(short := true)
    case Answer(p) =>
      c.(short := false, submitted := true,
         providerId := if p.providerId != "" then p.providerId else c.providerId,
         providerStatus := if p.raw != "" then p.raw else c.providerStatus)
  }

  function Dated(c: Columns, next: Status, now: int): Columns {
    if next == Succeeded || next == Failed then c.(completedAt := Some(now)) else c
  }

  function Noted(s: Refund, j: Journal, a: Action): Journal
    requires Enabled(s, a)
  {
    match a
    case Debit(w, out) => j.(heard := j.heard[w := if out.Insufficient? then Short else Nothing])
    case Create(w, _, reply) => j.(heard := j.heard[w := if reply.CreateAnswered? then Answer(reply.report) else Nothing])
    case Lookup(w, reply) => j.(heard := j.heard[w := if reply.LookupAnswered? then Answer(reply.report) else Nothing])
    case Credit(w, _) => j.(heard := j.heard[w := Nothing])
    case Cas(w, now) =>
      if s.rec.status == s.workers[w].expected && w in j.heard
      then j.(columns := Dated(Written(j.columns, j.heard[w]), s.workers[w].next, now))
      else j
    case _ => j
  }

  function Kept(s: Refund, j: Journal, acts: seq<Action>): Journal
    requires Legal(s, acts)
    decreases |acts|
  {
    if acts == [] then j else Kept(Next(s, acts[0]), Noted(s, j, acts[0]), acts[1..])
  }

  function Shown(r: Record): Columns {
    Columns(r.providerId, r.providerStatus, r.providerSubmitted, r.short, r.completedAt)
  }

  /** What a worker is about to write is what it was last told. */
  predicate SaysSo(f: Fields, word: Word) {
    match word
    case Answer(p) => f == Fields(p.providerId, p.raw, false, false, true)
    case Short => f == Fields("", "", true, false, false)
    case Nothing => f == Fields("", "", false, f.debited, false)
  }

  predicate HeardOk(workers: map<nat, Phase>, heard: map<nat, Word>) {
    forall w :: w in workers && workers[w].Ready? ==> w in heard && SaysSo(workers[w].f, heard[w])
  }

  lemma Hears(s: Refund, j: Journal, a: Action)
    requires Enabled(s, a) && !a.Cas? && HeardOk(s.workers, j.heard)
    ensures HeardOk(Next(s, a).workers, Noted(s, j, a).heard)
  {
  }

  lemma Commits(s: Refund, j: Journal, w: nat, now: int)
    requires w in s.workers && s.workers[w].Ready? && HeardOk(s.workers, j.heard) && Shown(s.rec) == j.columns
    ensures Shown(Next(s, Cas(w, now)).rec) == Noted(s, j, Cas(w, now)).columns
  {
  }

  lemma {:induction false} KeptIsShown(s: Refund, j: Journal, acts: seq<Action>)
    requires Legal(s, acts) && HeardOk(s.workers, j.heard) && Shown(s.rec) == j.columns
    ensures Shown(Exec(s, acts).rec) == Kept(s, j, acts).columns
    decreases |acts|
  {
    if acts != [] {
      var a := acts[0];
      if a.Cas? { Commits(s, j, a.w, a.now); } else { Hears(s, j, a); }
      KeptIsShown(Next(s, a), Noted(s, j, a), acts[1..]);
    }
  }

  /** In every run the row shows exactly what its committing workers were last told, each text in its own column, and when
      the refund ended. */
  lemma RowIsJournal(acts: seq<Action>)
    requires Legal(Start(), acts)
    ensures Shown(Exec(Start(), acts).rec) == Kept(Start(), EMPTY, acts).columns
  {
    KeptIsShown(Start(), EMPTY, acts);
  }

  // ----- what the merchant is told

  /** The merchant was told of an end. */
  predicate Told(r: Record, p: Public) {
    exists i :: 0 <= i < |r.outbox| && r.outbox[i].StatusChanged? && r.outbox[i].status == p
  }

  /** He is told "succeeded" exactly for a refund that was paid out and is held, "failed" exactly for one that was given back
      or failed before it was sent, and never "pending". */
  lemma ToldTruth(acts: seq<Action>)
    requires Legal(Start(), acts)
    ensures var s := Exec(Start(), acts);
            && (Told(s.rec, PubSucceeded) <==> s.rec.status == Succeeded)
            && (Told(s.rec, PubFailed) <==> s.rec.status == Failed)
            && !Told(s.rec, PubPending)
            && (Told(s.rec, PubSucceeded) ==>
                  s.ext.debited && !s.ext.released && (s.ext.truth == Paid || s.ext.truth == ReversedThere))
            && (Told(s.rec, PubFailed) ==>
                  if s.rec.short then PendingProvider !in s.history && !s.ext.released
                  else s.ext.debited && s.ext.released && (s.ext.truth == Refused || s.ext.truth == FailedThere))
  {
    RunInv(Start(), acts);
    var s := Exec(Start(), acts);
    var o := s.rec.outbox;
    assert Ends(s.rec.status) ==> |o| == 2 && o[1].StatusChanged?;
    SafeByInv(s);
    EndsByInv(s);
  }

  lemma EndsByInv(s: Refund)
    requires Inv(s)
    ensures s.rec.status == Failed ==>
              if s.rec.short then PendingProvider !in s.history && !s.ext.released
              else s.ext.debited && s.ext.released && (s.ext.truth == Refused || s.ext.truth == FailedThere)
  {
    if s.rec.status == Failed {
      assert Failed in s.history && Fact(s.ext, s.history, Failed);
      if PendingCompensation in s.history {
        assert Fact(s.ext, s.history, PendingCompensation);
      } else {
        FailedAtOnce(s.history);
      }
    }
  }

  lemma FailedAtOnce(h: seq<Status>)
    requires HistoryOk(h, Failed) && PendingCompensation !in h
    ensures h == [PendingDebit, Failed]
  {
    var n := |h|;
    assert Edge(h[n - 2], h[n - 1]) && h[n - 2] in h;
    assert h[n - 2] == PendingDebit;
    assert n > 2 ==> Edge(h[n - 3], h[n - 2]);
  }
}
