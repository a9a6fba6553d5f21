/** The payout saga as a concurrent protocol (internal/app/payouts.go and
    internal/adapters/postgres/payouts.go): one payout row, the ledger's record of it, the provider's
    truth about it, and any number of workers and event handlers that hold snapshots of the row.

    A worker runs process() one external effect at a time, may be stale from the start, and may
    vanish at any point; the only way to change the row is the compare-and-set of Transition. */
module PayoutSaga {
  import opened Common
  import opened Parties
  import opened PayoutLifecycle

  /** Where one call of process() stands. */
  datatype Phase =
    | Snap(status: Status)                              // holds a snapshot, nothing called yet
    | Asking                                            // CreatePayout was ambiguous, GetPayout is next
    | Ready(expected: Status, next: Status, f: Fields)  // about to compare and set

  datatype Payout = Payout(
    rec: Record,
    history: seq<Status>,            // the statuses committed so far, the first and the current included
    ext: External,
    workers: map<nat, Phase>)

  datatype Action =
    | Claim(w: nat)
    | Debit(w: nat, out: LedgerOutcome)
    | Create(w: nat, truth: Truth, create: CreateReply)
    | Lookup(w: nat, lookup: LookupReply)
    | Credit(w: nat, out: LedgerOutcome)
    | Cas(w: nat, now: int)
    | Crash(w: nat)
    | Event(w: nat, report: Report)
    | Advance(truth: Truth)
    | DebitArrives                  // a ledger call that a worker gave up on gets there after all
    | CreditArrives

  function Start(): Payout {
    Payout(NewRecord(), [PendingDebit], UNTOUCHED, map[])
  }

  predicate Compensating(s: Status) {
    s.PendingCompensation? || s.PendingCompensationCancelled? || s.PendingCompensationReversed?
  }

  /** The status a compensation worker asks for. */
  function Settled(s: Status): Status {
    if s == PendingCompensationCancelled then Cancelled
    else if s == PendingCompensationReversed then Reversed
    else Failed
  }

  predicate Enabled(s: Payout, a: Action) {
    match a
    case Claim(w) => w !in s.workers
    case Debit(w, out) =>
      // a reference that was already applied replays as success without looking at the balance
      w in s.workers && s.workers[w] == Snap(PendingDebit) && (out.Insufficient? ==> !s.ext.debited)
    case Create(w, t, reply) =>
      && w in s.workers && s.workers[w] == Snap(PendingProvider)
      && (t == s.ext.truth || Advances(s.ext.truth, t))
      && (reply.CreateAnswered? ==> Says(t, reply.report.status))
    case Lookup(w, reply) =>
      && w in s.workers
      && (s.workers[w] == Asking || s.workers[w] == Snap(ProviderUnknown) || s.workers[w] == Snap(Processing))
      && (reply.LookupAnswered? ==> Says(s.ext.truth, reply.report.status))
    case Credit(w, out) =>
      w in s.workers && s.workers[w].Snap? && Compensating(s.workers[w].status) && !out.Insufficient?
    case Cas(w, _) => w in s.workers && s.workers[w].Ready?
    case Crash(w) => w in s.workers
    case Advance(t) =>
      // a create call that was given up on may still arrive later
      Advances(s.ext.truth, t) && s.ext.creates > 0
    case Event(w, r) => w !in s.workers && Announced(s.ext.past, r.status)
    case DebitArrives => s.ext.debitOut
    case CreditArrives => s.ext.releaseOut
  }

  /** Steps of ledger and provider that no worker takes. */
  predicate Outside(a: Action) {
    a.Advance? || a.DebitArrives? || a.CreditArrives?
  }

  /** What an action does outside the database. */
  function ExtAfter(e: External, a: Action): External {
    match a
    case Debit(_, out) => AfterDebit(e, out)
    case Create(_, t, reply) => AfterCreate(e, t, reply)
    case Credit(_, out) => AfterRelease(e, out)
    case Advance(t) => Learn(e, t)
    case DebitArrives => e.(debited := true)
    case CreditArrives => e.(released := true)
    case _ => e
  }

  /** Where the acting worker stands afterwards; None when its call of process() is over. */
  function PhaseAfter(s: Payout, a: Action): Option<Phase>
    requires Enabled(s, a)
  {
    match a
    case Claim(_) => Some(Snap(s.rec.status))
    case Debit(_, out) =>
      (match out
       case Applied => Some(Ready(PendingDebit, PendingProvider, NO_FIELDS.(debited := true)))
       case Insufficient => Some(Ready(PendingDebit, Failed, NO_FIELDS.(lastError := InsufficientBalance)))
       case _ => None)
    case Create(_, _, reply) =>
      (match reply
       case CreateAnswered(r) => Some(Ready(PendingProvider, Target(r.status), WorkerFields(r)))
       case CreateRejected => Some(Ready(PendingProvider, PendingCompensation, NO_FIELDS.(lastError := ProviderRejected)))
       case CreateNoAnswer => Some(Asking))
    case Lookup(w, reply) =>
      (match reply
       case LookupAnswered(r) =>
         var expected := if s.workers[w].Asking? then PendingProvider else s.workers[w].status;
         Some(Ready(expected, Target(r.status), WorkerFields(r)))
       case LookupNoAnswer =>
         if s.workers[w].Asking?
         then Some(Ready(PendingProvider, ProviderUnknown, NO_FIELDS.(lastError := CreateAmbiguous)))
         else None)
    case Credit(w, out) =>
      if out.Applied? then Some(Ready(s.workers[w].status, Settled(s.workers[w].status), NO_FIELDS)) else None
    case Event(_, r) =>
      if EventAllowed(s.rec.status, Target(r.status))
      then Some(Ready(s.rec.status, Target(r.status), EventFields(r)))
      else None
    case _ => None
  }

  function Place(workers: map<nat, Phase>, w: nat, ph: Option<Phase>): map<nat, Phase> {
    if ph.Some? then workers[w := ph.value] else workers - {w}
  }

  function Next(s: Payout, a: Action): Payout
    requires Enabled(s, a)
  {
    match a
    case Advance(_) => s.(ext := ExtAfter(s.ext, a))
    case DebitArrives => s.(ext := ExtAfter(s.ext, a))
    case CreditArrives => s.(ext := ExtAfter(s.ext, a))
    case Cas(w, now) =>
      var ph := s.workers[w];
      (match Transition(s.rec, ph.expected, ph.next, ph.f, now)
       case Ok(rec) => Payout(rec, s.history + [ph.next], s.ext, s.workers - {w})
       case Err(_) => s.(workers := s.workers - {w}))
    case _ => s.(ext := ExtAfter(s.ext, a), workers := Place(s.workers, a.w, PhaseAfter(s, a)))
  }

  // ----- runs

  /** A schedule: every action is enabled when its turn comes. */
  predicate Legal(s: Payout, acts: seq<Action>)
    decreases |acts|
  {
    acts == [] || (Enabled(s, acts[0]) && Legal(Next(s, acts[0]), acts[1..]))
  }

  function Exec(s: Payout, acts: seq<Action>): Payout
    requires Legal(s, acts)
    decreases |acts|
  {
    if acts == [] then s else Exec(Next(s, acts[0]), acts[1..])
  }

  /** One schedule after another. */
  lemma {:induction false} RunOn(s: Payout, a: seq<Action>, b: seq<Action>)
    requires Legal(s, a) && Legal(Exec(s, a), b)
    ensures Legal(s, a + b) && Exec(s, a + b) == Exec(Exec(s, a), b)
    decreases |a|
  {
    if a == [] {
      assert a + b == b;
    } else {
      assert (a + b)[0] == a[0] && (a + b)[1..] == a[1..] + b;
      RunOn(Next(s, a[0]), a[1..], b);
    }
  }

  /** A schedule cut in two. */
  lemma {:induction false} RunApart(s: Payout, a: seq<Action>, b: seq<Action>)
    requires Legal(s, a + b)
    ensures Legal(s, a) && Legal(Exec(s, a), b) && Exec(s, a + b) == Exec(Exec(s, a), b)
    decreases |a|
  {
    if a == [] {
      assert a + b == b;
    } else {
      assert (a + b)[0] == a[0] && (a + b)[1..] == a[1..] + b;
      RunApart(Next(s, a[0]), a[1..], b);
    }
  }

  lemma One(s: Payout, a: Action)
    ensures Legal(s, [a]) <==> Enabled(s, a)
    ensures Enabled(s, a) ==> Exec(s, [a]) == Next(s, a)
  {
    assert [a][1..] == [];
    if Enabled(s, a) { assert Legal(Next(s, a), []) && Exec(Next(s, a), []) == Next(s, a); }
  }

  // ----- the invariant that holds for any number of workers

  /** The provider ended without paying, or a rejection that was not true says so. */
  predicate Rejected(e: External) {
    e.truth.Refused? || e.truth.FailedThere? || e.misled
  }

  /** What a status implies about ledger and provider once it has ever been committed. */
  predicate Fact(e: External, history: seq<Status>, st: Status) {
    match st
    case PendingDebit => true
    case PendingProvider => e.debited
    case Confirmed => e.debited && (e.truth.Paid? || e.truth.ReversedThere?)
    case PendingCompensation => e.debited && Rejected(e)
    case PendingCompensationCancelled => e.debited && e.truth.CancelledThere?
    case PendingCompensationReversed => e.debited && e.truth.ReversedThere?
    case Failed => PendingCompensation in history ==> e.released
    case Cancelled => e.released
    case Reversed => e.released
    case _ => e.debited && e.creates > 0
  }

  predicate PhaseOk(e: External, history: seq<Status>, ph: Phase) {
    match ph
    case Snap(st) => st in history
    case Asking => PendingProvider in history && e.creates > 0
    case Ready(expected, next, f) =>
      && expected in history
      && Edge(expected, next)
      && (if next == Failed then expected == PendingCompensation ==> e.released else Fact(e, history, next))
      && (next == Failed ==> (f.lastError != NoError <==> expected == PendingDebit))
      && (next == PendingCompensation && f.lastError == ProviderRejected ==> expected == PendingProvider)
      && (next == PendingCompensation && f.lastError != ProviderRejected ==> e.truth.Refused? || e.truth.FailedThere?)
      && (f.debited <==> next == PendingProvider)
      && (f.submitted ==> !e.truth.Unheard?)
  }

  predicate Compensated(history: seq<Status>) {
    PendingCompensation in history || PendingCompensationCancelled in history || PendingCompensationReversed in history
  }

  predicate MoneyOk(e: External, history: seq<Status>) {
    && (forall st :: st in history ==> Fact(e, history, st))
    && (e.released || e.releaseOut ==> Compensated(history))
    && (e.creates > 0 ==> PendingProvider in history)
  }

  predicate HistoryOk(history: seq<Status>, status: Status) {
    && |history| > 0 && history[0] == PendingDebit && history[|history| - 1] == status
    && (forall i :: 0 < i < |history| ==> Edge(history[i - 1], history[i]))
    && (forall st :: st in history ==> Rank(st) > Rank(status) || st == status)
  }

  predicate WorkersOk(e: External, history: seq<Status>, workers: map<nat, Phase>) {
    forall w :: w in workers ==> PhaseOk(e, history, workers[w])
  }

  /** The public statuses a history shows, repetitions dropped. */
  function PublicPath(history: seq<Status>): seq<Public>
    decreases |history|
  {
    if |history| == 0 then []
    else
      var p := PublicStatus(history[|history| - 1]);
      var before := PublicPath(history[..|history| - 1]);
      if before != [] && before[|before| - 1] == p then before else before + [p]
  }

  function Statuses(outbox: seq<Webhook>): seq<Public> {
    seq(|outbox|, i requires 0 <= i < |outbox| => outbox[i].status)
  }

  /** The only public lives a payout can have. */
  function PathTo(p: Public): seq<Public> {
    match p
    case PubProcessing => [PubProcessing]
    case PubConfirmed => [PubProcessing, PubConfirmed]
    case PubFailed => [PubProcessing, PubFailed]
    case PubCancelled => [PubProcessing, PubCancelled]
    case PubReversed => [PubProcessing, PubConfirmed, PubReversed]
  }

  /** A webhook log is a chain: created first, then each previousStatus is the status before it,
      and resource versions grow. */
  predicate Chained(outbox: seq<Webhook>) {
    && |outbox| > 0 && outbox[0].id == CreatedId && outbox[0].previous == None
    && (forall i :: 0 < i < |outbox| ==>
          && outbox[i].id.ChangedId?
          && outbox[i].previous == Some(outbox[i - 1].status)
          && outbox[i - 1].version < outbox[i].version)
  }

  predicate RecordOk(r: Record, history: seq<Status>, truth: Truth) {
    && r.version == |history|
    && (r.balanceDebited <==> PendingProvider in history)
    && (r.providerSubmitted ==> !truth.Unheard?)
    && (r.confirmedAt.Some? <==> Confirmed in history)
    && (r.failedAt.Some? <==> Failed in history)
    && (r.cancelledAt.Some? <==> Cancelled in history)
    && (r.reversedAt.Some? <==> Reversed in history)
    && (r.status == Failed ==> (r.lastError != NoError <==> PendingCompensation !in history))
  }

  /** The webhook log says what the history shows. */
  predicate LogOk(outbox: seq<Webhook>, version: nat, status: Status, history: seq<Status>) {
    && PublicPath(history) == PathTo(PublicStatus(status))
    && Statuses(outbox) == PublicPath(history)
    && Chained(outbox)
    && (forall i :: 0 < i < |outbox| ==> outbox[i].id.next in history && PublicStatus(outbox[i].id.next) == outbox[i].status)
    && outbox[|outbox| - 1].version <= version
  }

  predicate Inv(s: Payout) {
    && PastOk(s.ext)
    && HistoryOk(s.history, s.rec.status)
    && MoneyOk(s.ext, s.history)
    && WorkersOk(s.ext, s.history, s.workers)
    && RecordOk(s.rec, s.history, s.ext.truth)
    && LogOk(s.rec.outbox, s.rec.version, s.rec.status, s.history)
  }

  lemma StartInv()
    ensures Inv(Start())
  {
    var h := [PendingDebit];
    assert h[..0] == [];
    assert PublicPath(h) == [PubProcessing];
    assert Statuses(NewRecord().outbox) == [PubProcessing];
  }

  lemma PhaseGrows(e: External, d: External, history: seq<Status>, ph: Phase)
    requires Grows(e, d) && PhaseOk(e, history, ph)
    ensures PhaseOk(d, history, ph)
  {
  }

  lemma ExtStep(s: Payout, a: Action)
    requires PastOk(s.ext) && WorkersOk(s.ext, s.history, s.workers) && MoneyOk(s.ext, s.history)
    requires Enabled(s, a)
    ensures Grows(s.ext, ExtAfter(s.ext, a)) && PastOk(ExtAfter(s.ext, a)) && MoneyOk(ExtAfter(s.ext, a), s.history)
  {
    var d := ExtAfter(s.ext, a);
    forall st | st in s.history ensures Fact(d, s.history, st) {
      assert Fact(s.ext, s.history, st);
    }
    if a.Create? || a.Credit? {
      assert PhaseOk(s.ext, s.history, s.workers[a.w]);
    }
  }

  lemma EventPhase(s: Payout, a: Action)
    requires PastOk(s.ext) && MoneyOk(s.ext, s.history) && s.rec.status in s.history
    requires a.Event? && Enabled(s, a) && PhaseAfter(s, a).Some?
    ensures PhaseOk(ExtAfter(s.ext, a), s.history, PhaseAfter(s, a).value)
  {
    assert Fact(s.ext, s.history, s.rec.status);
  }

  /** The phase an action leaves its own worker in is sound. */
  lemma PhaseStep(s: Payout, a: Action)
    requires PastOk(s.ext) && WorkersOk(s.ext, s.history, s.workers) && MoneyOk(s.ext, s.history)
    requires s.rec.status in s.history
    requires Enabled(s, a) && !Outside(a) && PhaseAfter(s, a).Some?
    ensures PhaseOk(ExtAfter(s.ext, a), s.history, PhaseAfter(s, a).value)
  {
    if a.Event? {
      EventPhase(s, a);
    } else if a.w in s.workers {
      assert PhaseOk(s.ext, s.history, s.workers[a.w]);
      if s.workers[a.w].Snap? {
        assert Fact(s.ext, s.history, s.workers[a.w].status);
      } else {
        assert Fact(s.ext, s.history, PendingProvider);
      }
    }
  }

  /** Everything but the compare-and-set only adds knowledge. */
  lemma QuietWorkers(s: Payout, a: Action)
    requires PastOk(s.ext) && WorkersOk(s.ext, s.history, s.workers) && MoneyOk(s.ext, s.history)
    requires s.rec.status in s.history && Enabled(s, a) && !a.Cas?
    ensures var u := Next(s, a);
            WorkersOk(u.ext, s.history, u.workers) && PastOk(u.ext) && MoneyOk(u.ext, s.history)
            && u.rec == s.rec && u.history == s.history && Grows(s.ext, u.ext)
  {
    var u := Next(s, a);
    ExtStep(s, a);
    forall w | w in u.workers ensures PhaseOk(u.ext, s.history, u.workers[w]) {
      if Outside(a) || w != a.w {
        PhaseGrows(s.ext, u.ext, s.history, s.workers[w]);
      } else {
        PhaseStep(s, a);
      }
    }
  }

  /** Knowing more about the provider leaves the row as sound as it was. */
  lemma RecordGrows(r: Record, history: seq<Status>, e: External, d: External)
    requires RecordOk(r, history, e.truth) && Grows(e, d)
    ensures RecordOk(r, history, d.truth)
  {
  }

  lemma QuietStep(s: Payout, a: Action)
    requires Inv(s) && Enabled(s, a) && !a.Cas?
    ensures Inv(Next(s, a))
  {
    QuietWorkers(s, a);
    RecordGrows(s.rec, s.history, s.ext, Next(s, a).ext);
  }

  /** A committed move lowers the rank, except when processing is rewritten with processing. */
  lemma EdgeRank(from: Status, to: Status)
    requires Edge(from, to)
    ensures Rank(to) < Rank(from) || (from == to == Processing)
    ensures PublicStatus(from) == PublicStatus(to) || PathTo(PublicStatus(to)) == PathTo(PublicStatus(from)) + [PublicStatus(to)]
  {
  }

  lemma LogQuiet(outbox: seq<Webhook>, version: nat, status: Status, history: seq<Status>, next: Status)
    requires HistoryOk(history, status) && LogOk(outbox, version, status, history) && Edge(status, next)
    requires PublicStatus(status) == PublicStatus(next)
    ensures LogOk(outbox, version + 1, next, history + [next])
  {
    var h := history + [next];
    assert h[..|h| - 1] == history;
  }

  lemma LogGrows(outbox: seq<Webhook>, version: nat, status: Status, history: seq<Status>, next: Status)
    requires HistoryOk(history, status) && LogOk(outbox, version, status, history) && Edge(status, next)
    requires PublicStatus(status) != PublicStatus(next)
    ensures var hook := Webhook(ChangedId(next), Some(PublicStatus(status)), PublicStatus(next), version + 1);
            LogOk(outbox + [hook], version + 1, next, history + [next]) && InsertWebhook(outbox, hook) == outbox + [hook]
  {
    var h := history + [next];
    var hook := Webhook(ChangedId(next), Some(PublicStatus(status)), PublicStatus(next), version + 1);
    EdgeRank(status, next);
    assert h[..|h| - 1] == history && next !in history;
    assert Statuses(outbox + [hook]) == Statuses(outbox) + [PublicStatus(next)];
    assert outbox[|outbox| - 1].status == Statuses(outbox)[|outbox| - 1] == PublicStatus(status);
  }

  /** The transaction keeps the outbox in step with the history; its event id is always new. */
  lemma CommitLog(outbox: seq<Webhook>, version: nat, status: Status, history: seq<Status>, next: Status)
    requires HistoryOk(history, status) && LogOk(outbox, version, status, history) && Edge(status, next)
    ensures LogOk(LogAfter(outbox, status, next, version + 1), version + 1, next, history + [next])
  {
    if PublicStatus(status) == PublicStatus(next) {
      LogQuiet(outbox, version, status, history, next);
    } else {
      LogGrows(outbox, version, status, history, next);
    }
  }

  lemma CommitHistory(history: seq<Status>, expected: Status, next: Status)
    requires HistoryOk(history, expected) && Edge(expected, next)
    ensures HistoryOk(history + [next], next)
  {
    var h := history + [next];
    EdgeRank(expected, next);
    assert forall st :: st in h <==> st in history || st == next;
  }

  lemma CommitRecord(r: Record, history: seq<Status>, truth: Truth, next: Status, f: Fields, now: int)
    requires HistoryOk(history, r.status) && RecordOk(r, history, truth) && Edge(r.status, next)
    requires (f.debited <==> next == PendingProvider) && (f.submitted ==> !truth.Unheard?)
    requires next == Failed ==> (f.lastError != NoError <==> r.status == PendingDebit)
    ensures RecordOk(Transition(r, r.status, next, f, now).value, history + [next], truth)
  {
    if next == Failed { FailsFrom(history, r.status, next); }
    UpdatedOk(r, history, truth, next, f, now);
    RecordIgnoresLog(Updated(r, next, f, now), history + [next], truth, Transition(r, r.status, next, f, now).value.outbox);
  }

  lemma FailsFrom(history: seq<Status>, status: Status, next: Status)
    requires HistoryOk(history, status) && Edge(status, next) && next == Failed
    ensures status == PendingDebit <==> PendingCompensation !in history
  {
    if status == PendingDebit { assert Rank(PendingCompensation) < Rank(status); }
  }

  lemma RecordIgnoresLog(r: Record, history: seq<Status>, truth: Truth, outbox: seq<Webhook>)
    requires RecordOk(r, history, truth)
    ensures RecordOk(r.(outbox := outbox), history, truth)
  {
  }

  lemma UpdatedOk(r: Record, history: seq<Status>, truth: Truth, next: Status, f: Fields, now: int)
    requires RecordOk(r, history, truth)
    requires (f.debited <==> next == PendingProvider) && (f.submitted ==> !truth.Unheard?)
    requires next == Failed ==> (f.lastError != NoError <==> PendingCompensation !in history)
    ensures RecordOk(Updated(r, next, f, now), history + [next], truth)
  {
    var h := history + [next];
    assert forall st :: st in h <==> st in history || st == next;
  }

  lemma CommitMoney(e: External, history: seq<Status>, expected: Status, next: Status, f: Fields)
    requires HistoryOk(history, expected) && MoneyOk(e, history) && PhaseOk(e, history, Ready(expected, next, f))
    ensures MoneyOk(e, history + [next])
  {
    var h := history + [next];
    EdgeRank(expected, next);
    assert forall st :: st in h <==> st in history || st == next;
    forall st | st in h ensures Fact(e, h, st) {
      if st in history { assert Fact(e, history, st); }
    }
  }

  lemma WorkersLater(e: External, history: seq<Status>, workers: map<nat, Phase>, next: Status, w: nat)
    requires WorkersOk(e, history, workers)
    ensures WorkersOk(e, history + [next], workers - {w})
  {
    assert forall st :: st in history ==> st in history + [next];
    forall v | v in workers - {w} ensures PhaseOk(e, history + [next], workers[v]) {
      assert PhaseOk(e, history, workers[v]);
    }
  }

  lemma CasRow(r: Record, history: seq<Status>, e: External, ph: Phase, now: int)
    requires HistoryOk(history, r.status) && RecordOk(r, history, e.truth) && LogOk(r.outbox, r.version, r.status, history)
    requires ph.Ready? && PhaseOk(e, history, ph) && r.status == ph.expected
    ensures var u := Transition(r, ph.expected, ph.next, ph.f, now).value;
            HistoryOk(history + [ph.next], u.status) && RecordOk(u, history + [ph.next], e.truth)
            && LogOk(u.outbox, u.version, u.status, history + [ph.next])
  {
    CommitLog(r.outbox, r.version, r.status, history, ph.next);
    CommitHistory(history, ph.expected, ph.next);
    CommitRecord(r, history, e.truth, ph.next, ph.f, now);
  }

  lemma CasHit(s: Payout, w: nat, now: int)
    requires Inv(s) && w in s.workers && s.workers[w].Ready? && s.rec.status == s.workers[w].expected
    ensures var ph := s.workers[w];
            Inv(Payout(Transition(s.rec, ph.expected, ph.next, ph.f, now).value, s.history + [ph.next], s.ext, s.workers - {w}))
  {
    var ph := s.workers[w];
    assert PhaseOk(s.ext, s.history, ph);
    CasRow(s.rec, s.history, s.ext, ph, now);
    CommitMoney(s.ext, s.history, ph.expected, ph.next, ph.f);
    WorkersLater(s.ext, s.history, s.workers, ph.next, w);
  }

  lemma CasStep(s: Payout, a: Action)
    requires Inv(s) && Enabled(s, a) && a.Cas?
    ensures Inv(Next(s, a))
  {
    if s.rec.status == s.workers[a.w].expected { CasHit(s, a.w, a.now); }
  }

  /** The invariant survives every step of every worker, crash, lost reply and provider move. */
  lemma StepInv(s: Payout, a: Action)
    requires Inv(s) && Enabled(s, a)
    ensures Inv(Next(s, a))
  {
    if a.Cas? { CasStep(s, a); } else { QuietStep(s, a); }
  }

  lemma {:induction false} RunInv(s: Payout, acts: seq<Action>)
    requires Inv(s) && Legal(s, acts)
    ensures Inv(Exec(s, acts))
    decreases |acts|
  {
    if acts != [] {
      StepInv(s, acts[0]);
      RunInv(Next(s, acts[0]), acts[1..]);
    }
  }
}
