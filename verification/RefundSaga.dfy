/** The refund saga (internal/app/refunds.go, TransitionRefund in internal/adapters/postgres/refunds.go):
    the same shape as the payout saga, with no provider events, no final rejection of a create call,
    and a create call that is simply repeated while its outcome is unknown. */
module RefundSaga {
  import opened Common
  import opened Parties

  datatype Status = PendingDebit | PendingProvider | Pending | PendingCompensation | Succeeded | Failed

  datatype Public = PubPending | PubSucceeded | PubFailed

  function PublicStatus(s: Status): Public {
    match s
    case Succeeded => PubSucceeded
    case Failed => PubFailed
    case _ => PubPending
  }

  /** applyProvider: a cancelled or reversed refund is still asked about. */
  function Target(s: ProviderStatus): Status {
    match s
    case SaysConfirmed => Succeeded
    case SaysFailed => PendingCompensation
    case SaysRejected => PendingCompensation
    case _ => Pending
  }

  predicate Edge(from: Status, to: Status) {
    match from
    case PendingDebit => to == PendingProvider || to == Failed
    case PendingProvider => to == Pending || to == Succeeded || to == PendingCompensation
    case Pending => to == Pending || to == Succeeded || to == PendingCompensation
    case PendingCompensation => to == Failed
    case _ => false
  }

  function Rank(s: Status): nat {
    match s
    case PendingDebit => 4
    case PendingProvider => 3
    case Pending => 2
    case PendingCompensation => 1
    case _ => 0
  }

  datatype Webhook = Created | StatusChanged(next: Status, previous: Public, status: Public, version: nat)

  datatype Fields = Fields(providerId: string, providerStatus: string, short: bool, debited: bool, submitted: bool)

  const NO_FIELDS := Fields("", "", false, false, false)

  function WorkerFields(r: Report): Fields {
    NO_FIELDS.(submitted := true, providerId := r.providerId, providerStatus := r.raw)
  }

  /** The refund row with the webhook rows written about it; `short` stands for the only last_error
      text the saga writes, "insufficient balance". */
  datatype Record = Record(
    status: Status, version: nat, balanceDebited: bool, providerSubmitted: bool,
    providerId: string, providerStatus: string, short: bool, completedAt: Option<int>, outbox: seq<Webhook>)

  function NewRecord(): Record {
    Record(PendingDebit, 1, false, false, "", "", false, None, [Created])
  }

  predicate Ends(s: Status) {
    s == Succeeded || s == Failed
  }

  predicate Written(outbox: seq<Webhook>, next: Status) {
    exists i :: 0 <= i < |outbox| && outbox[i].StatusChanged? && outbox[i].next == next
  }

  /** TransitionRefund on the refund row: compare-and-set; an end is dated and announced, always with
      "pending" as the previous status, unless an event with that id is already in the outbox. */
  function Transition(r: Record, expected: Status, next: Status, f: Fields, now: int): Result<Record> {
    if r.status != expected then Err(Conflict)
    else
      var u := r.(status := next,
                  version := r.version + 1,
                  providerId := Coalesce(f.providerId, r.providerId),
                  providerStatus := Coalesce(f.providerStatus, r.providerStatus),
                  short := f.short,
                  balanceDebited := r.balanceDebited || f.debited,
                  providerSubmitted := r.providerSubmitted || f.submitted,
                  completedAt := if Ends(next) then Some(now) else r.completedAt);
      if Ends(next) && !Written(r.outbox, next)
      then Ok(u.(outbox := r.outbox + [StatusChanged(next, PubPending, PublicStatus(next), u.version)]))
      else Ok(u)
  }

  datatype Phase = Snap(status: Status) | Asking | Ready(expected: Status, next: Status, f: Fields)

  datatype Refund = Refund(rec: Record, history: seq<Status>, ext: External, workers: map<nat, Phase>)

  datatype Action =
    | Claim(w: nat)
    | Debit(w: nat, out: LedgerOutcome)
    | Create(w: nat, truth: Truth, create: CreateReply)
    | Lookup(w: nat, lookup: LookupReply)
    | Credit(w: nat, out: LedgerOutcome)
    | Cas(w: nat, now: int)
    | Crash(w: nat)
    | Advance(truth: Truth)
    | DebitArrives                  // a ledger call that a worker gave up on gets there after all
    | CreditArrives

  function Start(): Refund {
    Refund(NewRecord(), [PendingDebit], UNTOUCHED, map[])
  }

  predicate Enabled(s: Refund, a: Action) {
    match a
    case Claim(w) => w !in s.workers
    case Debit(w, out) =>
      w in s.workers && s.workers[w] == Snap(PendingDebit) && (out.Insufficient? ==> !s.ext.debited)
    case Create(w, t, reply) =>
      && w in s.workers && s.workers[w] == Snap(PendingProvider)
      && (t == s.ext.truth || Advances(s.ext.truth, t))
      && (reply.CreateAnswered? ==> Says(t, reply.report.status))
    case Lookup(w, reply) =>
      && w in s.workers && (s.workers[w] == Asking || s.workers[w] == Snap(Pending))
      && (reply.LookupAnswered? ==> Says(s.ext.truth, reply.report.status))
    case Credit(w, out) =>
      w in s.workers && s.workers[w] == Snap(PendingCompensation) && !out.Insufficient?
    case Cas(w, _) => w in s.workers && s.workers[w].Ready?
    case Crash(w) => w in s.workers
    case Advance(t) => Advances(s.ext.truth, t) && s.ext.creates > 0
    case DebitArrives => s.ext.debitOut
    case CreditArrives => s.ext.releaseOut
  }

  /** Steps of ledger and provider that no worker takes. */
  predicate Outside(a: Action) {
    a.Advance? || a.DebitArrives? || a.CreditArrives?
  }

  function ExtAfter(e: External, a: Action): External {
    match a
    case Debit(_, out) => AfterDebit(e, out)
    case Create(_, t, reply) => AfterCreate(e, t, reply)
    case Credit(_, out) => AfterRelease(e, out)
    case Advance(t) => Learn(e, t)
    case DebitArrives => e.(debited := true)
    case CreditArrives => e.(released := true)
    case _ => e
  }

  function PhaseAfter(s: Refund, a: Action): Option<Phase>
    requires Enabled(s, a)
  {
    match a
    case Claim(_) => Some(Snap(s.rec.status))
    case Debit(_, out) =>
      (match out
       case Applied => Some(Ready(PendingDebit, PendingProvider, NO_FIELDS.(debited := true)))
       case Insufficient => Some(Ready(PendingDebit, Failed, NO_FIELDS.(short := true)))
       case _ => None)
    case Create(_, _, reply) =>
      // any error of the create call, a rejection included, is followed by a lookup
      (match reply
       case CreateAnswered(r) => Some(Ready(PendingProvider, Target(r.status), WorkerFields(r)))
       case _ => Some(Asking))
    case Lookup(w, reply) =>
      (match reply
       case LookupAnswered(r) =>
         Some(Ready(if s.workers[w].Asking? then PendingProvider else Pending, Target(r.status), WorkerFields(r)))
       case LookupNoAnswer => None)
    case Credit(_, out) => if out.Applied? then Some(Ready(PendingCompensation, Failed, NO_FIELDS)) else None
    case _ => None
  }

  function Next(s: Refund, a: Action): Refund
    requires Enabled(s, a)
  {
    match a
    case Advance(_) => s.(ext := ExtAfter(s.ext, a))
    case DebitArrives => s.(ext := ExtAfter(s.ext, a))
    case CreditArrives => s.(ext := ExtAfter(s.ext, a))
    case Cas(w, now) =>
      var ph := s.workers[w];
      (match Transition(s.rec, ph.expected, ph.next, ph.f, now)
       case Ok(rec) => Refund(rec, s.history + [ph.next], s.ext, s.workers - {w})
       case Err(_) => s.(workers := s.workers - {w}))
    case _ =>
      var ph := PhaseAfter(s, a);
      s.(ext := ExtAfter(s.ext, a), workers := if ph.Some? then s.workers[a.w := ph.value] else s.workers - {a.w})
  }

  /** A schedule: every action is enabled when its turn comes. */
  predicate Legal(s: Refund, acts: seq<Action>)
    decreases |acts|
  {
    acts == [] || (Enabled(s, acts[0]) && Legal(Next(s, acts[0]), acts[1..]))
  }

  function Exec(s: Refund, acts: seq<Action>): Refund
    requires Legal(s, acts)
    decreases |acts|
  {
    if acts == [] then s else Exec(Next(s, acts[0]), acts[1..])
  }

  /** One schedule after another. */
  lemma {:induction false} RunOn(s: Refund, a: seq<Action>, b: seq<Action>)
    requires Legal(s, a) && Legal(Exec(s, a), b)
    ensures Legal(s, a + b) && Exec(s, a + b) == Exec(Exec(s, a), b)
    decreases |a|
  {
    if a == [] {
      assert a + b == b;
    } else {
      assert (a + b)[0] == a[0] && (a + b)[1..] == a[1..] + b;
      RunOn(Next(s, a[0]), a[1..], b);
    }
  }

  /** A schedule cut in two. */
  lemma {:induction false} RunApart(s: Refund, a: seq<Action>, b: seq<Action>)
    requires Legal(s, a + b)
    ensures Legal(s, a) && Legal(Exec(s, a), b) && Exec(s, a + b) == Exec(Exec(s, a), b)
    decreases |a|
  {
    if a == [] {
      assert a + b == b;
    } else {
      assert (a + b)[0] == a[0] && (a + b)[1..] == a[1..] + b;
      RunApart(Next(s, a[0]), a[1..], b);
    }
  }

  lemma One(s: Refund, a: Action)
    ensures Legal(s, [a]) <==> Enabled(s, a)
    ensures Enabled(s, a) ==> Exec(s, [a]) == Next(s, a)
  {
    assert [a][1..] == [];
    if Enabled(s, a) { assert Legal(Next(s, a), []) && Exec(Next(s, a), []) == Next(s, a); }
  }

  // ----- the invariant

  predicate Fact(e: External, history: seq<Status>, st: Status) {
    match st
    case PendingDebit => true
    case Succeeded => e.debited && (e.truth.Paid? || e.truth.ReversedThere?)
    case PendingCompensation => e.debited && (e.truth.Refused? || e.truth.FailedThere?)
    case Failed => PendingCompensation in history ==> e.released
    case _ => e.debited
  }

  predicate PhaseOk(e: External, history: seq<Status>, ph: Phase) {
    match ph
    case Snap(st) => st in history
    case Asking => PendingProvider in history
    case Ready(expected, next, f) =>
      && expected in history && Edge(expected, next)
      && (if next == Failed then expected == PendingCompensation ==> e.released else Fact(e, history, next))
      && (f.short <==> expected == PendingDebit && next == Failed)
      && (f.debited <==> next == PendingProvider)
  }

  predicate MoneyOk(e: External, history: seq<Status>) {
    && (forall st :: st in history ==> Fact(e, history, st))
    && (e.released || e.releaseOut ==> PendingCompensation in history)
    && (e.creates > 0 ==> PendingProvider in history)
    && (e.truth != Unheard ==> e.creates > 0)
  }

  predicate HistoryOk(history: seq<Status>, status: Status) {
    && |history| > 0 && history[0] == PendingDebit && history[|history| - 1] == status
    && (forall i :: 0 < i < |history| ==> Edge(history[i - 1], history[i]))
    && (forall st :: st in history ==> Rank(st) > Rank(status) || st == status)
  }

  predicate WorkersOk(e: External, history: seq<Status>, workers: map<nat, Phase>) {
    forall w :: w in workers ==> PhaseOk(e, history, workers[w])
  }

  /** The row agrees with its history; the outbox holds the creation and, once ended, the one change. */
  predicate RecordOk(r: Record, history: seq<Status>) {
    && r.version == |history|
    && (r.balanceDebited <==> PendingProvider in history)
    && (r.completedAt.Some? <==> Ends(r.status))
    && (r.status == Failed ==> (r.short <==> PendingCompensation !in history))
    && (!Ends(r.status) ==> r.outbox == [Created])
    && (Ends(r.status) ==> r.outbox == [Created, StatusChanged(r.status, PubPending, PublicStatus(r.status), r.version)])
  }

  predicate Inv(s: Refund) {
    && HistoryOk(s.history, s.rec.status)
    && MoneyOk(s.ext, s.history)
    && WorkersOk(s.ext, s.history, s.workers)
    && RecordOk(s.rec, s.history)
  }

  lemma StartInv()
    ensures Inv(Start())
  {
  }

  lemma ExtStep(s: Refund, a: Action)
    requires WorkersOk(s.ext, s.history, s.workers) && MoneyOk(s.ext, s.history) && Enabled(s, a)
    ensures Grows(s.ext, ExtAfter(s.ext, a)) && MoneyOk(ExtAfter(s.ext, a), s.history)
  {
    forall st | st in s.history ensures Fact(ExtAfter(s.ext, a), s.history, st) {
      assert Fact(s.ext, s.history, st);
    }
    if a.Create? || a.Credit? { assert PhaseOk(s.ext, s.history, s.workers[a.w]); }
  }

  lemma PhaseStep(s: Refund, a: Action)
    requires WorkersOk(s.ext, s.history, s.workers) && MoneyOk(s.ext, s.history) && s.rec.status in s.history
    requires Enabled(s, a) && !Outside(a) && PhaseAfter(s, a).Some?
    ensures PhaseOk(ExtAfter(s.ext, a), s.history, PhaseAfter(s, a).value)
  {
    if a.w in s.workers {
      assert PhaseOk(s.ext, s.history, s.workers[a.w]);
      assert Fact(s.ext, s.history, if s.workers[a.w].Snap? then s.workers[a.w].status else PendingProvider) by {
        if s.workers[a.w].Asking? { assert PendingProvider in s.history; }
      }
    }
  }

  lemma PhaseGrows(e: External, d: External, history: seq<Status>, ph: Phase)
    requires Grows(e, d) && PhaseOk(e, history, ph)
    ensures PhaseOk(d, history, ph)
  {
  }

  lemma QuietStep(s: Refund, a: Action)
    requires Inv(s) && Enabled(s, a) && !a.Cas?
    ensures Inv(Next(s, a))
  {
    var u := Next(s, a);
    ExtStep(s, a);
    forall w | w in u.workers ensures PhaseOk(u.ext, u.history, u.workers[w]) {
      if Outside(a) || w != a.w {
        PhaseGrows(s.ext, u.ext, s.history, s.workers[w]);
      } else {
        PhaseStep(s, a);
      }
    }
  }

  lemma CommitOk(s: Refund, expected: Status, next: Status, f: Fields, now: int)
    requires HistoryOk(s.history, s.rec.status) && MoneyOk(s.ext, s.history) && RecordOk(s.rec, s.history)
    requires PhaseOk(s.ext, s.history, Ready(expected, next, f)) && s.rec.status == expected
    ensures var h := s.history + [next];
            HistoryOk(h, next) && MoneyOk(s.ext, h) && RecordOk(Transition(s.rec, expected, next, f, now).value, h)
  {
    var h := s.history + [next];
    assert forall st :: st in h <==> st in s.history || st == next;
    forall st | st in h ensures Fact(s.ext, h, st) {
      if st in s.history { assert Fact(s.ext, s.history, st); }
    }
  }

  lemma WorkersLater(e: External, history: seq<Status>, workers: map<nat, Phase>, next: Status, w: nat)
    requires WorkersOk(e, history, workers)
    ensures WorkersOk(e, history + [next], workers - {w})
  {
    assert forall st :: st in history ==> st in history + [next];
    forall v | v in workers - {w} ensures PhaseOk(e, history + [next], workers[v]) {
      assert PhaseOk(e, history, workers[v]);
    }
  }

  lemma StepInv(s: Refund, a: Action)
    requires Inv(s) && Enabled(s, a)
    ensures Inv(Next(s, a))
  {
    if !a.Cas? {
      QuietStep(s, a);
    } else {
      var ph := s.workers[a.w];
      assert PhaseOk(s.ext, s.history, ph);
      if s.rec.status == ph.expected {
        CommitOk(s, ph.expected, ph.next, ph.f, a.now);
        WorkersLater(s.ext, s.history, s.workers, ph.next, a.w);
      }
    }
  }

  /** How one step can change the row's status: along an edge, by the compare-and-set of a worker. */
  lemma StepEdge(s: Refund, a: Action)
    requires Inv(s) && Enabled(s, a)
    ensures var u := Next(s, a);
            u.rec.status == s.rec.status || (a.Cas? && Edge(s.rec.status, u.rec.status))
  {
    if a.Cas? { assert PhaseOk(s.ext, s.history, s.workers[a.w]); }
  }

  /** No refund is both paid out and given back, whatever the workers do. */
  lemma SafeByInv(s: Refund)
    requires Inv(s)
    ensures s.ext.released ==> s.ext.debited && (s.ext.truth == Refused || s.ext.truth == FailedThere)
    ensures s.ext.truth == Paid ==> s.ext.debited && !s.ext.released
    ensures s.rec.status == Succeeded ==> s.ext.debited && !s.ext.released && (s.ext.truth == Paid || s.ext.truth == ReversedThere)
  {
    forall st | st in s.history ensures Fact(s.ext, s.history, st) {}
    assert s.rec.status in s.history;
  }

  // ----- settlement, when at most one worker handles a pending_debit row

  predicate Debits(s: Refund, w: nat) {
    w in s.workers && (s.workers[w] == Snap(PendingDebit) || (s.workers[w].Ready? && s.workers[w].expected == PendingDebit))
  }

  ghost predicate OneDebitor(s: Refund) {
    forall v, w :: Debits(s, v) && Debits(s, w) ==> v == w
  }

  ghost predicate DebitOk(s: Refund) {
    && (forall w :: Debits(s, w) ==> s.rec.status == PendingDebit && (s.workers[w].Ready? && s.workers[w].next == Failed ==> !s.ext.debited))
    && (Failed in s.history && PendingCompensation !in s.history ==> !s.ext.debited)
  }

  /** No debit reaches the ledger after the worker that sent it gave up. */
  predicate Prompt(acts: seq<Action>) {
    forall i :: 0 <= i < |acts| ==> !acts[i].DebitArrives?
  }

  lemma DebitStep(s: Refund, a: Action)
    requires Inv(s) && DebitOk(s) && OneDebitor(s) && Enabled(s, a) && !a.DebitArrives?
    ensures DebitOk(Next(s, a))
  {
    var u := Next(s, a);
    if a.Debit? { assert Debits(s, a.w); }
    if a.Cas? {
      assert PhaseOk(s.ext, s.history, s.workers[a.w]);
      if s.workers[a.w].expected == PendingDebit { assert Debits(s, a.w); }
    }
    forall w | Debits(u, w)
      ensures u.rec.status == PendingDebit && (u.workers[w].Ready? && u.workers[w].next == Failed ==> !u.ext.debited)
    {
      if w in s.workers && u.workers[w] == s.workers[w] { assert Debits(s, w); }
    }
  }

  /** A failed refund is balanced, a succeeded or pending one is held exactly once. */
  predicate SettledOk(s: Refund) {
    && (s.rec.status == Failed ==> (s.ext.debited <==> s.ext.released))
    && (s.rec.status == Succeeded || s.rec.status == Pending || s.rec.status == PendingProvider ==> s.ext.debited && !s.ext.released)
    && (s.rec.status == PendingDebit ==> !s.ext.released)
  }

  /** The schedule never lets two workers handle the pending_debit row at the same time. */
  ghost predicate Exclusive(s: Refund, acts: seq<Action>)
    requires Legal(s, acts)
    decreases |acts|
  {
    OneDebitor(s) && (acts == [] || Exclusive(Next(s, acts[0]), acts[1..]))
  }

  lemma {:induction false} RunInv(s: Refund, acts: seq<Action>)
    requires Inv(s) && Legal(s, acts)
    ensures Inv(Exec(s, acts))
    ensures DebitOk(s) && Exclusive(s, acts) && Prompt(acts) ==> DebitOk(Exec(s, acts))
    decreases |acts|
  {
    if acts != [] {
      StepInv(s, acts[0]);
      assert forall i :: 0 <= i < |acts[1..]| ==> acts[1..][i] == acts[i + 1];
      if DebitOk(s) && Exclusive(s, acts) && Prompt(acts) { DebitStep(s, acts[0]); }
      RunInv(Next(s, acts[0]), acts[1..]);
    }
  }

  /** In every run without two debitors and without a late debit the refund is settled. */
  lemma Settlement(acts: seq<Action>)
    requires Legal(Start(), acts) && Exclusive(Start(), acts) && Prompt(acts)
    ensures SettledOk(Exec(Start(), acts))
  {
    RunInv(Start(), acts);
    SettledUnlessStranded(Exec(Start(), acts));
  }

  /** In every run the merchant is told of the creation and, once the refund has ended, of its one status
      change; the completion date is set exactly then, and the version counts the commits. */
  lemma OneStatusChange(acts: seq<Action>)
    requires Legal(Start(), acts)
    ensures var r := Exec(Start(), acts).rec;
            && r.outbox == (if Ends(r.status) then [Created, StatusChanged(r.status, PubPending, PublicStatus(r.status), r.version)] else [Created])
            && (r.completedAt.Some? <==> Ends(r.status))
            && r.version == |Exec(Start(), acts).history|
  {
    RunInv(Start(), acts);
  }

  /** Failed for lack of balance, and debited all the same. */
  predicate Stranded(s: Refund) {
    s.rec.status == Failed && PendingCompensation !in s.history && s.ext.debited
  }

  /** With no assumption about overlapping workers: settled exactly when not stranded. */
  lemma SettledUnlessStranded(s: Refund)
    requires Inv(s)
    ensures SettledOk(s) <==> !Stranded(s)
  {
    assert s.rec.status in s.history;
    forall st | st in s.history ensures Fact(s.ext, s.history, st) {}
  }

  lemma StrandedHolds(s: Refund)
    requires Inv(s)
    ensures Stranded(s) ==> !s.ext.released
  {
  }

  /** A verdict "insufficient balance" is committed after somebody else's debit. */
  predicate FailsAfterDebit(s: Refund, a: Action) {
    && a.Cas? && a.w in s.workers && s.workers[a.w].Ready?
    && s.workers[a.w].expected == PendingDebit && s.workers[a.w].next == Failed
    && s.rec.status == PendingDebit && s.ext.debited
  }

  /** A debit from an old snapshot arrives after that verdict was committed. */
  predicate DebitsAfterFailure(s: Refund, a: Action) {
    a.Debit? && Reaches(a.out) && s.rec.status == Failed && PendingCompensation !in s.history
  }

  /** A debit that was given up on reaches the ledger after that verdict. */
  predicate ArrivesAfterFailure(s: Refund, a: Action) {
    a.DebitArrives? && s.rec.status == Failed && PendingCompensation !in s.history
  }

  predicate Strands(s: Refund, a: Action) {
    FailsAfterDebit(s, a) || DebitsAfterFailure(s, a) || ArrivesAfterFailure(s, a)
  }

  /** The three steps, and no others, that strand a refund; nothing ever frees it again. */
  lemma HowARefundStrands(s: Refund, a: Action)
    requires Inv(s) && Enabled(s, a)
    ensures Stranded(Next(s, a)) <==> Stranded(s) || Strands(s, a)
  {
    if a.Cas? {
      assert PhaseOk(s.ext, s.history, s.workers[a.w]);
      assert Rank(PendingCompensation) < Rank(PendingDebit);
    }
  }

  /** Somewhere in the schedule one of these steps is taken. */
  predicate HasStrandingStep(s: Refund, acts: seq<Action>)
    requires Legal(s, acts)
    decreases |acts|
  {
    acts != [] && (Strands(s, acts[0]) || HasStrandingStep(Next(s, acts[0]), acts[1..]))
  }

  lemma {:induction false} RunStrands(s: Refund, acts: seq<Action>)
    requires Inv(s) && Legal(s, acts)
    ensures Stranded(Exec(s, acts)) <==> Stranded(s) || HasStrandingStep(s, acts)
    decreases |acts|
  {
    if acts != [] {
      HowARefundStrands(s, acts[0]);
      StepInv(s, acts[0]);
      RunStrands(Next(s, acts[0]), acts[1..]);
    }
  }

  /** The exact condition for settlement, over all runs and any overlap of workers. */
  lemma SettledExactlyWithoutStrandingStep(acts: seq<Action>)
    requires Legal(Start(), acts)
    ensures SettledOk(Exec(Start(), acts)) <==> !HasStrandingStep(Start(), acts)
  {
    RunInv(Start(), acts);
    RunStrands(Start(), acts);
    SettledUnlessStranded(Exec(Start(), acts));
  }

  /** Two workers around a balance top-up leave a failed refund whose debit nobody gives back. */
  lemma ExclusionIsNeeded()
    ensures var s0 := Start();
            var s1 := Next(s0, Claim(0));
            var s2 := Next(s1, Claim(1));
            Enabled(s2, Debit(0, Insufficient)) &&
            var s3 := Next(s2, Debit(0, Insufficient));
            Enabled(s3, Debit(1, Applied)) &&
            var s4 := Next(s3, Debit(1, Applied));
            Enabled(s4, Cas(0, 0)) &&
            var s5 := Next(s4, Cas(0, 0));
            Enabled(s5, Cas(1, 0)) &&
            var s := Next(s5, Cas(1, 0));
            s.rec.status == Failed && s.ext.debited && !s.ext.released && s.workers == map[]
  {
  }
}
