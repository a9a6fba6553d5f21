/** A payment with everything that hangs on it: its inbox, its cash-in row and the workers that flush it
    (internal/adapters/dinacore/outbox.go), and its refunds with the refundable balance
    (internal/adapters/postgres/refunds.go). */
module PaymentBook {
  import opened Common
  import opened Parties
  import Lifecycle = PaymentLifecycle
  import Refunds = RefundSaga

  /** A worker that claimed the cash-in row has either not called the ledger yet, or has been told it is credited. */
  datatype Flusher = ClaimedRow | CreditedRow

  datatype Entry = Entry(amount: int, saga: Refunds.Refund)

  datatype Book = Book(
    row: Lifecycle.Inboxed,
    credited: bool,                 // the ledger has applied the cash-in
    creditOut: bool,                // a call was given up on and may still reach the ledger
    flushers: map<nat, Flusher>,
    refunds: map<string, Entry>)

  datatype Action =
    | Deliver(event: Lifecycle.Event)
    | ClaimCashIn(w: nat)
    | CreditCashIn(w: nat, out: LedgerOutcome)
    | MarkSent(w: nat)
    | CashInArrives
    | DropFlusher(w: nat)
    | OpenRefund(id: string, amount: int)
    | RefundStep(id: string, act: Refunds.Action)

  /** What the refunds of a payment that satisfy a test add up to. */
  ghost function SumOf(refunds: map<string, Entry>, counts: Refunds.Status -> bool): int {
    Total(Amounts(refunds, counts))
  }

  function Amounts(refunds: map<string, Entry>, counts: Refunds.Status -> bool): map<string, int> {
    map id | id in refunds :: if counts(refunds[id].saga.rec.status) then refunds[id].amount else 0
  }

  predicate Holds(s: Refunds.Status) { s != Refunds.Failed }

  predicate Done(s: Refunds.Status) { s == Refunds.Succeeded }

  /** SUM(amount) WHERE status <> 'failed'. */
  ghost function Held(refunds: map<string, Entry>): int { SumOf(refunds, Holds) }

  /** SUM(amount) WHERE status = 'succeeded'. */
  ghost function Returned(refunds: map<string, Entry>): int { SumOf(refunds, Done) }

  predicate Refundable(s: Lifecycle.Status) {
    s == Lifecycle.Confirmed || s == Lifecycle.Refunded
  }

  /** CreateRefund's test: a refundable payment, a positive amount, and enough left of it. */
  ghost predicate Fits(status: Lifecycle.Status, amount: int, refunds: map<string, Entry>, x: int) {
    Refundable(status) && 0 < x <= amount - Held(refunds)
  }

  ghost predicate Enabled(b: Book, a: Action) {
    match a
    case Deliver(_) => true
    case ClaimCashIn(w) => w !in b.flushers && b.row.payment.cashIn == Lifecycle.CashIn(false)
    case CreditCashIn(w, out) => w in b.flushers && b.flushers[w] == ClaimedRow && !out.Insufficient?
    case MarkSent(w) => w in b.flushers && b.flushers[w] == CreditedRow
    case CashInArrives => b.creditOut
    case DropFlusher(w) => w in b.flushers
    case OpenRefund(id, amount) =>
      // CreateRefund on a key that was not used before
      id !in b.refunds && Fits(b.row.payment.status, b.row.payment.amount, b.refunds, amount)
    case RefundStep(id, act) => id in b.refunds && Refunds.Enabled(b.refunds[id].saga, act)
  }

  /** The update of the payment row inside TransitionRefund. */
  ghost function Closed(p: Lifecycle.Payment, refunds: map<string, Entry>): Lifecycle.Payment {
    if Returned(refunds) >= p.amount then p.(status := Lifecycle.Refunded) else p
  }

  /** TransitionRefund commits next = succeeded. */
  predicate Succeeds(s: Refunds.Refund, act: Refunds.Action) {
    && act.Cas? && act.w in s.workers && s.workers[act.w].Ready?
    && s.workers[act.w].expected == s.rec.status && s.workers[act.w].next == Refunds.Succeeded
  }

  function AfterCredit(b: Book, w: nat, out: LedgerOutcome): Book {
    match out
    case Applied => b.(credited := true, flushers := b.flushers[w := CreditedRow])
    case AppliedReplyLost => b.(credited := true, flushers := b.flushers - {w})
    case _ => b.(creditOut := true, flushers := b.flushers - {w})
  }

  ghost function Next(b: Book, a: Action): Book
    requires Enabled(b, a)
  {
    match a
    case Deliver(e) => b.(row := Lifecycle.Deliver(b.row, e))
    case ClaimCashIn(w) => b.(flushers := b.flushers[w := ClaimedRow])
    case CreditCashIn(w, out) => AfterCredit(b, w, out)
    case MarkSent(w) =>
      b.(row := b.row.(payment := b.row.payment.(cashIn := Lifecycle.CashIn(true))), flushers := b.flushers - {w})
    case CashInArrives => b.(credited := true)
    case DropFlusher(w) => b.(flushers := b.flushers - {w})
    case OpenRefund(id, amount) => b.(refunds := b.refunds[id := Entry(amount, Refunds.Start())])
    case RefundStep(id, act) =>
      var was := b.refunds[id];
      var saga := Refunds.Next(was.saga, act);
      var refunds := b.refunds[id := Entry(was.amount, saga)];
      if Succeeds(was.saga, act)
      then b.(refunds := refunds, row := b.row.(payment := Closed(b.row.payment, refunds)))
      else b.(refunds := refunds)
  }

  ghost predicate Legal(b: Book, acts: seq<Action>)
    decreases |acts|
  {
    acts == [] || (Enabled(b, acts[0]) && Legal(Next(b, acts[0]), acts[1..]))
  }

  ghost function Exec(b: Book, acts: seq<Action>): Book
    requires Legal(b, acts)
    decreases |acts|
  {
    if acts == [] then b else Exec(Next(b, acts[0]), acts[1..])
  }

  /** One run after another. */
  lemma {:induction false} RunOn(b: Book, x: seq<Action>, y: seq<Action>)
    requires Legal(b, x) && Legal(Exec(b, x), y)
    ensures Legal(b, x + y) && Exec(b, x + y) == Exec(Exec(b, x), y)
    decreases |x|
  {
    if x == [] {
      assert x + y == y;
    } else {
      assert (x + y)[0] == x[0] && (x + y)[1..] == x[1..] + y;
      RunOn(Next(b, x[0]), x[1..], y);
    }
  }

  /** A run cut in two. */
  lemma {:induction false} RunApart(b: Book, x: seq<Action>, y: seq<Action>)
    requires Legal(b, x + y)
    ensures Legal(b, x) && Legal(Exec(b, x), y) && Exec(b, x + y) == Exec(Exec(b, x), y)
    decreases |x|
  {
    if x == [] {
      assert x + y == y;
    } else {
      assert (x + y)[0] == x[0] && (x + y)[1..] == x[1..] + y;
      RunApart(Next(b, x[0]), x[1..], y);
    }
  }

  lemma One(b: Book, a: Action)
    ensures Legal(b, [a]) <==> Enabled(b, a)
    ensures Enabled(b, a) ==> Exec(b, [a]) == Next(b, a)
  {
    assert [a][1..] == [];
    if Enabled(b, a) { assert Legal(Next(b, a), []) && Exec(Next(b, a), []) == Next(b, a); }
  }

  function Start(amount: int, binding: Lifecycle.Binding, reference: string): Book {
    Book(Lifecycle.Inboxed(Lifecycle.NewPayment(amount, binding, reference), {}), false, false, map[], map[])
  }

  // ----- invariants

  /** Cash-in: a row exists exactly for confirmed or refunded payments, sent implies credited, and a
      credit implies that the payment was confirmed. */
  predicate CashInOk(p: Lifecycle.Payment, credited: bool, out: bool, flushers: map<nat, Flusher>) {
    && Lifecycle.CashInOk(p)
    && (p.cashIn == Lifecycle.CashIn(true) ==> credited)
    && (credited || out ==> p.cashIn.CashIn?)
    && (forall w :: w in flushers ==> p.cashIn.CashIn? && (flushers[w] == CreditedRow ==> credited))
  }

  predicate SagasOk(refunds: map<string, Entry>) {
    forall id :: id in refunds ==> refunds[id].amount > 0 && Refunds.Inv(refunds[id].saga)
  }

  /** The refund cap, and refunded exactly when the succeeded refunds of a positive payment close it. */
  ghost predicate CapOk(status: Lifecycle.Status, amount: int, refunds: map<string, Entry>) {
    && SagasOk(refunds)
    && SumsOk(status, amount, refunds != map[], Held(refunds), Returned(refunds))
  }

  predicate SumsOk(status: Lifecycle.Status, amount: int, some: bool, held: int, returned: int) {
    && (some ==> Refundable(status) && amount > 0)
    && held <= (if amount > 0 then amount else 0)
    && (status == Lifecycle.Refunded <==> amount > 0 && returned == amount)
  }

  ghost predicate Inv(b: Book) {
    && CashInOk(b.row.payment, b.credited, b.creditOut, b.flushers)
    && CapOk(b.row.payment.status, b.row.payment.amount, b.refunds)
    && Lifecycle.LogOk(b.row)
  }

  lemma NoRefunds()
    ensures Held(map[]) == 0 && Returned(map[]) == 0
  {
    assert Amounts(map[], Holds) == map[] && Amounts(map[], Done) == map[];
  }

  lemma StartInv(amount: int, binding: Lifecycle.Binding, reference: string)
    ensures Inv(Start(amount, binding, reference))
  {
    Lifecycle.NewPaymentOk(amount, binding, reference);
    NoRefunds();
  }

  /** What one refund's step does to the two sums. */
  lemma SumStep(refunds: map<string, Entry>, id: string, e: Entry, counts: Refunds.Status -> bool)
    ensures SumOf(refunds[id := e], counts)
            == SumOf(refunds, counts) + (if counts(e.saga.rec.status) then e.amount else 0)
               - (if id in refunds && counts(refunds[id].saga.rec.status) then refunds[id].amount else 0)
  {
    var v := if counts(e.saga.rec.status) then e.amount else 0;
    assert Amounts(refunds[id := e], counts) == Amounts(refunds, counts)[id := v];
    TotalUpdate(Amounts(refunds, counts), id, v);
  }

  /** A succeeded refund is not a failed one, so what was returned is part of what is held. */
  lemma ReturnedWithinHeld(refunds: map<string, Entry>)
    requires SagasOk(refunds)
    ensures 0 <= Returned(refunds) <= Held(refunds)
  {
    var zero := map id | id in refunds :: 0;
    TotalMonotone(Amounts(refunds, Done), Amounts(refunds, Holds));
    TotalMonotone(zero, Amounts(refunds, Done));
    TotalZero(zero);
  }

  lemma {:induction false} TotalZero(m: map<string, int>)
    requires forall k :: k in m ==> m[k] == 0
    ensures Total(m) == 0
    decreases |m|
  {
    if m != map[] {
      var k :| k in m;
      TotalRemove(m, k);
      TotalZero(m - {k});
    }
  }

  /** No event moves a payment into, out of or between the two statuses that take refunds, once it is there. */
  lemma DeliverStatus(s: Lifecycle.Inboxed, e: Lifecycle.Event)
    ensures var u := Lifecycle.Deliver(s, e);
            && u.payment.amount == s.payment.amount
            && (Refundable(s.payment.status) ==> u.payment.status == s.payment.status)
            && (u.payment.status == Lifecycle.Refunded ==> s.payment.status == Lifecycle.Refunded)
  {
  }

  lemma DeliverCap(status: Lifecycle.Status, status': Lifecycle.Status, amount: int, refunds: map<string, Entry>)
    requires CapOk(status, amount, refunds)
    requires Refundable(status) ==> status' == status
    requires status' == Lifecycle.Refunded ==> status == Lifecycle.Refunded
    ensures CapOk(status', amount, refunds)
  {
  }

  /** CreateRefund keeps the cap; it cannot reopen or close a payment. */
  lemma OpenCap(status: Lifecycle.Status, amount: int, refunds: map<string, Entry>, id: string, e: Entry)
    requires CapOk(status, amount, refunds) && id !in refunds && Refundable(status)
    requires 0 < e.amount <= amount - Held(refunds) && e.saga.rec.status == Refunds.PendingDebit && Refunds.Inv(e.saga)
    ensures CapOk(status, amount, refunds[id := e])
  {
    OpenSums(refunds, id, e);
    ReturnedWithinHeld(refunds);
    assert SumsOk(status, amount, true, Held(refunds) + e.amount, Returned(refunds));
    SagasKept(refunds, id, e);
  }

  lemma SagasKept(refunds: map<string, Entry>, id: string, e: Entry)
    requires SagasOk(refunds) && e.amount > 0 && Refunds.Inv(e.saga)
    ensures SagasOk(refunds[id := e])
  {
  }

  /** A new refund is held and not returned. */
  lemma OpenSums(refunds: map<string, Entry>, id: string, e: Entry)
    requires id !in refunds && e.saga.rec.status == Refunds.PendingDebit
    ensures Held(refunds[id := e]) == Held(refunds) + e.amount
    ensures Returned(refunds[id := e]) == Returned(refunds)
  {
    SumStep(refunds, id, e, Holds);
    SumStep(refunds, id, e, Done);
  }

  lemma OpenInv(b: Book, id: string, x: int)
    requires Inv(b) && Enabled(b, OpenRefund(id, x))
    ensures Inv(Next(b, OpenRefund(id, x)))
  {
    Refunds.StartInv();
    ReturnedWithinHeld(b.refunds);
    OpenCap(b.row.payment.status, b.row.payment.amount, b.refunds, id, Entry(x, Refunds.Start()));
  }

  /** A refund's step keeps the cap; when it succeeds, the payment is closed if nothing is left. */
  lemma RefundCap(status: Lifecycle.Status, amount: int, refunds: map<string, Entry>, id: string, saga: Refunds.Refund)
    requires CapOk(status, amount, refunds) && id in refunds && Refunds.Inv(saga)
    requires var was := refunds[id].saga.rec.status;
             saga.rec.status == was || Refunds.Edge(was, saga.rec.status)
    ensures var u := refunds[id := Entry(refunds[id].amount, saga)];
            var closes := saga.rec.status == Refunds.Succeeded && refunds[id].saga.rec.status != Refunds.Succeeded && Returned(u) >= amount;
            CapOk(if closes then Lifecycle.Refunded else status, amount, u)
  {
    var e := Entry(refunds[id].amount, saga);
    StepSums(refunds, id, e);
    SagasKept(refunds, id, e);
    ReturnedWithinHeld(refunds);
    ReturnedWithinHeld(refunds[id := e]);
  }

  /** Along an edge a refund can only cease to be held, or come to be returned; a returned one stays so. */
  lemma StepSums(refunds: map<string, Entry>, id: string, e: Entry)
    requires SagasOk(refunds) && id in refunds && e.amount == refunds[id].amount
    requires var was := refunds[id].saga.rec.status; e.saga.rec.status == was || Refunds.Edge(was, e.saga.rec.status)
    ensures Held(refunds[id := e]) <= Held(refunds) && Returned(refunds) <= Returned(refunds[id := e])
    ensures e.saga.rec.status != Refunds.Succeeded || refunds[id].saga.rec.status == Refunds.Succeeded ==> Returned(refunds[id := e]) == Returned(refunds)
  {
    SumStep(refunds, id, e, Holds);
    SumStep(refunds, id, e, Done);
  }

  /** Closing a payment changes neither its webhook log nor its cash-in row. */
  lemma ClosedOk(b: Book, refunds: map<string, Entry>)
    requires Refundable(b.row.payment.status)
    requires CashInOk(b.row.payment, b.credited, b.creditOut, b.flushers) && Lifecycle.LogOk(b.row)
    ensures var p := Closed(b.row.payment, refunds);
            CashInOk(p, b.credited, b.creditOut, b.flushers) && Lifecycle.LogOk(b.row.(payment := p))
            && p.amount == b.row.payment.amount
            && p.status == if Returned(refunds) >= p.amount then Lifecycle.Refunded else b.row.payment.status
  {
  }

  /** A refund comes to be succeeded by such a commit only, and once. */
  lemma SucceedsExactly(s: Refunds.Refund, act: Refunds.Action)
    requires Refunds.Inv(s) && Refunds.Enabled(s, act)
    ensures Succeeds(s, act) <==> Refunds.Next(s, act).rec.status == Refunds.Succeeded && s.rec.status != Refunds.Succeeded
  {
    if act.Cas? { assert Refunds.PhaseOk(s.ext, s.history, s.workers[act.w]); }
  }

  lemma RefundStepInv(b: Book, id: string, act: Refunds.Action)
    requires Inv(b) && Enabled(b, RefundStep(id, act))
    ensures Inv(Next(b, RefundStep(id, act)))
  {
    var was := b.refunds[id];
    var saga := Refunds.Next(was.saga, act);
    Refunds.StepInv(was.saga, act);
    Refunds.StepEdge(was.saga, act);
    SucceedsExactly(was.saga, act);
    RefundCap(b.row.payment.status, b.row.payment.amount, b.refunds, id, saga);
    ClosedOk(b, b.refunds[id := Entry(was.amount, saga)]);
    RefundStepShape(b, id, act, saga);
  }

  /** The step, with the refund's own machinery out of sight. */
  lemma RefundStepShape(b: Book, id: string, act: Refunds.Action, saga: Refunds.Refund)
    requires Enabled(b, RefundStep(id, act)) && saga == Refunds.Next(b.refunds[id].saga, act)
    ensures var refunds := b.refunds[id := Entry(b.refunds[id].amount, saga)];
            var done := Succeeds(b.refunds[id].saga, act);
            Next(b, RefundStep(id, act)) ==
            Book(if done then b.row.(payment := Closed(b.row.payment, refunds)) else b.row, b.credited, b.creditOut, b.flushers, refunds)
  {
  }

  lemma DeliverInv(b: Book, e: Lifecycle.Event)
    requires Inv(b)
    ensures Inv(Next(b, Deliver(e)))
  {
    Lifecycle.DeliverOk(b.row, e);
    DeliverStatus(b.row, e);
    DeliverCap(b.row.payment.status, Lifecycle.Deliver(b.row, e).payment.status, b.row.payment.amount, b.refunds);
    DeliverCashIn(b.row, e);
  }

  /** Events create the cash-in row but never mark it, and never remove it. */
  lemma DeliverCashIn(s: Lifecycle.Inboxed, e: Lifecycle.Event)
    ensures var u := Lifecycle.Deliver(s, e);
            u.payment.cashIn == s.payment.cashIn || (s.payment.cashIn.NoCashIn? && u.payment.cashIn == Lifecycle.CashIn(false))
  {
  }

  lemma FlushCashIn(b: Book, a: Action)
    requires CashInOk(b.row.payment, b.credited, b.creditOut, b.flushers)
    requires Enabled(b, a) && (a.ClaimCashIn? || a.CreditCashIn? || a.MarkSent? || a.CashInArrives? || a.DropFlusher?)
    ensures var u := Next(b, a);
            && CashInOk(u.row.payment, u.credited, u.creditOut, u.flushers) && u.refunds == b.refunds
            && u.row == b.row.(payment := b.row.payment.(cashIn := u.row.payment.cashIn))
  {
  }

  lemma LogWithoutCashIn(s: Lifecycle.Inboxed, c: Lifecycle.CashIn)
    requires Lifecycle.LogOk(s)
    ensures Lifecycle.LogOk(s.(payment := s.payment.(cashIn := c)))
  {
  }

  lemma FlushInv(b: Book, a: Action)
    requires Inv(b) && Enabled(b, a) && (a.ClaimCashIn? || a.CreditCashIn? || a.MarkSent? || a.CashInArrives? || a.DropFlusher?)
    ensures Inv(Next(b, a))
  {
    FlushCashIn(b, a);
    LogWithoutCashIn(b.row, Next(b, a).row.payment.cashIn);
  }

  lemma StepInv(b: Book, a: Action)
    requires Inv(b) && Enabled(b, a)
    ensures Inv(Next(b, a))
  {
    match a {
      case Deliver(e) => DeliverInv(b, e);
      case OpenRefund(id, x) => OpenInv(b, id, x);
      case RefundStep(id, act) => RefundStepInv(b, id, act);
      case _ => FlushInv(b, a);
    }
  }

  lemma {:induction false} RunInv(b: Book, acts: seq<Action>)
    requires Inv(b) && Legal(b, acts)
    ensures Inv(Exec(b, acts))
    decreases |acts|
  {
    if acts != [] {
      StepInv(b, acts[0]);
      RunInv(Next(b, acts[0]), acts[1..]);
    }
  }

  // ----- main results

  lemma Reached(amount: int, binding: Lifecycle.Binding, reference: string, acts: seq<Action>)
    requires Legal(Start(amount, binding, reference), acts)
    ensures Inv(Exec(Start(amount, binding, reference), acts))
  {
    StartInv(amount, binding, reference);
    RunInv(Start(amount, binding, reference), acts);
  }

  /** Once a payment is refunded, no refund of any size can be opened. */
  lemma NothingLeft(amount: int, refunds: map<string, Entry>, x: int)
    requires CapOk(Lifecycle.Refunded, amount, refunds)
    ensures !Fits(Lifecycle.Refunded, amount, refunds, x)
  {
    ReturnedWithinHeld(refunds);
  }

  /** In every run: the refunds that are not failed never exceed the payment; the payment is refunded
      exactly when it is positive and its succeeded refunds come to its amount; and then no refund of
      any size can be opened. */
  lemma CapAndClosure(amount: int, binding: Lifecycle.Binding, reference: string, acts: seq<Action>)
    requires Legal(Start(amount, binding, reference), acts)
    ensures var b := Exec(Start(amount, binding, reference), acts);
            && Held(b.refunds) <= (if b.row.payment.amount > 0 then b.row.payment.amount else 0)
            && (b.row.payment.status == Lifecycle.Refunded <==> b.row.payment.amount > 0 && Returned(b.refunds) == b.row.payment.amount)
            && (b.row.payment.status == Lifecycle.Refunded ==>
                  forall x :: !Fits(b.row.payment.status, b.row.payment.amount, b.refunds, x))
  {
    Reached(amount, binding, reference, acts);
    var b := Exec(Start(amount, binding, reference), acts);
    forall x | b.row.payment.status == Lifecycle.Refunded ensures !Fits(b.row.payment.status, b.row.payment.amount, b.refunds, x) {
      NothingLeft(b.row.payment.amount, b.refunds, x);
    }
  }

  /** Once a payment is refunded, every other refund of it has failed. */
  lemma ClosedMeansNothingPending(amount: int, refunds: map<string, Entry>, id: string)
    requires CapOk(Lifecycle.Refunded, amount, refunds) && id in refunds
    ensures refunds[id].saga.rec.status == Refunds.Succeeded || refunds[id].saga.rec.status == Refunds.Failed
  {
    ReturnedWithinHeld(refunds);
    var done, held := Amounts(refunds, Done), Amounts(refunds, Holds);
    TotalMonotone(done, held);
    assert done[id] == held[id];
  }

  /** In every run: a cash-in row exists exactly for a confirmed or refunded payment; the ledger is only
      credited for such a payment; a row marked sent was credited; and the payment was started, changed
      at most three times through events, and its webhook log numbers those changes without a gap. */
  lemma CashInExactlyOnce(amount: int, binding: Lifecycle.Binding, reference: string, acts: seq<Action>)
    requires Legal(Start(amount, binding, reference), acts)
    ensures var b := Exec(Start(amount, binding, reference), acts);
            && (b.row.payment.cashIn.CashIn? <==> Refundable(b.row.payment.status))
            && (b.row.payment.cashIn == Lifecycle.CashIn(true) ==> b.credited)
            && (b.credited ==> Refundable(b.row.payment.status))
            && Lifecycle.LogOk(b.row) && b.row.payment.version <= 4
  {
    Reached(amount, binding, reference, acts);
  }

  /** In every run, whatever the workers do: no refund is both paid out and given back, and once the payment is
      refunded every refund of it has succeeded or failed. */
  lemma RefundsSafe(amount: int, binding: Lifecycle.Binding, reference: string, acts: seq<Action>, id: string)
    requires Legal(Start(amount, binding, reference), acts) && id in Exec(Start(amount, binding, reference), acts).refunds
    ensures var b := Exec(Start(amount, binding, reference), acts);
            var e, status := b.refunds[id].saga.ext, b.refunds[id].saga.rec.status;
            && (e.released ==> e.debited && (e.truth == Refused || e.truth == FailedThere))
            && (e.truth == Paid ==> e.debited && !e.released)
            && (b.row.payment.status == Lifecycle.Refunded ==> Refunds.Ends(status))
  {
    Reached(amount, binding, reference, acts);
    var b := Exec(Start(amount, binding, reference), acts);
    Refunds.SafeByInv(b.refunds[id].saga);
    if b.row.payment.status == Lifecycle.Refunded { ClosedMeansNothingPending(b.row.payment.amount, b.refunds, id); }
  }

  // ----- settlement of all refunds of a payment

  ghost predicate AnyStranded(refunds: map<string, Entry>) {
    exists id :: id in refunds && Refunds.Stranded(refunds[id].saga)
  }

  predicate Strands(b: Book, a: Action) {
    a.RefundStep? && a.id in b.refunds && Refunds.Strands(b.refunds[a.id].saga, a.act)
  }

  lemma RefundStepStrands(b: Book, id: string, act: Refunds.Action)
    requires SagasOk(b.refunds) && Enabled(b, RefundStep(id, act))
    ensures AnyStranded(Next(b, RefundStep(id, act)).refunds) <==> AnyStranded(b.refunds) || Strands(b, RefundStep(id, act))
  {
    var was := b.refunds[id];
    var saga := Refunds.Next(was.saga, act);
    RefundStepShape(b, id, act, saga);
    Refunds.HowARefundStrands(was.saga, act);
    var u := b.refunds[id := Entry(was.amount, saga)];
    assert Refunds.Stranded(saga) ==> AnyStranded(u) by { assert u[id].saga == saga; }
    forall k | k in b.refunds && Refunds.Stranded(b.refunds[k].saga) ensures AnyStranded(u) {
      assert k == id || u[k] == b.refunds[k];
    }
    forall k | k in u && Refunds.Stranded(u[k].saga) ensures AnyStranded(b.refunds) || Strands(b, RefundStep(id, act)) {
      assert k == id || u[k] == b.refunds[k];
    }
  }

  lemma StepStrands(b: Book, a: Action)
    requires SagasOk(b.refunds) && Enabled(b, a)
    ensures AnyStranded(Next(b, a).refunds) <==> AnyStranded(b.refunds) || Strands(b, a)
  {
    match a {
      case RefundStep(id, act) => RefundStepStrands(b, id, act);
      case OpenRefund(id, x) => OpenStrands(b.refunds, id, x);
      case _ =>
    }
  }

  lemma OpenStrands(refunds: map<string, Entry>, id: string, x: int)
    requires id !in refunds
    ensures AnyStranded(refunds[id := Entry(x, Refunds.Start())]) <==> AnyStranded(refunds)
  {
    var u := refunds[id := Entry(x, Refunds.Start())];
    forall k | k in refunds && Refunds.Stranded(refunds[k].saga) ensures AnyStranded(u) {
      assert u[k] == refunds[k];
    }
  }

  /** Somewhere in the run a step strands one of the refunds. */
  ghost predicate HasStrandingStep(b: Book, acts: seq<Action>)
    requires Legal(b, acts)
    decreases |acts|
  {
    acts != [] && (Strands(b, acts[0]) || HasStrandingStep(Next(b, acts[0]), acts[1..]))
  }

  lemma {:induction false} RunStrands(b: Book, acts: seq<Action>)
    requires Inv(b) && Legal(b, acts)
    ensures AnyStranded(Exec(b, acts).refunds) <==> AnyStranded(b.refunds) || HasStrandingStep(b, acts)
    decreases |acts|
  {
    if acts != [] {
      StepStrands(b, acts[0]);
      StepInv(b, acts[0]);
      RunStrands(Next(b, acts[0]), acts[1..]);
    }
  }

  /** In every run of a payment, all its refunds are settled exactly if no step stranded one. */
  lemma RefundsSettledExactly(amount: int, binding: Lifecycle.Binding, reference: string, acts: seq<Action>)
    requires Legal(Start(amount, binding, reference), acts)
    ensures (forall id :: id in Exec(Start(amount, binding, reference), acts).refunds ==>
               Refunds.SettledOk(Exec(Start(amount, binding, reference), acts).refunds[id].saga))
            <==> !HasStrandingStep(Start(amount, binding, reference), acts)
  {
    Reached(amount, binding, reference, acts);
    StartInv(amount, binding, reference);
    RunStrands(Start(amount, binding, reference), acts);
    var refunds := Exec(Start(amount, binding, reference), acts).refunds;
    forall id | id in refunds ensures Refunds.SettledOk(refunds[id].saga) <==> !Refunds.Stranded(refunds[id].saga) {
      Refunds.SettledUnlessStranded(refunds[id].saga);
    }
  }
}
