/** All accounts together: payouts, payments and refunds share the ledger's balances, and money is
    neither made nor lost by any interleaving of their workers, crashes and lost replies. */
module Conservation {
  import opened Common
  import opened Parties
  import Lifecycle = PaymentLifecycle
  import Payouts = PayoutSaga
  import PayoutStatus = PayoutLifecycle
  import PayoutTheorems
  import Refunds = RefundSaga
  import Books = PaymentBook

  /** The ledger keeps one balance per account and currency. */
  datatype Account = Account(id: string, currency: string)

  datatype PayoutEntry = PayoutEntry(account: Account, amount: int, saga: Payouts.Payout)

  datatype BookEntry = BookEntry(account: Account, book: Books.Book)

  datatype World = World(
    start: map<Account, int>, balance: map<Account, int>,
    payouts: map<string, PayoutEntry>, payments: map<string, BookEntry>)

  datatype Action =
    | OpenPayout(id: string, account: Account, amount: int)
    | PayoutStep(id: string, payout: Payouts.Action)
    | OpenPayment(id: string, account: Account, amount: int, binding: Lifecycle.Binding, reference: string)
    | PaymentStep(id: string, payment: Books.Action)

  function At(balance: map<Account, int>, a: Account): int {
    if a in balance then balance[a] else 0
  }

  function Pay(balance: map<Account, int>, a: Account, x: int): map<Account, int> {
    balance[a := At(balance, a) + x]
  }

  // ----- what the deduplicating ledger does to a balance

  /** A debit that reaches the ledger counts the first time only. */
  function Debited(out: LedgerOutcome, before: bool, amount: int): int {
    if Reaches(out) && !before then -amount else 0
  }

  /** So does a credit. */
  function Credited(out: LedgerOutcome, before: bool, amount: int): int {
    if Reaches(out) && !before then amount else 0
  }

  function PayoutCall(e: PayoutEntry, act: Payouts.Action): int {
    match act
    case Debit(_, out) => Debited(out, e.saga.ext.debited, e.amount)
    case Credit(_, out) => Credited(out, e.saga.ext.released, e.amount)
    case DebitArrives => Debited(Applied, e.saga.ext.debited, e.amount)
    case CreditArrives => Credited(Applied, e.saga.ext.released, e.amount)
    case _ => 0
  }

  function RefundCall(e: Books.Entry, act: Refunds.Action): int {
    match act
    case Debit(_, out) => Debited(out, e.saga.ext.debited, e.amount)
    case Credit(_, out) => Credited(out, e.saga.ext.released, e.amount)
    case DebitArrives => Debited(Applied, e.saga.ext.debited, e.amount)
    case CreditArrives => Credited(Applied, e.saga.ext.released, e.amount)
    case _ => 0
  }

  function BookCall(e: BookEntry, act: Books.Action): int {
    match act
    case CreditCashIn(_, out) => Credited(out, e.book.credited, e.book.row.payment.amount)
    case CashInArrives => Credited(Applied, e.book.credited, e.book.row.payment.amount)
    case RefundStep(id, refund) => if id in e.book.refunds then RefundCall(e.book.refunds[id], refund) else 0
    case _ => 0
  }

  /** The ledger refuses a first debit exactly when the balance is short. */
  predicate Honest(balance: int, out: LedgerOutcome, before: bool, amount: int) {
    && (Reaches(out) && !before ==> amount <= balance)
    && (out == Insufficient ==> balance < amount)
  }

  predicate PayoutHonest(balance: int, e: PayoutEntry, act: Payouts.Action) {
    && (act.Debit? ==> Honest(balance, act.out, e.saga.ext.debited, e.amount))
    && (act.DebitArrives? ==> Honest(balance, Applied, e.saga.ext.debited, e.amount))
  }

  predicate RefundHonest(balance: int, e: Books.Entry, act: Refunds.Action) {
    && (act.Debit? ==> Honest(balance, act.out, e.saga.ext.debited, e.amount))
    && (act.DebitArrives? ==> Honest(balance, Applied, e.saga.ext.debited, e.amount))
  }

  predicate BookHonest(balance: int, e: BookEntry, act: Books.Action) {
    act.RefundStep? && act.id in e.book.refunds ==> RefundHonest(balance, e.book.refunds[act.id], act.act)
  }

  // ----- the world's steps

  ghost predicate Enabled(w: World, a: Action) {
    match a
    case OpenPayout(id, _, _) => id !in w.payouts
    case PayoutStep(id, act) =>
      id in w.payouts && Payouts.Enabled(w.payouts[id].saga, act)
      && PayoutHonest(At(w.balance, w.payouts[id].account), w.payouts[id], act)
    case OpenPayment(id, _, _, _, _) => id !in w.payments
    case PaymentStep(id, act) =>
      id in w.payments && Books.Enabled(w.payments[id].book, act)
      && BookHonest(At(w.balance, w.payments[id].account), w.payments[id], act)
  }

  function PayoutAfter(e: PayoutEntry, act: Payouts.Action): PayoutEntry
    requires Payouts.Enabled(e.saga, act)
  {
    e.(saga := Payouts.Next(e.saga, act))
  }

  ghost function BookAfter(e: BookEntry, act: Books.Action): BookEntry
    requires Books.Enabled(e.book, act)
  {
    e.(book := Books.Next(e.book, act))
  }

  ghost function Next(w: World, a: Action): World
    requires Enabled(w, a)
  {
    match a
    case OpenPayout(id, account, amount) =>
      w.(payouts := w.payouts[id := PayoutEntry(account, amount, Payouts.Start())])
    case PayoutStep(id, act) =>
      var e := w.payouts[id];
      w.(payouts := w.payouts[id := PayoutAfter(e, act)], balance := Pay(w.balance, e.account, PayoutCall(e, act)))
    case OpenPayment(id, account, amount, binding, reference) =>
      w.(payments := w.payments[id := BookEntry(account, Books.Start(amount, binding, reference))])
    case PaymentStep(id, act) =>
      var e := w.payments[id];
      w.(payments := w.payments[id := BookAfter(e, act)], balance := Pay(w.balance, e.account, BookCall(e, act)))
  }

  ghost predicate Legal(w: World, acts: seq<Action>)
    decreases |acts|
  {
    acts == [] || (Enabled(w, acts[0]) && Legal(Next(w, acts[0]), acts[1..]))
  }

  ghost function Exec(w: World, acts: seq<Action>): World
    requires Legal(w, acts)
    decreases |acts|
  {
    if acts == [] then w else Exec(Next(w, acts[0]), acts[1..])
  }

  function Opening(start: map<Account, int>): World {
    World(start, start, map[], map[])
  }

  // ----- conservation

  /** What one deduplicated pair of references is worth to the account. */
  function Share(e: External, amount: int): int {
    (if e.released then amount else 0) - (if e.debited then amount else 0)
  }

  function PayoutShare(e: PayoutEntry, a: Account): int {
    if e.account == a then Share(e.saga.ext, e.amount) else 0
  }

  function RefundShares(refunds: map<string, Books.Entry>): map<string, int> {
    map id | id in refunds :: Share(refunds[id].saga.ext, refunds[id].amount)
  }

  ghost function BookWorth(b: Books.Book): int {
    (if b.credited then b.row.payment.amount else 0) + Total(RefundShares(b.refunds))
  }

  ghost function BookShare(e: BookEntry, a: Account): int {
    if e.account == a then BookWorth(e.book) else 0
  }

  function PayoutShares(w: World, a: Account): map<string, int> {
    map id | id in w.payouts :: PayoutShare(w.payouts[id], a)
  }

  ghost function BookShares(w: World, a: Account): map<string, int> {
    map id | id in w.payments :: BookShare(w.payments[id], a)
  }

  /** Start plus credited cash-ins, minus refunds and payouts debited and not released. */
  ghost predicate Conserved(w: World, a: Account) {
    At(w.balance, a) == At(w.start, a) + Total(PayoutShares(w, a)) + Total(BookShares(w, a))
  }

  lemma PayoutMoves(e: PayoutEntry, act: Payouts.Action)
    requires Payouts.Enabled(e.saga, act)
    ensures Share(PayoutAfter(e, act).saga.ext, e.amount) == Share(e.saga.ext, e.amount) + PayoutCall(e, act)
  {
  }

  lemma RefundMoves(e: Books.Entry, act: Refunds.Action)
    requires Refunds.Enabled(e.saga, act)
    ensures Share(Refunds.Next(e.saga, act).ext, e.amount) == Share(e.saga.ext, e.amount) + RefundCall(e, act)
  {
  }

  lemma RefundSharesUpdate(refunds: map<string, Books.Entry>, id: string, e: Books.Entry)
    ensures Total(RefundShares(refunds[id := e])) == Total(RefundShares(refunds)) + Share(e.saga.ext, e.amount)
            - (if id in refunds then Share(refunds[id].saga.ext, refunds[id].amount) else 0)
  {
    assert RefundShares(refunds[id := e]) == RefundShares(refunds)[id := Share(e.saga.ext, e.amount)];
    TotalUpdate(RefundShares(refunds), id, Share(e.saga.ext, e.amount));
  }

  lemma RefundStepMoves(b: Books.Book, id: string, act: Refunds.Action)
    requires Books.Enabled(b, Books.RefundStep(id, act))
    ensures var u := Books.Next(b, Books.RefundStep(id, act));
            u.credited == b.credited && u.row.payment.amount == b.row.payment.amount
            && Total(RefundShares(u.refunds)) == Total(RefundShares(b.refunds)) + RefundCall(b.refunds[id], act)
  {
    var was := b.refunds[id];
    var saga := Refunds.Next(was.saga, act);
    RefundMoves(was, act);
    RefundSharesUpdate(b.refunds, id, Books.Entry(was.amount, saga));
    Books.RefundStepShape(b, id, act, saga);
  }

  lemma OpenRefundMoves(b: Books.Book, id: string, x: int)
    requires Books.Enabled(b, Books.OpenRefund(id, x))
    ensures var u := Books.Next(b, Books.OpenRefund(id, x));
            BookWorth(u) == BookWorth(b)
  {
    RefundSharesUpdate(b.refunds, id, Books.Entry(x, Refunds.Start()));
  }

  lemma BookMoves(e: BookEntry, act: Books.Action)
    requires Books.Enabled(e.book, act) && Books.CashInOk(e.book.row.payment, e.book.credited, e.book.creditOut, e.book.flushers)
    ensures BookWorth(BookAfter(e, act).book) == BookWorth(e.book) + BookCall(e, act)
  {
    match act {
      case Deliver(event) => Books.DeliverStatus(e.book.row, event);
      case OpenRefund(id, x) => OpenRefundMoves(e.book, id, x);
      case RefundStep(id, refund) => RefundStepMoves(e.book, id, refund);
      case _ =>
    }
  }

  lemma PayoutSharesUpdate(w: World, u: World, id: string, e: PayoutEntry, a: Account)
    requires u.payouts == w.payouts[id := e]
    ensures Total(PayoutShares(u, a)) == Total(PayoutShares(w, a)) + PayoutShare(e, a)
            - (if id in w.payouts then PayoutShare(w.payouts[id], a) else 0)
  {
    assert PayoutShares(u, a) == PayoutShares(w, a)[id := PayoutShare(e, a)];
    TotalUpdate(PayoutShares(w, a), id, PayoutShare(e, a));
  }

  lemma BookSharesUpdate(w: World, u: World, id: string, e: BookEntry, a: Account)
    requires u.payments == w.payments[id := e]
    ensures Total(BookShares(u, a)) == Total(BookShares(w, a)) + BookShare(e, a)
            - (if id in w.payments then BookShare(w.payments[id], a) else 0)
  {
    assert BookShares(u, a) == BookShares(w, a)[id := BookShare(e, a)];
    TotalUpdate(BookShares(w, a), id, BookShare(e, a));
  }

  /** A payout whose worth to its account moves by what the ledger booked. */
  lemma PayoutConserves(w: World, u: World, id: string, e: PayoutEntry, x: int, a: Account)
    requires Conserved(w, a)
    requires u == w.(payouts := w.payouts[id := e], balance := Pay(w.balance, e.account, x))
    requires PayoutShare(e, a) == (if id in w.payouts then PayoutShare(w.payouts[id], a) else 0) + (if e.account == a then x else 0)
    ensures Conserved(u, a)
  {
    PayoutSharesUpdate(w, u, id, e, a);
    assert BookShares(u, a) == BookShares(w, a);
  }

  lemma BookConserves(w: World, u: World, id: string, e: BookEntry, x: int, a: Account)
    requires Conserved(w, a)
    requires u == w.(payments := w.payments[id := e], balance := Pay(w.balance, e.account, x))
    requires BookShare(e, a) == (if id in w.payments then BookShare(w.payments[id], a) else 0) + (if e.account == a then x else 0)
    ensures Conserved(u, a)
  {
    BookSharesUpdate(w, u, id, e, a);
    assert PayoutShares(u, a) == PayoutShares(w, a);
  }

  lemma PayoutStepConserves(w: World, id: string, p: Payouts.Action, a: Account)
    requires Enabled(w, PayoutStep(id, p)) && Conserved(w, a)
    ensures Conserved(Next(w, PayoutStep(id, p)), a)
  {
    var e := w.payouts[id];
    PayoutMoves(e, p);
    PayoutConserves(w, Next(w, PayoutStep(id, p)), id, PayoutAfter(e, p), PayoutCall(e, p), a);
  }

  lemma PaymentStepConserves(w: World, id: string, b: Books.Action, a: Account)
    requires Enabled(w, PaymentStep(id, b)) && Conserved(w, a)
    requires Books.CashInOk(w.payments[id].book.row.payment, w.payments[id].book.credited, w.payments[id].book.creditOut, w.payments[id].book.flushers)
    ensures Conserved(Next(w, PaymentStep(id, b)), a)
  {
    var e := w.payments[id];
    BookMoves(e, b);
    BookConserves(w, Next(w, PaymentStep(id, b)), id, BookAfter(e, b), BookCall(e, b), a);
  }

  lemma OpenPayoutConserves(w: World, id: string, e: PayoutEntry, a: Account)
    requires Conserved(w, a) && id !in w.payouts && e.saga.ext == Payouts.Start().ext
    ensures Conserved(w.(payouts := w.payouts[id := e]), a)
  {
    var u := w.(payouts := w.payouts[id := e]);
    PayoutSharesUpdate(w, u, id, e, a);
    assert BookShares(u, a) == BookShares(w, a);
  }

  lemma OpenPaymentConserves(w: World, id: string, e: BookEntry, a: Account)
    requires Conserved(w, a) && id !in w.payments && !e.book.credited && e.book.refunds == map[]
    ensures Conserved(w.(payments := w.payments[id := e]), a)
  {
    var u := w.(payments := w.payments[id := e]);
    assert RefundShares(map[]) == map[];
    BookSharesUpdate(w, u, id, e, a);
    assert PayoutShares(u, a) == PayoutShares(w, a);
  }

  lemma StepConserves(w: World, act: Action, a: Account)
    requires Enabled(w, act) && Conserved(w, a) && BooksOk(w)
    ensures Conserved(Next(w, act), a)
  {
    match act {
      case OpenPayout(id, account, amount) => OpenPayoutConserves(w, id, PayoutEntry(account, amount, Payouts.Start()), a);
      case PayoutStep(id, p) => PayoutStepConserves(w, id, p, a);
      case OpenPayment(id, account, amount, binding, reference) =>
        OpenPaymentConserves(w, id, BookEntry(account, Books.Start(amount, binding, reference)), a);
      case PaymentStep(id, b) =>
        assert Books.Inv(w.payments[id].book);
        PaymentStepConserves(w, id, b, a);
    }
  }

  // ----- invariants of the parts, lifted

  ghost predicate BooksOk(w: World) {
    forall id :: id in w.payments ==> Books.Inv(w.payments[id].book)
  }

  ghost predicate PayoutsOk(w: World) {
    forall id :: id in w.payouts ==> Payouts.Inv(w.payouts[id].saga)
  }

  lemma PayoutKept(w: World, id: string, e: PayoutEntry)
    requires PayoutsOk(w) && Payouts.Inv(e.saga)
    ensures PayoutsOk(w.(payouts := w.payouts[id := e]))
  {
  }

  lemma BookKept(w: World, id: string, e: BookEntry)
    requires BooksOk(w) && Books.Inv(e.book)
    ensures BooksOk(w.(payments := w.payments[id := e]))
  {
  }

  lemma PayoutStepOk(w: World, id: string, p: Payouts.Action)
    requires Enabled(w, PayoutStep(id, p)) && BooksOk(w) && PayoutsOk(w)
    ensures BooksOk(Next(w, PayoutStep(id, p))) && PayoutsOk(Next(w, PayoutStep(id, p)))
  {
    var e := w.payouts[id];
    Payouts.StepInv(e.saga, p);
    PayoutKept(w, id, PayoutAfter(e, p));
    assert Next(w, PayoutStep(id, p)).payouts == w.payouts[id := PayoutAfter(e, p)];
  }

  lemma PaymentStepOk(w: World, id: string, b: Books.Action)
    requires Enabled(w, PaymentStep(id, b)) && BooksOk(w) && PayoutsOk(w)
    ensures BooksOk(Next(w, PaymentStep(id, b))) && PayoutsOk(Next(w, PaymentStep(id, b)))
  {
    var e := w.payments[id];
    Books.StepInv(e.book, b);
    BookKept(w, id, BookAfter(e, b));
    assert Next(w, PaymentStep(id, b)).payments == w.payments[id := BookAfter(e, b)];
  }

  lemma StepOk(w: World, act: Action)
    requires Enabled(w, act) && BooksOk(w) && PayoutsOk(w)
    ensures BooksOk(Next(w, act)) && PayoutsOk(Next(w, act))
  {
    match act {
      case OpenPayout(id, account, amount) =>
        Payouts.StartInv();
        PayoutKept(w, id, PayoutEntry(account, amount, Payouts.Start()));
      case PayoutStep(id, p) => PayoutStepOk(w, id, p);
      case OpenPayment(id, account, amount, binding, reference) =>
        Books.StartInv(amount, binding, reference);
        BookKept(w, id, BookEntry(account, Books.Start(amount, binding, reference)));
      case PaymentStep(id, b) => PaymentStepOk(w, id, b);
    }
  }

  lemma {:induction false} RunConserves(w: World, acts: seq<Action>, a: Account)
    requires Legal(w, acts) && Conserved(w, a) && BooksOk(w) && PayoutsOk(w)
    ensures Conserved(Exec(w, acts), a) && BooksOk(Exec(w, acts)) && PayoutsOk(Exec(w, acts))
    ensures Exec(w, acts).start == w.start
    decreases |acts|
  {
    if acts != [] {
      StepConserves(w, acts[0], a);
      StepOk(w, acts[0]);
      RunConserves(Next(w, acts[0]), acts[1..], a);
    }
  }

  /** In every reachable state, whatever the workers did, the balance of every account is its start plus
      credited cash-ins minus the refunds and payouts that were debited and not released. */
  lemma MoneyIsConserved(start: map<Account, int>, acts: seq<Action>, a: Account)
    requires Legal(Opening(start), acts)
    ensures var w := Exec(Opening(start), acts);
            Conserved(w, a) &&
            At(w.balance, a) == At(start, a) + Total(PayoutShares(w, a)) + Total(BookShares(w, a))
  {
    assert PayoutShares(Opening(start), a) == map[] && BookShares(Opening(start), a) == map[];
    RunConserves(Opening(start), acts, a);
  }

  // ----- what is stranded

  /** Money that a failed payout or refund still holds. */
  function PayoutStuck(e: PayoutEntry, a: Account): int {
    if e.account == a && PayoutTheorems.Stranded(e.saga) then e.amount else 0
  }

  function StuckAmounts(refunds: map<string, Books.Entry>): map<string, int> {
    map id | id in refunds :: if Refunds.Stranded(refunds[id].saga) then refunds[id].amount else 0
  }

  ghost function BookStuck(e: BookEntry, a: Account): int {
    if e.account == a then Total(StuckAmounts(e.book.refunds)) else 0
  }

  function PayoutsStuck(w: World, a: Account): map<string, int> {
    map id | id in w.payouts :: PayoutStuck(w.payouts[id], a)
  }

  ghost function BooksStuck(w: World, a: Account): map<string, int> {
    map id | id in w.payments :: BookStuck(w.payments[id], a)
  }

  ghost function Stuck(w: World, a: Account): int {
    Total(PayoutsStuck(w, a)) + Total(BooksStuck(w, a))
  }

  ghost predicate AnyPayoutStranded(payouts: map<string, PayoutEntry>) {
    exists id :: id in payouts && PayoutTheorems.Stranded(payouts[id].saga)
  }

  ghost predicate AnyRefundStranded(payments: map<string, BookEntry>) {
    exists id :: id in payments && Books.AnyStranded(payments[id].book.refunds)
  }

  ghost predicate AnyStranded(w: World) {
    AnyPayoutStranded(w.payouts) || AnyRefundStranded(w.payments)
  }

  predicate Strands(w: World, a: Action) {
    match a
    case PayoutStep(id, act) => id in w.payouts && PayoutTheorems.Strands(w.payouts[id].saga, act)
    case PaymentStep(id, act) => id in w.payments && Books.Strands(w.payments[id].book, act)
    case _ => false
  }

  lemma PayoutReplaced(payouts: map<string, PayoutEntry>, id: string, e: PayoutEntry)
    ensures AnyPayoutStranded(payouts[id := e]) <==> PayoutTheorems.Stranded(e.saga) || AnyPayoutStranded(payouts - {id})
  {
    var u, rest := payouts[id := e], payouts - {id};
    if PayoutTheorems.Stranded(e.saga) { assert u[id] == e; }
    forall k | k in rest ensures u[k] == rest[k] {}
    forall k | k in u ensures k == id || (k in rest && u[k] == rest[k]) {}
  }

  lemma BookReplaced(payments: map<string, BookEntry>, id: string, e: BookEntry)
    ensures AnyRefundStranded(payments[id := e]) <==> Books.AnyStranded(e.book.refunds) || AnyRefundStranded(payments - {id})
  {
    var u, rest := payments[id := e], payments - {id};
    if Books.AnyStranded(e.book.refunds) { assert u[id] == e; }
    forall k | k in rest ensures u[k] == rest[k] {}
    forall k | k in u ensures k == id || (k in rest && u[k] == rest[k]) {}
  }

  lemma PayoutStepStrands(payouts: map<string, PayoutEntry>, id: string, p: Payouts.Action)
    requires id in payouts && Payouts.Inv(payouts[id].saga) && Payouts.Enabled(payouts[id].saga, p)
    ensures AnyPayoutStranded(payouts[id := PayoutAfter(payouts[id], p)])
            <==> AnyPayoutStranded(payouts) || PayoutTheorems.Strands(payouts[id].saga, p)
  {
    PayoutTheorems.HowAPayoutStrands(payouts[id].saga, p);
    PayoutReplaced(payouts, id, PayoutAfter(payouts[id], p));
    SameEntry(payouts, id);
    PayoutReplaced(payouts, id, payouts[id]);
  }

  lemma PaymentStepStrands(payments: map<string, BookEntry>, id: string, b: Books.Action)
    requires id in payments && Books.SagasOk(payments[id].book.refunds) && Books.Enabled(payments[id].book, b)
    ensures AnyRefundStranded(payments[id := BookAfter(payments[id], b)])
            <==> AnyRefundStranded(payments) || Books.Strands(payments[id].book, b)
  {
    Books.StepStrands(payments[id].book, b);
    BookReplaced(payments, id, BookAfter(payments[id], b));
    SameEntry(payments, id);
    BookReplaced(payments, id, payments[id]);
  }

  lemma OpenStrands(w: World, a: Action)
    requires Enabled(w, a) && (a.OpenPayout? || a.OpenPayment?)
    ensures AnyStranded(Next(w, a)) <==> AnyStranded(w)
  {
    match a {
      case OpenPayout(id, account, amount) =>
        PayoutReplaced(w.payouts, id, PayoutEntry(account, amount, Payouts.Start()));
        assert w.payouts - {id} == w.payouts;
      case OpenPayment(id, account, amount, binding, reference) =>
        BookReplaced(w.payments, id, BookEntry(account, Books.Start(amount, binding, reference)));
        assert w.payments - {id} == w.payments;
    }
  }

  lemma StepStrands(w: World, a: Action)
    requires Enabled(w, a) && BooksOk(w) && PayoutsOk(w)
    ensures AnyStranded(Next(w, a)) <==> AnyStranded(w) || Strands(w, a)
  {
    match a {
      case PayoutStep(id, p) => PayoutStepStrands(w.payouts, id, p);
      case PaymentStep(id, b) =>
        assert Books.Inv(w.payments[id].book);
        PaymentStepStrands(w.payments, id, b);
      case _ => OpenStrands(w, a);
    }
  }

  /** Somewhere in the run a step strands a payout or a refund. */
  ghost predicate HasStrandingStep(w: World, acts: seq<Action>)
    requires Legal(w, acts)
    decreases |acts|
  {
    acts != [] && (Strands(w, acts[0]) || HasStrandingStep(Next(w, acts[0]), acts[1..]))
  }

  lemma {:induction false} RunStrands(w: World, acts: seq<Action>)
    requires Legal(w, acts) && BooksOk(w) && PayoutsOk(w)
    ensures AnyStranded(Exec(w, acts)) <==> AnyStranded(w) || HasStrandingStep(w, acts)
    decreases |acts|
  {
    if acts != [] {
      StepStrands(w, acts[0]);
      StepOk(w, acts[0]);
      RunStrands(Next(w, acts[0]), acts[1..]);
    }
  }

  // ----- and when no work is pending

  predicate RefundsFinished(refunds: map<string, Books.Entry>) {
    forall id :: id in refunds ==> Refunds.Ends(refunds[id].saga.rec.status)
  }

  predicate PayoutFinished(s: PayoutStatus.Status) {
    s == PayoutStatus.Confirmed || PayoutTheorems.Terminal(s)
  }

  /** Every payout and refund has ended, and every cash-in row was sent. */
  predicate NoWork(w: World) {
    && (forall id :: id in w.payouts ==> PayoutFinished(w.payouts[id].saga.rec.status))
    && (forall id :: id in w.payments ==> RefundsFinished(w.payments[id].book.refunds)
                                          && w.payments[id].book.row.payment.cashIn != Lifecycle.CashIn(false))
  }

  /** What the statuses alone say the account is owed. */
  function PayoutDue(e: PayoutEntry, a: Account): int {
    if e.account == a && e.saga.rec.status == PayoutStatus.Confirmed then -e.amount else 0
  }

  ghost function BookDue(e: BookEntry, a: Account): int {
    if e.account == a
    then (if Books.Refundable(e.book.row.payment.status) then e.book.row.payment.amount else 0) - Books.Returned(e.book.refunds)
    else 0
  }

  lemma PayoutSettles(e: PayoutEntry, a: Account)
    requires Payouts.Inv(e.saga) && PayoutFinished(e.saga.rec.status)
    ensures PayoutShare(e, a) == PayoutDue(e, a) - PayoutStuck(e, a)
  {
    PayoutTheorems.SettledUnlessStranded(e.saga);
    PayoutTheorems.StrandedHolds(e.saga);
  }

  lemma {:induction false} TotalDifference<K>(m: map<K, int>, n: map<K, int>, d: map<K, int>)
    requires m.Keys == n.Keys == d.Keys && forall k :: k in m ==> m[k] == n[k] - d[k]
    ensures Total(m) == Total(n) - Total(d)
    decreases |m|
  {
    if m != map[] {
      var k :| k in m;
      TotalRemove(m, k);
      TotalRemove(n, k);
      TotalRemove(d, k);
      TotalDifference(m - {k}, n - {k}, d - {k});
    }
  }

  lemma {:induction false} TotalOpposite(m: map<string, int>, n: map<string, int>)
    requires m.Keys == n.Keys && forall k :: k in m ==> m[k] == -n[k]
    ensures Total(m) == -Total(n)
    decreases |m|
  {
    if m != map[] {
      var k :| k in m;
      TotalRemove(m, k);
      TotalRemove(n, k);
      TotalOpposite(m - {k}, n - {k});
    }
  }

  lemma RefundSettles(e: Books.Entry)
    requires Refunds.Inv(e.saga) && Refunds.Ends(e.saga.rec.status)
    ensures Share(e.saga.ext, e.amount) == -(if Books.Done(e.saga.rec.status) then e.amount else 0) - (if Refunds.Stranded(e.saga) then e.amount else 0)
  {
    Refunds.SettledUnlessStranded(e.saga);
    Refunds.StrandedHolds(e.saga);
  }

  lemma RefundsSettle(refunds: map<string, Books.Entry>)
    requires Books.SagasOk(refunds) && RefundsFinished(refunds)
    ensures Total(RefundShares(refunds)) == -Books.Returned(refunds) - Total(StuckAmounts(refunds))
  {
    var shares, done, stuck := RefundShares(refunds), Books.Amounts(refunds, Books.Done), StuckAmounts(refunds);
    var minus := map id | id in refunds :: -done[id];
    forall id | id in refunds ensures shares[id] == minus[id] - stuck[id] {
      RefundSettles(refunds[id]);
    }
    TotalDifference(shares, minus, stuck);
    TotalOpposite(minus, done);
  }

  lemma BookSettles(e: BookEntry, a: Account)
    requires Books.Inv(e.book) && RefundsFinished(e.book.refunds) && e.book.row.payment.cashIn != Lifecycle.CashIn(false)
    ensures BookShare(e, a) == BookDue(e, a) - BookStuck(e, a)
  {
    RefundsSettle(e.book.refunds);
  }

  function PayoutDues(w: World, a: Account): map<string, int> {
    map id | id in w.payouts :: PayoutDue(w.payouts[id], a)
  }

  ghost function BookDues(w: World, a: Account): map<string, int> {
    map id | id in w.payments :: BookDue(w.payments[id], a)
  }

  /** When nothing is pending, whatever the workers did: every balance is start plus confirmed or refunded payments,
      minus succeeded refunds, minus confirmed payouts, minus exactly what stranded payouts and refunds hold. */
  lemma SettledBalance(start: map<Account, int>, acts: seq<Action>, a: Account)
    requires Legal(Opening(start), acts) && NoWork(Exec(Opening(start), acts))
    ensures var w := Exec(Opening(start), acts);
            At(w.balance, a) == At(start, a) + Total(PayoutDues(w, a)) + Total(BookDues(w, a)) - Stuck(w, a)
  {
    var w := Exec(Opening(start), acts);
    assert PayoutShares(Opening(start), a) == map[] && BookShares(Opening(start), a) == map[];
    RunConserves(Opening(start), acts, a);
    PayoutsDue(w, a);
    BooksDue(w, a);
  }

  /** Something is stranded exactly if one of the three stranding steps was taken; if none was, nothing is missing. */
  lemma NothingMissingExactly(start: map<Account, int>, acts: seq<Action>)
    requires Legal(Opening(start), acts)
    ensures AnyStranded(Exec(Opening(start), acts)) <==> HasStrandingStep(Opening(start), acts)
    ensures !HasStrandingStep(Opening(start), acts) ==> forall a :: Stuck(Exec(Opening(start), acts), a) == 0
  {
    RunStrands(Opening(start), acts);
    var w := Exec(Opening(start), acts);
    if !AnyStranded(w) {
      forall a ensures Stuck(w, a) == 0 { NothingStuck(w, a); }
    }
  }

  lemma PayoutsDue(w: World, a: Account)
    requires PayoutsOk(w) && NoWork(w)
    ensures Total(PayoutShares(w, a)) == Total(PayoutDues(w, a)) - Total(PayoutsStuck(w, a))
  {
    forall id | id in w.payouts ensures PayoutShare(w.payouts[id], a) == PayoutDue(w.payouts[id], a) - PayoutStuck(w.payouts[id], a) {
      PayoutSettles(w.payouts[id], a);
    }
    TotalDifference(PayoutShares(w, a), PayoutDues(w, a), PayoutsStuck(w, a));
  }

  lemma BooksDue(w: World, a: Account)
    requires BooksOk(w) && NoWork(w)
    ensures Total(BookShares(w, a)) == Total(BookDues(w, a)) - Total(BooksStuck(w, a))
  {
    forall id | id in w.payments ensures BookShare(w.payments[id], a) == BookDue(w.payments[id], a) - BookStuck(w.payments[id], a) {
      BookSettles(w.payments[id], a);
    }
    TotalDifference(BookShares(w, a), BookDues(w, a), BooksStuck(w, a));
  }

  lemma {:induction false} TotalOfZeros(m: map<string, int>)
    requires forall k :: k in m ==> m[k] == 0
    ensures Total(m) == 0
    decreases |m|
  {
    if m != map[] {
      var k :| k in m;
      TotalRemove(m, k);
      TotalOfZeros(m - {k});
    }
  }

  lemma NothingStuck(w: World, a: Account)
    requires !AnyStranded(w)
    ensures Stuck(w, a) == 0
  {
    forall id | id in w.payments ensures BookStuck(w.payments[id], a) == 0 {
      assert !Books.AnyStranded(w.payments[id].book.refunds);
      TotalOfZeros(StuckAmounts(w.payments[id].book.refunds));
    }
    TotalOfZeros(PayoutsStuck(w, a));
    TotalOfZeros(BooksStuck(w, a));
  }
}
