/** The tables of PaymentStore and the balance outbox of CashInWorker move as the payment books do: each transaction
    on them is a step of the book of the payment it concerns, and no step of any other. What is proved of all runs of
    a book is therefore true of the tables. */
module PaymentRefinement {
  import opened Common
  import opened Parties
  import opened PaymentStore
  import Lifecycle = PaymentLifecycle
  import Refunds = RefundSaga
  import Books = PaymentBook
  import CashIns = CashInWorker

  /** The book's payment row and refund rows are those of the tables. The inbox of the tables also holds the events of
      other payments. */
  predicate Shows(t: Tables, payment: string, b: Books.Book) {
    && payment in t.payments && t.payments[payment] == b.row.payment && b.row.inbox <= t.inbox
    && Agree(t.refunds, payment, b.refunds)
  }

  // ----- provider events

  lemma EventIsAStep(t: Tables, payment: string, b: Books.Book, e: Lifecycle.Event)
    requires Shows(t, payment, b)
    ensures Shows(AfterEvent(t, payment, e), payment, if e.id in t.inbox then b else Books.Next(b, Books.Deliver(e)))
  {
  }

  lemma EventElsewhere(t: Tables, other: string, payment: string, b: Books.Book, e: Lifecycle.Event)
    requires Shows(t, payment, b) && other in t.payments && other != payment
    ensures Shows(AfterEvent(t, other, e), payment, b)
  {
  }

  // ----- new refunds

  lemma OpenAgrees(refunds: map<string, RefundRow>, payment: string, book: map<string, Books.Entry>, id: string, amount: int)
    requires Agree(refunds, payment, book) && id !in refunds
    ensures id !in book
    ensures Agree(refunds[id := RefundRow(payment, amount, Refunds.NewRecord())], payment, book[id := Books.Entry(amount, Refunds.Start())])
  {
    var u, v := refunds[id := RefundRow(payment, amount, Refunds.NewRecord())], book[id := Books.Entry(amount, Refunds.Start())];
    assert id !in Of(refunds, payment);
    assert Of(u, payment).Keys == Of(refunds, payment).Keys + {id};
  }

  /** What CreateRefund accepts, the book accepts. */
  lemma OpenIsAStep(t: Tables, payment: string, b: Books.Book, id: string, amount: int)
    requires Shows(t, payment, b) && id !in t.refunds && Books.Refundable(t.payments[payment].status)
    requires 0 < amount <= t.payments[payment].amount - Sum(t.refunds, payment, Books.Holds)
    ensures Books.Enabled(b, Books.OpenRefund(id, amount))
    ensures Shows(AfterOpen(t, payment, id, amount), payment, Books.Next(b, Books.OpenRefund(id, amount)))
  {
    SumsAgree(t.refunds, payment, b.refunds);
    OpenAgrees(t.refunds, payment, b.refunds, id, amount);
  }

  lemma OpenElsewhere(t: Tables, other: string, payment: string, b: Books.Book, id: string, amount: int)
    requires Shows(t, payment, b) && other != payment && id !in t.refunds
    ensures Shows(AfterOpen(t, other, id, amount), payment, b)
  {
    assert Of(AfterOpen(t, other, id, amount).refunds, payment) == Of(t.refunds, payment);
  }

  // ----- refund transitions

  lemma RowAgrees(refunds: map<string, RefundRow>, payment: string, book: map<string, Books.Entry>, id: string, saga: Refunds.Refund)
    requires Agree(refunds, payment, book) && id in book
    ensures id in refunds && refunds[id].payment == payment
    ensures Agree(refunds[id := refunds[id].(rec := saga.rec)], payment, book[id := Books.Entry(book[id].amount, saga)])
  {
    assert id in Of(refunds, payment);
    assert Of(refunds[id := refunds[id].(rec := saga.rec)], payment).Keys == Of(refunds, payment).Keys;
  }

  /** The compare-and-set of a worker in flight, closing of the payment included. */
  lemma TransitionIsAStep(t: Tables, payment: string, b: Books.Book, id: string, w: nat, now: int)
    requires Shows(t, payment, b)
    requires id in b.refunds && w in b.refunds[id].saga.workers && b.refunds[id].saga.workers[w].Ready?
    ensures id in t.refunds && t.refunds[id].payment == payment
    ensures var ph, act := b.refunds[id].saga.workers[w], Books.RefundStep(id, Refunds.Cas(w, now));
            Books.Enabled(b, act) && Shows(AfterTransition(t, id, ph.expected, ph.next, ph.f, now), payment, Books.Next(b, act))
  {
    assert id in Of(t.refunds, payment);
    if b.refunds[id].saga.rec.status == b.refunds[id].saga.workers[w].expected {
      TransitionHits(t, payment, b, id, w, now);
    } else {
      TransitionMisses(t, payment, b, id, w, now);
    }
  }

  lemma TransitionMisses(t: Tables, payment: string, b: Books.Book, id: string, w: nat, now: int)
    requires Shows(t, payment, b) && id in b.refunds && w in b.refunds[id].saga.workers && b.refunds[id].saga.workers[w].Ready?
    requires b.refunds[id].saga.rec.status != b.refunds[id].saga.workers[w].expected
    ensures id in t.refunds && t.refunds[id].payment == payment
    ensures var ph, act := b.refunds[id].saga.workers[w], Books.RefundStep(id, Refunds.Cas(w, now));
            Shows(AfterTransition(t, id, ph.expected, ph.next, ph.f, now), payment, Books.Next(b, act))
  {
    var was := b.refunds[id].saga;
    var saga := was.(workers := was.workers - {w});
    RowAgrees(t.refunds, payment, b.refunds, id, saga);
    Books.RefundStepShape(b, id, Refunds.Cas(w, now), saga);
    SameEntry(t.refunds, id);
  }

  lemma TransitionHits(t: Tables, payment: string, b: Books.Book, id: string, w: nat, now: int)
    requires Shows(t, payment, b)
    requires id in b.refunds && w in b.refunds[id].saga.workers && b.refunds[id].saga.workers[w].Ready?
    requires b.refunds[id].saga.rec.status == b.refunds[id].saga.workers[w].expected
    ensures id in t.refunds && t.refunds[id].payment == payment
    ensures var ph, act := b.refunds[id].saga.workers[w], Books.RefundStep(id, Refunds.Cas(w, now));
            Shows(AfterTransition(t, id, ph.expected, ph.next, ph.f, now), payment, Books.Next(b, act))
  {
    var was := b.refunds[id].saga;
    var ph, saga := was.workers[w], Refunds.Next(was, Refunds.Cas(w, now));
    RowAgrees(t.refunds, payment, b.refunds, id, saga);
    Books.RefundStepShape(b, id, Refunds.Cas(w, now), saga);
    SumsAgree(t.refunds[id := t.refunds[id].(rec := saga.rec)], payment, b.refunds[id := Books.Entry(b.refunds[id].amount, saga)]);
    assert Refunds.Transition(t.refunds[id].rec, ph.expected, ph.next, ph.f, now) == Ok(saga.rec);
  }

  /** Every other step of a refund leaves the tables alone. */
  lemma CallIsAStep(t: Tables, payment: string, b: Books.Book, id: string, act: Refunds.Action)
    requires Shows(t, payment, b) && Books.Enabled(b, Books.RefundStep(id, act)) && !act.Cas?
    ensures Shows(t, payment, Books.Next(b, Books.RefundStep(id, act)))
  {
    var saga := Refunds.Next(b.refunds[id].saga, act);
    Books.RefundStepShape(b, id, act, saga);
    RowAgrees(t.refunds, payment, b.refunds, id, saga);
    assert saga.rec == b.refunds[id].saga.rec == t.refunds[id].rec;
    SameEntry(t.refunds, id);
  }

  lemma TransitionElsewhere(t: Tables, payment: string, b: Books.Book, id: string, expected: Refunds.Status, next: Refunds.Status, f: Refunds.Fields, now: int)
    requires Shows(t, payment, b) && id in t.refunds && t.refunds[id].payment in t.payments && t.refunds[id].payment != payment
    ensures Shows(AfterTransition(t, id, expected, next, f, now), payment, b)
  {
    assert Of(AfterTransition(t, id, expected, next, f, now).refunds, payment) == Of(t.refunds, payment);
  }

  // ----- the theorems about books, told of the tables

  /** Cap and exact closure, as sums over the refunds table. */
  lemma TablesAreCapped(t: Tables, payment: string, b: Books.Book)
    requires Shows(t, payment, b) && Books.Inv(b)
    ensures var p := t.payments[payment];
            && Sum(t.refunds, payment, Books.Holds) <= (if p.amount > 0 then p.amount else 0)
            && (p.status == Lifecycle.Refunded <==> p.amount > 0 && Sum(t.refunds, payment, Books.Done) == p.amount)
            && (p.status == Lifecycle.Refunded ==> Sum(t.refunds, payment, Books.Holds) == p.amount)
  {
    SumsAgree(t.refunds, payment, b.refunds);
    Books.ReturnedWithinHeld(b.refunds);
  }

  // ----- the cash-in row

  /** The outbox row of a payment and the ledger's record of it. */
  predicate ShowsCashIn(s: CashIns.State, row: CashIns.RowId, b: Books.Book) {
    && row in s.rows && b.row.payment.cashIn == Lifecycle.CashIn(s.rows[row].sent)
    && s.rows[row].amount == b.row.payment.amount && (row in s.credited <==> b.credited)
  }

  /** What the loop of flush does with one claimed row. */
  function FlushSteps(w: nat, out: LedgerOutcome): seq<Books.Action> {
    if out.Applied? then [Books.ClaimCashIn(w), Books.CreditCashIn(w, out), Books.MarkSent(w)]
    else [Books.ClaimCashIn(w), Books.CreditCashIn(w, out)]
  }

  lemma Two(b: Books.Book, x: Books.Action, y: Books.Action)
    requires Books.Enabled(b, x) && Books.Enabled(Books.Next(b, x), y)
    ensures Books.Legal(b, [x, y]) && Books.Exec(b, [x, y]) == Books.Next(Books.Next(b, x), y)
  {
    Books.One(b, x);
    Books.One(Books.Next(b, x), y);
    Books.RunOn(b, [x], [y]);
    assert [x] + [y] == [x, y];
  }

  lemma Three(b: Books.Book, x: Books.Action, y: Books.Action, z: Books.Action)
    requires Books.Enabled(b, x) && Books.Enabled(Books.Next(b, x), y) && Books.Enabled(Books.Next(Books.Next(b, x), y), z)
    ensures Books.Legal(b, [x, y, z]) && Books.Exec(b, [x, y, z]) == Books.Next(Books.Next(Books.Next(b, x), y), z)
  {
    Books.One(b, x);
    Two(Books.Next(b, x), y, z);
    Books.RunOn(b, [x], [y, z]);
    assert [x] + [y, z] == [x, y, z];
  }

  /** Flushing a payment's row is a run of its book: claim, credit, and mark if the ledger answered. */
  lemma FlushIsARun(s: CashIns.State, row: CashIns.RowId, b: Books.Book, w: nat, out: LedgerOutcome, now: int)
    requires ShowsCashIn(s, row, b) && !s.rows[row].sent && w !in b.flushers && !out.Insufficient?
    ensures Books.Legal(b, FlushSteps(w, out))
    ensures ShowsCashIn(CashIns.FlushOne(s, row, out, now), row, Books.Exec(b, FlushSteps(w, out)))
  {
    if out.Applied? {
      Three(b, Books.ClaimCashIn(w), Books.CreditCashIn(w, out), Books.MarkSent(w));
    } else {
      Two(b, Books.ClaimCashIn(w), Books.CreditCashIn(w, out));
    }
  }

  lemma FlushElsewhere(s: CashIns.State, other: CashIns.RowId, row: CashIns.RowId, b: Books.Book, out: LedgerOutcome, now: int)
    requires ShowsCashIn(s, row, b) && other in s.rows && other != row
    ensures ShowsCashIn(CashIns.FlushOne(s, other, out, now), row, b)
  {
  }

  /** A whole batch: the book of a row in it makes one such run, every other book stands still. */
  lemma {:induction false} BatchIsARun(s: CashIns.State, ids: seq<CashIns.RowId>, outs: map<CashIns.RowId, LedgerOutcome>, now: int, n: nat,
                                       row: CashIns.RowId, b: Books.Book, w: nat)
    requires n <= |ids| && forall i :: 0 <= i < |ids| ==> ids[i] in s.rows && ids[i] in outs && !outs[ids[i]].Insufficient?
    requires forall i, j :: 0 <= i < j < |ids| ==> ids[i] != ids[j]
    requires ShowsCashIn(s, row, b) && w !in b.flushers && (row in ids ==> !s.rows[row].sent)
    ensures var steps := if row in ids[..n] then FlushSteps(w, outs[row]) else [];
            Books.Legal(b, steps) && ShowsCashIn(CashIns.FlushSome(s, ids, outs, now, n), row, Books.Exec(b, steps))
  {
    if n > 0 {
      BatchIsARun(s, ids, outs, now, n - 1, row, b, w);
      var before, id := CashIns.FlushSome(s, ids, outs, now, n - 1), ids[n - 1];
      assert ids[..n] == ids[..n - 1] + [id];
      if id == row {
        assert row !in ids[..n - 1];
        CashIns.Untouched(s, ids, outs, now, n - 1);
        FlushIsARun(before, row, b, w, outs[row], now);
      } else {
        FlushElsewhere(before, id, row, Books.Exec(b, if row in ids[..n - 1] then FlushSteps(w, outs[row]) else []), outs[id], now);
      }
    }
  }
}
