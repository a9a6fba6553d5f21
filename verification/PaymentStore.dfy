/** The payment and refund tables as a mutable store: ApplyProviderEvent
    (internal/adapters/postgres/store.go), CreateRefund and TransitionRefund
    (internal/adapters/postgres/refunds.go). Each method is one transaction: an error rolls it back. */
module PaymentStore {
  import opened Common
  import Lifecycle = PaymentLifecycle
  import Refunds = RefundSaga
  import Books = PaymentBook

  datatype EventResult = Duplicate | Seen(changed: bool, status: Lifecycle.Status)

  datatype Owner = Owner(account: string, merchant: string)

  /** A caller sees a payment by merchant, or by account if no merchant is named. */
  predicate Sees(caller: Owner, owner: Owner) {
    (caller.merchant != "" && owner.merchant == caller.merchant) || (caller.merchant == "" && owner.account == caller.account)
  }

  datatype RefundRow = RefundRow(payment: string, amount: int, rec: Refunds.Record)

  /** A refund's idempotency key, unique per merchant. */
  datatype RefundKey = RefundKey(merchant: string, key: string)

  datatype KeyRow = KeyRow(refund: string, hash: string)

  datatype CreateResult = Created(id: string) | Replayed(id: string)

  /** The refunds of one payment. */
  function Of(refunds: map<string, RefundRow>, payment: string): map<string, RefundRow> {
    map id | id in refunds && refunds[id].payment == payment :: refunds[id]
  }

  function Weights(refunds: map<string, RefundRow>, payment: string, counts: Refunds.Status -> bool): map<string, int> {
    map id | id in refunds && refunds[id].payment == payment :: if counts(refunds[id].rec.status) then refunds[id].amount else 0
  }

  ghost function Sum(refunds: map<string, RefundRow>, payment: string, counts: Refunds.Status -> bool): int {
    Total(Weights(refunds, payment, counts))
  }

  /** The rows of a payment and the refunds of its book, seen side by side. */
  predicate Agree(refunds: map<string, RefundRow>, payment: string, book: map<string, Books.Entry>) {
    && Of(refunds, payment).Keys == book.Keys
    && forall id :: id in book ==> refunds[id].amount == book[id].amount && refunds[id].rec == book[id].saga.rec
  }

  /** The sums the SQL computes are the sums the cap and closure theorems speak about. */
  lemma SumsAgree(refunds: map<string, RefundRow>, payment: string, book: map<string, Books.Entry>)
    requires Agree(refunds, payment, book)
    ensures Sum(refunds, payment, Books.Holds) == Books.Held(book)
    ensures Sum(refunds, payment, Books.Done) == Books.Returned(book)
  {
    assert forall id :: id in book <==> id in Of(refunds, payment);
    assert Weights(refunds, payment, Books.Holds) == Books.Amounts(book, Books.Holds);
    assert Weights(refunds, payment, Books.Done) == Books.Amounts(book, Books.Done);
  }

  /** The tables a payment and its refunds live in. */
  datatype Tables = Tables(payments: map<string, Lifecycle.Payment>, inbox: set<string>, refunds: map<string, RefundRow>)

  /** The inbox transaction. */
  function AfterEvent(t: Tables, payment: string, e: Lifecycle.Event): Tables
    requires payment in t.payments
  {
    var u := Lifecycle.Deliver(Lifecycle.Inboxed(t.payments[payment], t.inbox), e);
    t.(payments := t.payments[payment := u.payment], inbox := u.inbox)
  }

  /** The insertion of a refund. */
  function AfterOpen(t: Tables, payment: string, id: string, amount: int): Tables {
    t.(refunds := t.refunds[id := RefundRow(payment, amount, Refunds.NewRecord())])
  }

  /** The refund transaction: a success closes the payment when the succeeded refunds reach its amount. */
  ghost function AfterTransition(t: Tables, id: string, expected: Refunds.Status, next: Refunds.Status, f: Refunds.Fields, now: int): Tables
    requires id in t.refunds && t.refunds[id].payment in t.payments
  {
    var row := t.refunds[id];
    match Refunds.Transition(row.rec, expected, next, f, now)
    case Err(_) => t
    case Ok(rec) =>
      var refunds, p := t.refunds[id := row.(rec := rec)], t.payments[row.payment];
      var closes := next == Refunds.Succeeded && Sum(refunds, row.payment, Books.Done) >= p.amount;
      t.(refunds := refunds, payments := if closes then t.payments[row.payment := p.(status := Lifecycle.Refunded)] else t.payments)
  }

  class Store {
    var payments: map<string, Lifecycle.Payment>
    var owners: map<string, Owner>
    var inbox: map<string, bool>            // provider event id -> changed_state
    var refunds: map<string, RefundRow>
    var refundKeys: map<RefundKey, KeyRow>

    predicate Valid()
      reads this
    {
      && payments.Keys == owners.Keys
      && (forall id :: id in refunds ==> refunds[id].payment in payments)
      && (forall k :: k in refundKeys ==> refundKeys[k].refund in refunds)
    }

    constructor ()
      ensures Valid() && payments == map[] && inbox == map[] && refunds == map[]
    {
      payments, owners, inbox, refunds, refundKeys := map[], map[], map[], map[], map[];
    }

    function Now(): Tables
      reads this
    {
      Tables(payments, inbox.Keys, refunds)
    }

    /** The inbox insert, the transition, the cash-in row and the webhook commit together or not at all. */
    method ApplyProviderEvent(id: string, e: Lifecycle.Event) returns (r: Result<EventResult>)
      requires Valid()
      modifies this`payments, this`inbox
      ensures Valid()
      ensures e.id in old(inbox) <==> r == Ok(Duplicate)
      ensures e.id !in old(inbox) && id !in old(payments) ==> r == Err(NotFound)
      ensures r.Err? || r == Ok(Duplicate) ==> payments == old(payments) && inbox == old(inbox)
      ensures id in old(payments) ==> Now() == AfterEvent(old(Now()), id, e)
      ensures r.Ok? && r.value.Seen? ==>
                && id in payments && e.id in inbox && r.value.status == payments[id].status
                && r.value.changed == inbox[e.id] == (payments[id].version != old(payments)[id].version)
                && (!r.value.changed ==> payments == old(payments))
      ensures r.Ok? && r.value.Seen? && r.value.changed ==>
                var p, q := old(payments)[id], payments[id];
                && p.binding == e.binding && Lifecycle.Means(e.word, q.status) && q.version == p.version + 1
                && q.reference == (if e.reference != "" then e.reference else p.reference)
                && q.amount == p.amount && q.binding == p.binding
                && q.cashIn == (if e.word == Lifecycle.SaysConfirmed && p.cashIn.NoCashIn? then Lifecycle.CashIn(false) else p.cashIn)
      ensures e.id !in old(inbox) && id in old(payments) ==>
                (r == Err(Conflict) <==> old(payments)[id].binding != e.binding || e.word == Lifecycle.Unnamed)
    {
      if e.id in inbox {
        assert id in payments ==> payments[id := payments[id]] == payments;
        return Ok(Duplicate);
      }
      if id !in payments {
        return Err(NotFound);
      }
      var p := payments[id];
      if p.binding != e.binding {
        assert payments[id := payments[id]] == payments;
        return Err(Conflict);
      }
      var next := Lifecycle.PublicStatusFromProvider(e.word);
      Lifecycle.WordsMean(e.word, if next.Some? then next.value else Lifecycle.Started);
      if next.None? {
        assert payments[id := payments[id]] == payments;
        return Err(Conflict);
      }
      if next.value == p.status || !Lifecycle.PaymentTransitionAllowed(p.status, next.value) {
        inbox := inbox[e.id := false];
        assert payments[id := payments[id]] == payments;
        return Ok(Seen(false, p.status));
      }
      var previous := p.status;
      p := p.(status := next.value, version := p.version + 1, reference := Coalesce(e.reference, p.reference));
      if next.value == Lifecycle.Confirmed && p.cashIn.NoCashIn? {
        p := p.(cashIn := Lifecycle.CashIn(false));
      }
      var hook := Lifecycle.Hook(Lifecycle.MerchantEventId(e.id), Some(previous), p.status, p.version);
      p := p.(outbox := Lifecycle.InsertHook(p.outbox, hook));
      payments := payments[id := p];
      inbox := inbox[e.id := true];
      return Ok(Seen(true, p.status));
    }

    /** SELECT SUM(amount) over the refunds of one payment whose status counts. */
    method Add(payment: string, counts: Refunds.Status -> bool) returns (sum: int)
      ensures sum == Sum(refunds, payment, counts)
    {
      sum := 0;
      var left := set id | id in refunds && refunds[id].payment == payment;
      ghost var weights := Weights(refunds, payment, counts);
      ghost var rest := weights;
      while left != {}
        invariant left == rest.Keys && rest.Keys <= weights.Keys
        invariant forall id :: id in rest ==> rest[id] == weights[id]
        invariant sum + Total(rest) == Total(weights)
        decreases left
      {
        var id :| id in left;
        TotalRemove(rest, id);
        left := left - {id};
        rest := rest - {id};
        if counts(refunds[id].rec.status) { sum := sum + refunds[id].amount; }
      }
      assert rest == map[];
    }

    /** CreateRefund: replay or conflict on a known key; otherwise the payment must be refundable and have
        room for a positive amount. `id` is the refund id derived from merchant and key. */
    method CreateRefund(caller: Owner, payment: string, key: string, hash: string, id: string, amount: int)
      returns (r: Result<CreateResult>)
      requires Valid()
      modifies this`refunds, this`refundKeys
      ensures Valid()
      ensures r.Err? || r.value.Replayed? ==> refunds == old(refunds) && refundKeys == old(refundKeys)
      ensures payment !in payments || !Sees(caller, owners[payment]) ==> r == Err(NotFound)
      ensures r.Ok? && caller.merchant != "" ==> owners[payment].merchant == caller.merchant
      ensures r.Ok? && caller.merchant == "" ==> owners[payment].account == caller.account
      ensures payment in payments && caller.merchant != "" && owners[payment].merchant == caller.merchant ==> r != Err(NotFound)
      ensures payment in payments && caller.merchant == "" && owners[payment].account == caller.account ==> r != Err(NotFound)
      ensures payment in payments && Sees(caller, owners[payment]) ==>
                var k := RefundKey(owners[payment].merchant, key);
                var fits := && Books.Refundable(payments[payment].status)
                            && 0 < amount <= payments[payment].amount - Sum(old(refunds), payment, Books.Holds);
                if k in old(refundKeys)
                then r == if old(refundKeys)[k].hash == hash then Ok(Replayed(old(refundKeys)[k].refund)) else Err(Conflict)
                else if !fits then r == Err(Invalid)
                else if id in old(refunds) then r == Err(Conflict)
                else && r == Ok(Created(id))
                     && Now() == AfterOpen(old(Now()), payment, id, amount)
                     && refundKeys == old(refundKeys)[k := KeyRow(id, hash)]
    {
      if payment !in payments || !Sees(caller, owners[payment]) {
        return Err(NotFound);
      }
      var p := payments[payment];
      var k := RefundKey(owners[payment].merchant, key);
      if k in refundKeys {
        if refundKeys[k].hash != hash {
          return Err(Conflict);
        }
        return Ok(Replayed(refundKeys[k].refund));
      }
      if p.status != Lifecycle.Confirmed && p.status != Lifecycle.Refunded {
        return Err(Invalid);
      }
      var held := Add(payment, Books.Holds);
      if !(amount > 0 && amount <= p.amount - held) {
        return Err(Invalid);
      }
      if id in refunds {
        return Err(Conflict);   // the primary key rejects the insert
      }
      refunds := refunds[id := RefundRow(payment, amount, Refunds.NewRecord())];
      refundKeys := refundKeys[k := KeyRow(id, hash)];
      return Ok(Created(id));
    }

    /** TransitionRefund: compare-and-set on the refund; a success closes the payment when the succeeded
        refunds, this one included, reach its amount. The payment's version is not touched. */
    method TransitionRefund(id: string, expected: Refunds.Status, next: Refunds.Status, f: Refunds.Fields, now: int)
      returns (r: Result<Refunds.Record>)
      requires Valid()
      modifies this`refunds, this`payments
      ensures Valid()
      ensures r == if id in old(refunds) then Refunds.Transition(old(refunds)[id].rec, expected, next, f, now) else Err(Conflict)
      ensures id in old(refunds) ==> Now() == AfterTransition(old(Now()), id, expected, next, f, now)
      ensures id !in old(refunds) ==> Now() == old(Now())
    {
      if id !in refunds {
        return Err(Conflict);
      }
      var row := refunds[id];
      r := Refunds.Transition(row.rec, expected, next, f, now);
      if r.Err? {
        return;
      }
      refunds := refunds[id := row.(rec := r.value)];
      if next == Refunds.Succeeded {
        var returned := Add(row.payment, Books.Done);
        if returned >= payments[row.payment].amount {
          payments := payments[row.payment := payments[row.payment].(status := Lifecycle.Refunded)];
        }
      }
    }
  }
}
