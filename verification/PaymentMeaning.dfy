/** What a payment's status, webhooks and cash-in row say about the words the provider sent
    (internal/core/lifecycle.go, ApplyProviderEvent in internal/adapters/postgres/store.go). */
module PaymentMeaning {
  import opened Common
  import opened PaymentLifecycle
  import Books = PaymentBook

  /** An event about this payment carries one of the words for the status. */
  predicate Says(e: Event, b: Binding, s: Status) {
    e.binding == b && Means(e.word, s)
  }

  predicate Said(es: seq<Event>, b: Binding, w: Word) {
    exists i :: 0 <= i < |es| && es[i].binding == b && es[i].word == w
  }

  /** The webhook was written for one of the events, about this payment, with a word for the status it announces. */
  predicate Caused(h: Hook, b: Binding, es: seq<Event>) {
    exists i :: 0 <= i < |es| && h.id == MerchantEventId(es[i].id) && Says(es[i], b, h.status)
  }

  lemma DeliverCauses(s: Inboxed, e: Event)
    requires LogOk(s)
    ensures var u := Deliver(s, e);
            && u.payment.binding == s.payment.binding
            && (u.payment.outbox == s.payment.outbox ||
                (|u.payment.outbox| == |s.payment.outbox| + 1 && s.payment.outbox <= u.payment.outbox
                 && u.payment.outbox[|s.payment.outbox|].id == MerchantEventId(e.id)
                 && Says(e, s.payment.binding, u.payment.outbox[|s.payment.outbox|].status)))
  {
    var o := s.payment.outbox;
    assert forall i :: 0 <= i < |o| && o[i].id.MerchantEventId? ==> o[i].id.event in s.inbox;
    if PublicStatusFromProvider(e.word).Some? { WordsMean(e.word, PublicStatusFromProvider(e.word).value); }
  }

  /** Every status change in the log was caused by an event of the payment's own binding that said so. */
  lemma {:induction false} LogIsWords(s: Inboxed, es: seq<Event>)
    requires LogOk(s) && CashInOk(s.payment)
    ensures var u := DeliverAll(s, es);
            && u.payment.binding == s.payment.binding && s.payment.outbox <= u.payment.outbox
            && forall i :: |s.payment.outbox| <= i < |u.payment.outbox| ==> Caused(u.payment.outbox[i], s.payment.binding, es)
    decreases |es|
  {
    if es != [] {
      var t, rest := Deliver(s, es[0]), es[1..];
      DeliverCauses(s, es[0]);
      DeliverOk(s, es[0]);
      LogIsWords(t, rest);
      var o := DeliverAll(s, es).payment.outbox;
      forall i | |s.payment.outbox| <= i < |o| ensures Caused(o[i], s.payment.binding, es) {
        if i >= |t.payment.outbox| { CausedLater(o[i], s.payment.binding, es); }
      }
    }
  }

  lemma CausedLater(h: Hook, b: Binding, es: seq<Event>)
    requires es != [] && Caused(h, b, es[1..])
    ensures Caused(h, b, es)
  {
    var i :| 0 <= i < |es[1..]| && h.id == MerchantEventId(es[1..][i].id) && Says(es[1..][i], b, h.status);
    assert es[i + 1] == es[1..][i];
  }

  /** A payment is in a status, and has its cash-in row, only because the provider said so about this payment. */
  lemma StatusWasSaid(amount: int, b: Binding, reference: string, es: seq<Event>)
    ensures var p := DeliverAll(Inboxed(NewPayment(amount, b, reference), {}), es).payment;
            && (p.status == Confirmed || p.cashIn.CashIn? ==> Said(es, b, SaysConfirmed))
            && (p.status == Pending ==> Said(es, b, SaysPending))
            && (p.status == Expired ==> Said(es, b, SaysExpired))
            && (p.status == Cancelled ==> Said(es, b, SaysCancelled))
            && (p.status == Failed ==> Said(es, b, SaysFailed) || Said(es, b, SaysRejected))
            && p.status != Refunded
  {
    var s := Inboxed(NewPayment(amount, b, reference), {});
    NewPaymentOk(amount, b, reference);
    LogIsWords(s, es);
    DeliverAllOk(s, es);
    NeverRefunded(s, es);
    var p := DeliverAll(s, es).payment;
    var last := p.outbox[|p.outbox| - 1];
    assert p.status == last.status;
    if |p.outbox| > 1 {
      var i :| 0 <= i < |es| && last.id == MerchantEventId(es[i].id) && Says(es[i], b, last.status);
    }
  }

  lemma {:induction false} NeverRefunded(s: Inboxed, es: seq<Event>)
    requires s.payment.status != Refunded
    ensures DeliverAll(s, es).payment.status != Refunded
    decreases |es|
  {
    if es != [] { NeverRefunded(Deliver(s, es[0]), es[1..]); }
  }

  /** Only words of the ordered kind, or none that is known. */
  predicate Orderly(es: seq<Event>, b: Binding) {
    forall i :: 0 <= i < |es| && es[i].binding == b ==>
      es[i].word == SaysCreated || es[i].word == SaysPending || es[i].word == SaysExpired || es[i].word == SaysConfirmed || es[i].word == Unnamed
  }

  /** The maximum law in the provider's words: confirmed if anything said confirmed, else expired if anything said so, else
      pending if anything said so, else started. */
  lemma WordsDecide(amount: int, b: Binding, reference: string, es: seq<Event>)
    requires OneEventPerId(es) && Orderly(es, b)
    ensures var p := DeliverAll(Inboxed(NewPayment(amount, b, reference), {}), es).payment;
            p.status == if Said(es, b, SaysConfirmed) then Confirmed
                        else if Said(es, b, SaysExpired) then Expired
                        else if Said(es, b, SaysPending) then Pending
                        else Started
  {
    var s := Inboxed(NewPayment(amount, b, reference), {});
    forall i | 0 <= i < |es| && Asks(b, es[i]).Some? ensures InOrder(Asks(b, es[i]).value) {
      WordsMean(es[i].word, Asks(b, es[i]).value);
    }
    EventsEndInTheMaximum(s, es);
    MoveAllMax(Started, b, es);
    InboxIsTransparent(s, es, {});
    var m := DeliverAll(s, es).payment.status;
    AtLeast(m, b, es, SaysConfirmed, Confirmed);
    AtLeast(m, b, es, SaysExpired, Expired);
    AtLeast(m, b, es, SaysPending, Pending);
    if m != Started {
      var i :| 0 <= i < |es| && Asks(b, es[i]) == Some(m);
      WordsMean(es[i].word, m);
    }
  }

  lemma AtLeast(m: Status, b: Binding, es: seq<Event>, w: Word, s: Status)
    requires IsMax(m, Started, b, es) && Means(w, s)
    ensures Said(es, b, w) ==> Order(s) <= Order(m)
  {
    if Said(es, b, w) {
      var i :| 0 <= i < |es| && es[i].binding == b && es[i].word == w;
      WordsMean(w, s);
      assert Asks(b, es[i]) == Some(s);
    }
  }

  // ----- with refunds and cash-in flushes in between

  predicate SaidIn(acts: seq<Books.Action>, b: Binding, w: Word) {
    exists i :: 0 <= i < |acts| && acts[i].Deliver? && acts[i].event.binding == b && acts[i].event.word == w
  }

  lemma StepCredits(k: Books.Book, a: Books.Action)
    requires Books.Enabled(k, a) && Books.CashInOk(k.row.payment, k.credited, k.creditOut, k.flushers)
    ensures var u := Books.Next(k, a);
            && u.row.payment.binding == k.row.payment.binding
            && (u.row.payment.cashIn.CashIn? && k.row.payment.cashIn.NoCashIn? ==>
                  a.Deliver? && a.event.binding == k.row.payment.binding && a.event.word == SaysConfirmed)
  {
    if a.Deliver? && PublicStatusFromProvider(a.event.word).Some? { WordsMean(a.event.word, PublicStatusFromProvider(a.event.word).value); }
  }

  lemma {:induction false} RunCredits(k: Books.Book, acts: seq<Books.Action>)
    requires Books.Inv(k) && Books.Legal(k, acts)
    ensures Books.Exec(k, acts).row.payment.cashIn.CashIn? ==>
              k.row.payment.cashIn.CashIn? || SaidIn(acts, k.row.payment.binding, SaysConfirmed)
    decreases |acts|
  {
    if acts != [] {
      var u := Books.Next(k, acts[0]);
      StepCredits(k, acts[0]);
      Books.StepInv(k, acts[0]);
      RunCredits(u, acts[1..]);
      if SaidIn(acts[1..], u.row.payment.binding, SaysConfirmed) {
        var i :| 0 <= i < |acts[1..]| && acts[1..][i].Deliver? && acts[1..][i].event.binding == u.row.payment.binding && acts[1..][i].event.word == SaysConfirmed;
        assert acts[i + 1] == acts[1..][i];
      }
    }
  }

  /** In every run of a payment with its refunds, flushers, crashes and lost replies: the merchant is credited, and refunds
      are opened, only for a payment that the provider itself confirmed. */
  lemma CreditWasConfirmed(amount: int, b: Binding, reference: string, acts: seq<Books.Action>)
    requires Books.Legal(Books.Start(amount, b, reference), acts)
    ensures var u := Books.Exec(Books.Start(amount, b, reference), acts);
            u.credited || u.row.payment.cashIn.CashIn? || u.refunds != map[] ==> SaidIn(acts, b, SaysConfirmed)
  {
    Books.StartInv(amount, b, reference);
    Books.Reached(amount, b, reference, acts);
    RunCredits(Books.Start(amount, b, reference), acts);
  }
}
