/** The payment status machine (internal/core/lifecycle.go) and one payment's inbox transaction
    (ApplyProviderEvent in internal/adapters/postgres/store.go). */
module PaymentLifecycle {
  import opened Common

  datatype Status = Started | Pending | Confirmed | Failed | Cancelled | Expired | Refunded

  /** The provider's word for a payment; Unnamed is any word the service does not know. */
  datatype Word = SaysCreated | SaysPending | SaysConfirmed | SaysRejected | SaysFailed | SaysCancelled | SaysExpired | Unnamed

  function PublicStatusFromProvider(w: Word): Option<Status> {
    match w
    case SaysCreated => Some(Started)
    case SaysPending => Some(Pending)
    case SaysConfirmed => Some(Confirmed)
    case SaysRejected => Some(Failed)
    case SaysFailed => Some(Failed)
    case SaysCancelled => Some(Cancelled)
    case SaysExpired => Some(Expired)
    case Unnamed => None
  }

  /** The words that can bring a payment to a status. */
  predicate Means(w: Word, s: Status) {
    match s
    case Started => w == SaysCreated
    case Pending => w == SaysPending
    case Confirmed => w == SaysConfirmed
    case Failed => w == SaysFailed || w == SaysRejected
    case Cancelled => w == SaysCancelled
    case Expired => w == SaysExpired
    case Refunded => false
  }

  lemma WordsMean(w: Word, s: Status)
    ensures PublicStatusFromProvider(w) == Some(s) <==> Means(w, s)
    ensures PublicStatusFromProvider(w) == None <==> w == Unnamed
  {
  }

  predicate PaymentTransitionAllowed(current: Status, next: Status) {
    current == next ||
    match current
    case Started => next == Pending || next == Confirmed || next == Failed || next == Cancelled || next == Expired
    case Pending => next == Confirmed || next == Failed || next == Cancelled || next == Expired
    case Expired => next == Confirmed
    case _ => false
  }

  /** Which provider object a payment belongs to. */
  datatype Binding = Binding(provider: string, connection: string, paymentId: string)

  datatype Event = Event(id: string, binding: Binding, word: Word, reference: string)

  /** Webhook event ids: the creation has its own, a change takes the id of the event that caused it. */
  datatype HookId = CreatedId | MerchantEventId(event: string)

  datatype Hook = Hook(id: HookId, previous: Option<Status>, status: Status, version: nat)

  /** The cash-in row of the ledger outbox. */
  datatype CashIn = NoCashIn | CashIn(sent: bool)

  datatype Payment = Payment(
    status: Status, version: nat, reference: string, amount: int, binding: Binding,
    outbox: seq<Hook>, cashIn: CashIn)

  /** A payment as CompleteCreate inserts it. */
  function NewPayment(amount: int, binding: Binding, reference: string): Payment {
    Payment(Started, 1, reference, amount, binding, [Hook(CreatedId, None, Started, 1)], NoCashIn)
  }

  function InsertHook(outbox: seq<Hook>, h: Hook): seq<Hook> {
    if exists i :: 0 <= i < |outbox| && outbox[i].id == h.id then outbox else outbox + [h]
  }

  /** The outbox holds one row for an event id. */
  lemma InsertedOnce(outbox: seq<Hook>, h: Hook)
    requires forall i, j :: 0 <= i < j < |outbox| ==> outbox[i].id != outbox[j].id
    ensures var u := InsertHook(outbox, h);
            && outbox <= u && (exists i :: 0 <= i < |u| && u[i].id == h.id)
            && (forall i, j :: 0 <= i < j < |u| ==> u[i].id != u[j].id)
            && (|u| == |outbox| + 1 ==> u[|outbox|] == h)
  {
    var u := InsertHook(outbox, h);
    if u != outbox { assert u[|outbox|] == h; }
  }

  /** The transaction on a payment whose event is not yet in the inbox. */
  function ApplyEvent(p: Payment, e: Event): Result<Payment> {
    if p.binding != e.binding then Err(Conflict)
    else
      match PublicStatusFromProvider(e.word)
      case None => Err(Conflict)
      case Some(next) =>
        if next == p.status || !PaymentTransitionAllowed(p.status, next) then Ok(p)
        else Ok(p.(status := next,
                   version := p.version + 1,
                   reference := Coalesce(e.reference, p.reference),
                   cashIn := if next == Confirmed && p.cashIn.NoCashIn? then CashIn(false) else p.cashIn,
                   outbox := InsertHook(p.outbox, Hook(MerchantEventId(e.id), Some(p.status), next, p.version + 1))))
  }

  /** One payment with the provider events recorded for it. */
  datatype Inboxed = Inboxed(payment: Payment, inbox: set<string>)

  /** ApplyProviderEvent: a duplicate is acknowledged, an error rolls everything back. */
  function Deliver(s: Inboxed, e: Event): Inboxed {
    if e.id in s.inbox then s
    else
      match ApplyEvent(s.payment, e)
      case Err(_) => s
      case Ok(p) => Inboxed(p, s.inbox + {e.id})
  }

  function DeliverAll(s: Inboxed, es: seq<Event>): Inboxed
    decreases |es|
  {
    if es == [] then s else DeliverAll(Deliver(s, es[0]), es[1..])
  }

  // ----- what the status does, events and duplicates aside

  /** The status an event asks for, if it speaks about this payment in a word that is known. */
  function Asks(b: Binding, e: Event): Option<Status> {
    if b == e.binding then PublicStatusFromProvider(e.word) else None
  }

  function Move(t: Status, x: Option<Status>): Status {
    if x.Some? && PaymentTransitionAllowed(t, x.value) then x.value else t
  }

  function MoveAll(t: Status, b: Binding, es: seq<Event>): Status
    decreases |es|
  {
    if es == [] then t else MoveAll(Move(t, Asks(b, es[0])), b, es[1..])
  }

  /** An event id names one event: redelivery repeats the event, it does not change it. */
  predicate OneEventPerId(es: seq<Event>) {
    forall i, j :: 0 <= i < |es| && 0 <= j < |es| && es[i].id == es[j].id ==> es[i] == es[j]
  }

  /** What was asked once is never asked again with effect. */
  lemma MoveAbsorbs(t: Status, x: Option<Status>, y: Option<Status>)
    ensures Move(Move(t, x), x) == Move(t, x)
    ensures Move(t, x) == t ==> Move(Move(t, y), x) == Move(t, y)
  {
  }

  /** The inbox changes nothing about the final status: dropping duplicates by event id and ignoring
      repeated requests by the transition relation come to the same. */
  lemma {:induction false} InboxIsTransparent(s: Inboxed, es: seq<Event>, seen: set<Event>)
    requires forall e :: e in seen ==> Move(s.payment.status, Asks(s.payment.binding, e)) == s.payment.status
    requires forall i :: 0 <= i < |es| && es[i].id in s.inbox ==> es[i] in seen
    requires OneEventPerId(es)
    requires forall e, i :: e in seen && 0 <= i < |es| && e.id == es[i].id ==> e == es[i]
    ensures DeliverAll(s, es).payment.status == MoveAll(s.payment.status, s.payment.binding, es)
    ensures DeliverAll(s, es).payment.binding == s.payment.binding
    decreases |es|
  {
    if es != [] {
      var e, b, t := es[0], s.payment.binding, s.payment.status;
      var u := Deliver(s, e);
      assert u.payment.status == Move(t, Asks(b, e)) && u.payment.binding == b;
      forall f | f in seen + {e} ensures Move(u.payment.status, Asks(b, f)) == u.payment.status {
        MoveAbsorbs(t, Asks(b, e), Asks(b, e));
        MoveAbsorbs(t, Asks(b, f), Asks(b, e));
      }
      assert forall i :: 0 <= i < |es[1..]| ==> es[1..][i] == es[i + 1];
      InboxIsTransparent(u, es[1..], seen + {e});
    }
  }

  // ----- confluence

  function Order(s: Status): nat {
    match s
    case Started => 0
    case Pending => 1
    case Expired => 2
    case Confirmed => 3
    case _ => 4
  }

  predicate InOrder(s: Status) {
    s == Started || s == Pending || s == Expired || s == Confirmed
  }

  /** m is the greatest of the initial status and everything the events ask for. */
  predicate IsMax(m: Status, init: Status, b: Binding, es: seq<Event>) {
    && Order(init) <= Order(m)
    && (forall i :: 0 <= i < |es| && Asks(b, es[i]).Some? ==> Order(Asks(b, es[i]).value) <= Order(m))
    && (m == init || exists i :: 0 <= i < |es| && Asks(b, es[i]) == Some(m))
  }

  lemma {:induction false} MoveAllMax(t: Status, b: Binding, es: seq<Event>)
    requires InOrder(t) && forall i :: 0 <= i < |es| && Asks(b, es[i]).Some? ==> InOrder(Asks(b, es[i]).value)
    ensures IsMax(MoveAll(t, b, es), t, b, es) && InOrder(MoveAll(t, b, es))
    decreases |es|
  {
    if es != [] {
      var u := Move(t, Asks(b, es[0]));
      assert forall i :: 0 <= i < |es[1..]| ==> es[1..][i] == es[i + 1];
      MoveAllMax(u, b, es[1..]);
      var m := MoveAll(t, b, es);
      assert m == MoveAll(u, b, es[1..]);
      forall i | 0 <= i < |es| && Asks(b, es[i]).Some? ensures Order(Asks(b, es[i]).value) <= Order(m) {
        if i > 0 { assert es[i] == es[1..][i - 1]; }
      }
      if m != u {
        var i :| 0 <= i < |es[1..]| && Asks(b, es[1..][i]) == Some(m);
        assert Asks(b, es[i + 1]) == Some(m);
      } else if m != t {
        assert Asks(b, es[0]) == Some(m);
      }
    }
  }

  /** Created, pending, expired and confirmed events in any order, repeated at will, delivered to a fresh
      inbox: the payment ends in the greatest status under started < pending < expired < confirmed. */
  lemma EventsEndInTheMaximum(s: Inboxed, es: seq<Event>)
    requires InOrder(s.payment.status) && OneEventPerId(es)
    requires forall i :: 0 <= i < |es| ==> es[i].id !in s.inbox
    requires forall i :: 0 <= i < |es| && Asks(s.payment.binding, es[i]).Some? ==> InOrder(Asks(s.payment.binding, es[i]).value)
    ensures IsMax(DeliverAll(s, es).payment.status, s.payment.status, s.payment.binding, es)
  {
    InboxIsTransparent(s, es, {});
    MoveAllMax(s.payment.status, s.payment.binding, es);
  }

  /** The same events, in any order and any number of times. */
  predicate SameEvents(es: seq<Event>, fs: seq<Event>) {
    (forall e :: e in es ==> e in fs) && (forall e :: e in fs ==> e in es)
  }

  predicate Decides(s: Status) {
    s == Failed || s == Cancelled || s == Expired || s == Confirmed
  }

  predicate Blocks(s: Status) {
    s == Failed || s == Cancelled
  }

  /** Among the events that speak about this payment, a failure or cancellation stands alone: nothing
      asks for a different failed, cancelled, expired or confirmed. */
  ghost predicate NoRivals(b: Binding, es: seq<Event>) {
    forall e, f :: e in es && f in es && Rivals(b, e, f) ==> Asks(b, e) == Asks(b, f)
  }

  /** Both events would end or settle the payment, and the first one for good. */
  predicate Rivals(b: Binding, e: Event, f: Event) {
    Asks(b, e).Some? && Asks(b, f).Some? && Blocks(Asks(b, e).value) && Decides(Asks(b, f).value)
  }

  lemma {:induction false} MoveAllBlocked(t: Status, b: Binding, es: seq<Event>)
    requires Blocks(t) || t == Confirmed
    ensures MoveAll(t, b, es) == t
    decreases |es|
  {
    if es != [] { MoveAllBlocked(t, b, es[1..]); }
  }

  lemma {:induction false} MoveAllExpired(b: Binding, es: seq<Event>)
    ensures MoveAll(Expired, b, es) == Expired || MoveAll(Expired, b, es) == Confirmed
    decreases |es|
  {
    if es != [] {
      if Move(Expired, Asks(b, es[0])) == Confirmed { MoveAllBlocked(Confirmed, b, es[1..]); }
      else { MoveAllExpired(b, es[1..]); }
    }
  }

  /** With a lone blocking status x among the requests, x wins from wherever it can still be reached. */
  lemma {:induction false} MoveAllAlone(t: Status, b: Binding, es: seq<Event>, x: Status)
    requires Blocks(x) && (t == Started || t == Pending || t == x)
    requires forall e :: e in es && Asks(b, e).Some? && Decides(Asks(b, e).value) ==> Asks(b, e).value == x
    ensures t == x || (exists e :: e in es && Asks(b, e) == Some(x)) ==> MoveAll(t, b, es) == x
    decreases |es|
  {
    if es != [] {
      var u := Move(t, Asks(b, es[0]));
      assert forall e :: e in es[1..] ==> e in es;
      MoveAllAlone(u, b, es[1..], x);
      if t != x && (exists e :: e in es && Asks(b, e) == Some(x)) {
        var e :| e in es && Asks(b, e) == Some(x);
        assert e == es[0] || e in es[1..];
      }
    }
  }

  /** The final status depends only on which events were delivered: the confluence half. */
  lemma NoRivalsConfluent(b: Binding, es: seq<Event>, fs: seq<Event>)
    requires NoRivals(b, es) && SameEvents(es, fs)
    ensures MoveAll(Started, b, es) == MoveAll(Started, b, fs)
  {
    if e :| e in es && Asks(b, e).Some? && Blocks(Asks(b, e).value) {
      var x := Asks(b, e).value;
      assert e in fs;
      assert forall f :: f in es && Asks(b, f).Some? && Decides(Asks(b, f).value) ==> Rivals(b, e, f);
      MoveAllAlone(Started, b, es, x);
      MoveAllAlone(Started, b, fs, x);
    } else {
      forall i | 0 <= i < |es| && Asks(b, es[i]).Some? ensures InOrder(Asks(b, es[i]).value) {
        assert es[i] in es;
      }
      forall i | 0 <= i < |fs| && Asks(b, fs[i]).Some? ensures InOrder(Asks(b, fs[i]).value) {
        assert fs[i] in es;
      }
      MoveAllMax(Started, b, es);
      MoveAllMax(Started, b, fs);
      MaxTransfers(MoveAll(Started, b, es), Started, b, es, fs);
      MaxUnique(MoveAll(Started, b, es), MoveAll(Started, b, fs), Started, b, fs);
    }
  }

  lemma MaxTransfers(m: Status, t: Status, b: Binding, es: seq<Event>, fs: seq<Event>)
    requires IsMax(m, t, b, es) && SameEvents(es, fs)
    ensures IsMax(m, t, b, fs)
  {
    forall i | 0 <= i < |fs| && Asks(b, fs[i]).Some? ensures Order(Asks(b, fs[i]).value) <= Order(m) {
      assert fs[i] in es;
      var j :| 0 <= j < |es| && es[j] == fs[i];
    }
    if m != t {
      var i :| 0 <= i < |es| && Asks(b, es[i]) == Some(m);
      assert es[i] in fs;
      var j :| 0 <= j < |fs| && fs[j] == es[i];
    }
  }

  lemma MaxUnique(m: Status, n: Status, t: Status, b: Binding, es: seq<Event>)
    requires IsMax(m, t, b, es) && IsMax(n, t, b, es) && InOrder(m) && InOrder(n)
    ensures m == n
  {
    assert Order(m) <= Order(n) by {
      if m != t { var i :| 0 <= i < |es| && Asks(b, es[i]) == Some(m); }
    }
    assert Order(n) <= Order(m) by {
      if n != t { var i :| 0 <= i < |es| && Asks(b, es[i]) == Some(n); }
    }
  }

  /** Two rival requests, and whichever comes first wins: the other half. */
  lemma RivalsDiverge(b: Binding, es: seq<Event>, e: Event, f: Event)
    requires Rivals(b, e, f) && Asks(b, e) != Asks(b, f)
    ensures MoveAll(Started, b, [e] + es) != MoveAll(Started, b, [f] + es)
  {
    assert ([e] + es)[1..] == es && ([f] + es)[1..] == es;
    MoveAllBlocked(Asks(b, e).value, b, es);
    if Asks(b, f).value == Expired { MoveAllExpired(b, es); } else { MoveAllBlocked(Asks(b, f).value, b, es); }
  }

  /** For events of every kind, wrong bindings and unknown words included: reordering and repeating them
      can never change the outcome of a started payment if and only if they hold no rivals. */
  lemma ConfluentExactlyWithoutRivals(s: Inboxed, es: seq<Event>)
    requires s.payment.status == Started && OneEventPerId(es)
    requires forall i :: 0 <= i < |es| ==> es[i].id !in s.inbox
    ensures (forall fs :: SameEvents(es, fs) ==> DeliverAll(s, fs).payment.status == DeliverAll(s, es).payment.status)
            <==> NoRivals(s.payment.binding, es)
  {
    var b := s.payment.binding;
    InboxIsTransparent(s, es, {});
    if NoRivals(b, es) {
      forall fs | SameEvents(es, fs) ensures DeliverAll(s, fs).payment.status == DeliverAll(s, es).payment.status {
        SameEventsTransparent(s, es, fs);
        NoRivalsConfluent(b, es, fs);
      }
    } else {
      RivalsReorder(b, es);
      var fs :| SameEvents(es, fs) && MoveAll(Started, b, fs) != MoveAll(Started, b, es);
      SameEventsTransparent(s, es, fs);
    }
  }

  /** Delivered with one rival in front or with the other, the same events end differently. */
  lemma RivalsReorder(b: Binding, es: seq<Event>)
    requires !NoRivals(b, es)
    ensures exists fs :: SameEvents(es, fs) && MoveAll(Started, b, fs) != MoveAll(Started, b, es)
  {
    var e, f :| e in es && f in es && Rivals(b, e, f) && Asks(b, e) != Asks(b, f);
    SameWithFront(es, e);
    SameWithFront(es, f);
    RivalsDiverge(b, es, e, f);
    var fs := if MoveAll(Started, b, [e] + es) != MoveAll(Started, b, es) then [e] + es else [f] + es;
    assert SameEvents(es, fs) && MoveAll(Started, b, fs) != MoveAll(Started, b, es);
  }

  lemma SameWithFront(es: seq<Event>, e: Event)
    requires e in es
    ensures SameEvents(es, [e] + es)
  {
  }

  lemma SameEventsTransparent(s: Inboxed, es: seq<Event>, fs: seq<Event>)
    requires OneEventPerId(es) && SameEvents(es, fs)
    requires forall i :: 0 <= i < |es| ==> es[i].id !in s.inbox
    ensures DeliverAll(s, fs).payment.status == MoveAll(s.payment.status, s.payment.binding, fs)
  {
    forall i | 0 <= i < |fs| ensures fs[i].id !in s.inbox {
      assert fs[i] in es;
    }
    forall i, j | 0 <= i < |fs| && 0 <= j < |fs| && fs[i].id == fs[j].id ensures fs[i] == fs[j] {
      assert fs[i] in es && fs[j] in es;
      var k :| 0 <= k < |es| && es[k] == fs[i];
      var l :| 0 <= l < |es| && es[l] == fs[j];
      assert es[k].id == es[l].id;
    }
    InboxIsTransparent(s, fs, {});
  }

  // ----- versions, webhooks and the cash-in row

  function Left(s: Status): nat {
    match s
    case Started => 3
    case Pending => 2
    case Expired => 1
    case _ => 0
  }

  /** The webhook log numbers its versions 1, 2, 3, ... without a gap, chains by previousStatus, has one
      entry per status the payment has had, and each entry comes from its own recorded event. */
  predicate LogOk(s: Inboxed) {
    var o := s.payment.outbox;
    && |o| == s.payment.version && 0 < |o|
    && o[0] == Hook(CreatedId, None, Started, 1)
    && (forall i :: 0 < i < |o| ==> o[i].version == i + 1 && o[i].previous == Some(o[i - 1].status)
                                    && o[i].id.MerchantEventId? && o[i].id.event in s.inbox)
    && (forall i, j :: 0 <= i < j < |o| ==> o[i].id != o[j].id)
    && (s.payment.status == o[|o| - 1].status || (s.payment.status == Refunded && o[|o| - 1].status == Confirmed))
    && s.payment.version + Left(o[|o| - 1].status) <= 4
  }

  predicate CashInOk(p: Payment) {
    p.cashIn.CashIn? <==> p.status == Confirmed || p.status == Refunded
  }

  lemma NewPaymentOk(amount: int, binding: Binding, reference: string)
    ensures LogOk(Inboxed(NewPayment(amount, binding, reference), {})) && CashInOk(NewPayment(amount, binding, reference))
    ensures var p := NewPayment(amount, binding, reference);
            p.status == Started && p.version == 1 && p.amount == amount && p.binding == binding && p.reference == reference && p.cashIn == NoCashIn
  {
  }

  lemma DeliverLog(s: Inboxed, e: Event)
    requires LogOk(s)
    ensures LogOk(Deliver(s, e))
  {
    var u := Deliver(s, e);
    if u.payment.version != s.payment.version {
      var o, h := s.payment.outbox, Hook(MerchantEventId(e.id), Some(s.payment.status), u.payment.status, s.payment.version + 1);
      assert forall i :: 0 <= i < |o| ==> o[i].id != h.id;
      assert u.payment.outbox == o + [h];
    }
  }

  lemma DeliverCashInOk(s: Inboxed, e: Event)
    requires CashInOk(s.payment)
    ensures CashInOk(Deliver(s, e).payment)
  {
  }

  lemma DeliverOk(s: Inboxed, e: Event)
    requires LogOk(s) && CashInOk(s.payment)
    ensures LogOk(Deliver(s, e)) && CashInOk(Deliver(s, e).payment)
  {
    DeliverLog(s, e);
    DeliverCashInOk(s, e);
  }

  /** However many events arrive, a payment changes status at most three times through them, its webhooks
      tell the whole story without gaps, and a cash-in row exists exactly for a confirmed or refunded payment. */
  lemma {:induction false} DeliverAllOk(s: Inboxed, es: seq<Event>)
    requires LogOk(s) && CashInOk(s.payment)
    ensures var u := DeliverAll(s, es);
            LogOk(u) && CashInOk(u.payment) && u.payment.version <= 4 && s.payment.outbox <= u.payment.outbox
    decreases |es|
  {
    if es != [] {
      DeliverOk(s, es[0]);
      DeliverAllOk(Deliver(s, es[0]), es[1..]);
    }
  }
}
