/** The refund worker (internal/app/refunds.go): process() and applyProvider() on the store, the ledger and the
    connector. What the workers of all refunds of the payment do between the steps of a call is a parameter; the call
    is proved to be the run of the payment's book in which its steps and theirs are interleaved so. */
module RefundDriver {
  import opened Common
  import opened Parties
  import opened Clients
  import opened RefundSaga
  import Store = PaymentStore
  import Books = PaymentBook
  import opened PaymentRefinement

  /** What ledger and provider would answer during one call of process(). */
  datatype Answers = Answers(debit: LedgerOutcome, credit: LedgerOutcome, truth: Truth, create: CreateReply, lookup: LookupReply)

  /** The steps process() takes from a snapshot, if nobody interferes. */
  function Script(status: Status, w: nat, net: Answers, now: int, configured: bool): seq<Action> {
    match status
    case PendingDebit =>
      if !configured then [Crash(w)]
      else if net.debit.Applied? || net.debit.Insufficient? then [Debit(w, net.debit), Cas(w, now)]
      else [Debit(w, net.debit)]
    case PendingProvider =>
      if net.create.CreateAnswered? then [Create(w, net.truth, net.create), Cas(w, now)]
      else if net.lookup.LookupAnswered? then [Create(w, net.truth, net.create), Lookup(w, net.lookup), Cas(w, now)]
      else [Create(w, net.truth, net.create), Lookup(w, net.lookup)]
    case Pending =>
      if net.lookup.LookupAnswered? then [Lookup(w, net.lookup), Cas(w, now)] else [Lookup(w, net.lookup)]
    case PendingCompensation =>
      if !configured then [Crash(w)]
      else if net.credit.Applied? then [Credit(w, net.credit), Cas(w, now)]
      else [Credit(w, net.credit)]
    case _ => [Crash(w)]
  }

  predicate OnRefunds(acts: seq<Books.Action>) {
    forall i :: 0 <= i < |acts| ==> acts[i].RefundStep?
  }

  lemma FirstStep(b: Books.Book, acts: seq<Books.Action>) returns (u: Books.Book)
    requires Books.Legal(b, acts) && OnRefunds(acts) && acts != []
    ensures Books.Enabled(b, On(acts[0].id, acts[0].act)) && u == Books.Next(b, On(acts[0].id, acts[0].act))
    ensures Books.Legal(u, acts[1..]) && OnRefunds(acts[1..]) && Books.Exec(b, acts) == Books.Exec(u, acts[1..])
  {
    u := Books.Next(b, acts[0]);
  }

  /** What happens to the payment's refunds while a call is under way: between an unanswered create and the query that
      follows it, and between the last answer and the compare-and-set. */
  datatype Interference = Interference(asking: seq<Books.Action>, late: seq<Books.Action>)

  /** Steps of this or other refunds of the payment that are not w's own. */
  predicate Others(acts: seq<Books.Action>, id: string, w: nat) {
    forall i :: 0 <= i < |acts| ==> acts[i].RefundStep? && (acts[i].id == id ==> Outside(acts[i].act) || acts[i].act.w != w)
  }

  predicate ByOthers(i: Interference, id: string, w: nat) {
    Others(i.asking, id, w) && Others(i.late, id, w)
  }

  function On(id: string, a: Action): Books.Action {
    Books.RefundStep(id, a)
  }

  /** The run of one call of process() with the others' steps in between. */
  function Disturbed(id: string, status: Status, w: nat, net: Answers, now: int, configured: bool, i: Interference): seq<Books.Action> {
    match status
    case PendingDebit =>
      if !configured then [On(id, Crash(w))]
      else if net.debit.Applied? || net.debit.Insufficient? then [On(id, Debit(w, net.debit))] + i.late + [On(id, Cas(w, now))]
      else [On(id, Debit(w, net.debit))]
    case PendingProvider =>
      if net.create.CreateAnswered? then [On(id, Create(w, net.truth, net.create))] + i.late + [On(id, Cas(w, now))]
      else [On(id, Create(w, net.truth, net.create))] + i.asking + Asked(id, w, net, now, i)
    case Pending => Asked(id, w, net, now, i)
    case PendingCompensation =>
      if !configured then [On(id, Crash(w))]
      else if net.credit.Applied? then [On(id, Credit(w, net.credit))] + i.late + [On(id, Cas(w, now))]
      else [On(id, Credit(w, net.credit))]
    case _ => [On(id, Crash(w))]
  }

  function Asked(id: string, w: nat, net: Answers, now: int, i: Interference): seq<Books.Action> {
    if net.lookup.LookupAnswered? then [On(id, Lookup(w, net.lookup))] + i.late + [On(id, Cas(w, now))] else [On(id, Lookup(w, net.lookup))]
  }

  function Lift(id: string, acts: seq<Action>): seq<Books.Action> {
    seq(|acts|, i requires 0 <= i < |acts| => On(id, acts[i]))
  }

  /** With nobody else about, this is the plain script. */
  lemma UndisturbedIsScript(id: string, status: Status, w: nat, net: Answers, now: int, configured: bool)
    ensures Disturbed(id, status, w, net, now, configured, Interference([], [])) == Lift(id, Script(status, w, net, now, configured))
  {
  }

  /** w's own phase in the call on this refund. */
  ghost predicate At(b: Books.Book, id: string, w: nat, ph: Phase) {
    id in b.refunds && w in b.refunds[id].saga.workers && b.refunds[id].saga.workers[w] == ph
  }

  /** One step of a refund, as its book sees it. */
  lemma StepShape(b: Books.Book, id: string, a: Action)
    requires Books.Enabled(b, On(id, a))
    ensures var u := Books.Next(b, On(id, a));
            u.refunds == b.refunds[id := Books.Entry(b.refunds[id].amount, Next(b.refunds[id].saga, a))]
  {
    Books.RefundStepShape(b, id, a, Next(b.refunds[id].saga, a));
  }

  lemma {:induction false} OthersLeave(b: Books.Book, acts: seq<Books.Action>, id: string, w: nat, ph: Phase)
    requires Books.Legal(b, acts) && Others(acts, id, w) && At(b, id, w, ph)
    ensures At(Books.Exec(b, acts), id, w, ph)
    decreases |acts|
  {
    if acts != [] {
      assert forall i :: 0 <= i < |acts[1..]| ==> acts[1..][i] == acts[i + 1];
      StepShape(b, acts[0].id, acts[0].act);
      OthersLeave(Books.Next(b, acts[0]), acts[1..], id, w, ph);
    }
  }

  /** An effect, the others' steps, and whatever the worker does then. */
  lemma EffectThenOthers(b: Books.Book, a: Books.Action, others: seq<Books.Action>, rest: seq<Books.Action>)
    requires Books.Legal(b, [a] + others + rest)
    ensures Books.Enabled(b, a) && Books.Legal(Books.Next(b, a), others) && Books.Legal(Books.Exec(Books.Next(b, a), others), rest)
    ensures Books.Exec(b, [a] + others + rest) == Books.Exec(Books.Exec(Books.Next(b, a), others), rest)
  {
    Books.RunApart(b, [a] + others, rest);
    Books.RunApart(b, [a], others);
    Books.One(b, a);
  }

  /** An effect that leaves w ready, the others' steps, and the compare-and-set. */
  lemma Interleaved(b: Books.Book, id: string, a: Action, others: seq<Books.Action>, w: nat, now: int, ph: Phase)
    requires Books.Legal(b, [On(id, a)] + others + [On(id, Cas(w, now))]) && Others(others, id, w)
    requires Books.Enabled(b, On(id, a)) ==> At(Books.Next(b, On(id, a)), id, w, ph)
    ensures Books.Enabled(b, On(id, a)) && Books.Legal(Books.Next(b, On(id, a)), others)
    ensures var t := Books.Exec(Books.Next(b, On(id, a)), others);
            Books.Enabled(t, On(id, Cas(w, now))) && At(t, id, w, ph)
            && Books.Exec(b, [On(id, a)] + others + [On(id, Cas(w, now))]) == Books.Next(t, On(id, Cas(w, now)))
  {
    EffectThenOthers(b, On(id, a), others, [On(id, Cas(w, now))]);
    OthersLeave(Books.Next(b, On(id, a)), others, id, w, ph);
    Books.One(Books.Exec(Books.Next(b, On(id, a)), others), On(id, Cas(w, now)));
  }

  /** Where w's own phase is after a step of it. */
  lemma OwnPhase(b: Books.Book, id: string, a: Action)
    requires Books.Enabled(b, On(id, a)) && !Outside(a) && !a.Cas?
    ensures var ph := PhaseAfter(b.refunds[id].saga, a);
            ph.Some? ==> At(Books.Next(b, On(id, a)), id, a.w, ph.value)
  {
    StepShape(b, id, a);
  }

  /** The book u after the ledger's reply to a debit, and v after the others' steps and the compare-and-set. */
  ghost predicate DebitAnswered(u: Books.Book, v: Books.Book, id: string, w: nat, reply: LedgerReply, others: seq<Books.Action>, now: int) {
    if reply.LedgerError? then v == u
    else
      && At(u, id, w, if reply.LedgerOk? then Ready(PendingDebit, PendingProvider, NO_FIELDS.(debited := true))
                      else Ready(PendingDebit, Failed, NO_FIELDS.(short := true)))
      && Books.Legal(u, others) && Books.Enabled(Books.Exec(u, others), On(id, Cas(w, now)))
      && v == Books.Next(Books.Exec(u, others), On(id, Cas(w, now)))
  }

  lemma DebitScript(b: Books.Book, id: string, w: nat, net: Answers, i: Interference, now: int) returns (u: Books.Book, v: Books.Book)
    requires At(b, id, w, Snap(PendingDebit)) && ByOthers(i, id, w)
    requires Books.Legal(b, Disturbed(id, PendingDebit, w, net, now, true, i))
    ensures Books.Enabled(b, On(id, Debit(w, net.debit))) && u == Books.Next(b, On(id, Debit(w, net.debit)))
    ensures v == Books.Exec(b, Disturbed(id, PendingDebit, w, net, now, true, i))
    ensures DebitAnswered(u, v, id, w, ReplyOf(net.debit), i.late, now)
  {
    var a := Debit(w, net.debit);
    v := Books.Exec(b, Disturbed(id, PendingDebit, w, net, now, true, i));
    if net.debit.Applied? || net.debit.Insufficient? {
      EffectThenOthers(b, On(id, a), i.late, [On(id, Cas(w, now))]);
      OwnPhase(b, id, a);
      Interleaved(b, id, a, i.late, w, now, PhaseAfter(b.refunds[id].saga, a).value);
    } else {
      Books.One(b, On(id, a));
    }
    u := Books.Next(b, On(id, a));
  }

  lemma CreditScript(b: Books.Book, id: string, w: nat, net: Answers, i: Interference, now: int) returns (u: Books.Book, v: Books.Book)
    requires At(b, id, w, Snap(PendingCompensation)) && ByOthers(i, id, w)
    requires Books.Legal(b, Disturbed(id, PendingCompensation, w, net, now, true, i))
    ensures Books.Enabled(b, On(id, Credit(w, net.credit))) && u == Books.Next(b, On(id, Credit(w, net.credit)))
    ensures v == Books.Exec(b, Disturbed(id, PendingCompensation, w, net, now, true, i))
    ensures if net.credit.Applied? then
              && At(u, id, w, Ready(PendingCompensation, Failed, NO_FIELDS))
              && Books.Legal(u, i.late) && Books.Enabled(Books.Exec(u, i.late), On(id, Cas(w, now)))
              && v == Books.Next(Books.Exec(u, i.late), On(id, Cas(w, now)))
            else v == u
  {
    var a := Credit(w, net.credit);
    v := Books.Exec(b, Disturbed(id, PendingCompensation, w, net, now, true, i));
    if net.credit.Applied? {
      EffectThenOthers(b, On(id, a), i.late, [On(id, Cas(w, now))]);
      OwnPhase(b, id, a);
      Interleaved(b, id, a, i.late, w, now, PhaseAfter(b.refunds[id].saga, a).value);
    } else {
      Books.One(b, On(id, a));
    }
    u := Books.Next(b, On(id, a));
  }

  lemma AskScript(b: Books.Book, id: string, status: Status, w: nat, net: Answers, others: Interference, now: int)
    requires ByOthers(others, id, w)
    requires (status == Pending && At(b, id, w, Snap(Pending))) || (status == PendingProvider && At(b, id, w, RefundSaga.Asking))
    requires Books.Legal(b, Asked(id, w, net, now, others))
    ensures Books.Enabled(b, On(id, Lookup(w, net.lookup)))
    ensures var u := Books.Next(b, On(id, Lookup(w, net.lookup)));
            if net.lookup.LookupAnswered? then
              && At(u, id, w, Ready(status, Target(net.lookup.report.status), WorkerFields(net.lookup.report)))
              && Books.Legal(u, others.late) && Books.Enabled(Books.Exec(u, others.late), On(id, Cas(w, now)))
              && Books.Exec(b, Asked(id, w, net, now, others)) == Books.Next(Books.Exec(u, others.late), On(id, Cas(w, now)))
            else Books.Exec(b, Asked(id, w, net, now, others)) == u
  {
    var a := Lookup(w, net.lookup);
    if net.lookup.LookupAnswered? {
      EffectThenOthers(b, On(id, a), others.late, [On(id, Cas(w, now))]);
      OwnPhase(b, id, a);
      Interleaved(b, id, a, others.late, w, now, PhaseAfter(b.refunds[id].saga, a).value);
    } else {
      Books.One(b, On(id, a));
    }
  }

  lemma CreateScript(b: Books.Book, id: string, w: nat, net: Answers, others: Interference, now: int)
    requires At(b, id, w, Snap(PendingProvider)) && ByOthers(others, id, w)
    requires Books.Legal(b, Disturbed(id, PendingProvider, w, net, now, true, others))
    ensures Books.Enabled(b, On(id, Create(w, net.truth, net.create)))
    ensures var u, script := Books.Next(b, On(id, Create(w, net.truth, net.create))), Disturbed(id, PendingProvider, w, net, now, true, others);
            if net.create.CreateAnswered? then
              && At(u, id, w, Ready(PendingProvider, Target(net.create.report.status), WorkerFields(net.create.report)))
              && Books.Legal(u, others.late) && Books.Enabled(Books.Exec(u, others.late), On(id, Cas(w, now)))
              && Books.Exec(b, script) == Books.Next(Books.Exec(u, others.late), On(id, Cas(w, now)))
            else
              && Books.Legal(u, others.asking)
              && var t := Books.Exec(u, others.asking);
                 At(t, id, w, RefundSaga.Asking) && Books.Legal(t, Asked(id, w, net, now, others))
                 && Books.Exec(b, script) == Books.Exec(t, Asked(id, w, net, now, others))
  {
    var a := Create(w, net.truth, net.create);
    if net.create.CreateAnswered? {
      EffectThenOthers(b, On(id, a), others.late, [On(id, Cas(w, now))]);
      OwnPhase(b, id, a);
      Interleaved(b, id, a, others.late, w, now, PhaseAfter(b.refunds[id].saga, a).value);
    } else {
      EffectThenOthers(b, On(id, a), others.asking, Asked(id, w, net, now, others));
      OwnPhase(b, id, a);
      OthersLeave(Books.Next(b, On(id, a)), others.asking, id, w, RefundSaga.Asking);
    }
  }

  function Afterwards(s: Refund, a: Action): map<nat, Phase>
    requires Enabled(s, a)
  {
    if Outside(a) then s.workers else if a.Cas? then s.workers - {a.w}
    else if PhaseAfter(s, a).Some? then s.workers[a.w := PhaseAfter(s, a).value] else s.workers - {a.w}
  }

  /** A call changes what is outside and the caller's own phase, and does not depend on the history. */
  lemma CallIsNext(s: Refund, a: Action)
    requires Enabled(s, a) && !a.Cas?
    ensures var bare := s.(history := []);
            Enabled(bare, a) && Next(s, a) == s.(ext := ExtAfter(s.ext, a), workers := Afterwards(bare, a))
  {
  }

  /** A transition touches its refund and the payment of that. */
  lemma TransitionTouches(t: Store.Tables, id: string, expected: Status, next: Status, f: Fields, now: int)
    requires id in t.refunds && t.refunds[id].payment in t.payments
    ensures var u := Store.AfterTransition(t, id, expected, next, f, now);
            u.payments - {t.refunds[id].payment} == t.payments - {t.refunds[id].payment} && u.refunds - {id} == t.refunds - {id} && u.inbox == t.inbox
  {
  }

  function Refs(ids: set<string>): set<Ref> {
    set id | id in ids :: RefundRef(id)
  }

  /** All that ledger and provider hold. */
  datatype Outer = Outer(debited: set<Ref>, released: set<Ref>, debitsOut: set<Ref>, releasesOut: set<Ref>, held: map<Ref, Known>)

  function HeldIn(o: Outer, ref: Ref): External {
    var h := if ref in o.held then o.held[ref] else Known(Unheard, {}, 0, false);
    External(ref in o.debited, ref in o.released, ref in o.debitsOut, ref in o.releasesOut, h.truth, h.past, h.creates, h.misled)
  }

  predicate SameExcept(o: Outer, u: Outer, refs: set<Ref>) {
    && u.debited - refs == o.debited - refs && u.released - refs == o.released - refs
    && u.debitsOut - refs == o.debitsOut - refs && u.releasesOut - refs == o.releasesOut - refs
    && u.held - refs == o.held - refs
  }

  /** Calls about one refund change what is held about it, and nothing outside the given refunds. */
  lemma CallsStay(o: Outer, u: Outer, id: string, ids: set<string>)
    requires SameExcept(o, u, {RefundRef(id)}) && id in ids
    ensures forall k :: k != id ==> HeldIn(u, RefundRef(k)) == HeldIn(o, RefundRef(k))
    ensures SameExcept(o, u, Refs(ids))
  {
    var ref, refs := RefundRef(id), Refs(ids);
    SameOutside(u.debited, o.debited, ref, refs);
    SameOutside(u.released, o.released, ref, refs);
    SameOutside(u.debitsOut, o.debitsOut, ref, refs);
    SameOutside(u.releasesOut, o.releasesOut, ref, refs);
    SameEntriesOutside(u.held, o.held, ref, refs);
    forall k | k != id ensures HeldIn(u, RefundRef(k)) == HeldIn(o, RefundRef(k)) {
      var r := RefundRef(k);
      assert r in u.debited - {ref} <==> r in o.debited - {ref};
      assert r in u.released - {ref} <==> r in o.released - {ref};
      assert r in u.debitsOut - {ref} <==> r in o.debitsOut - {ref};
      assert r in u.releasesOut - {ref} <==> r in o.releasesOut - {ref};
      assert r in u.held - {ref} <==> r in o.held - {ref};
      if r in u.held { assert (u.held - {ref})[r] == (o.held - {ref})[r]; }
    }
  }

  /** Ledger and provider hold what the book says, and the calls in flight are the book's. */
  ghost predicate Around(o: Outer, refunds: map<string, Books.Entry>, hands: map<string, map<nat, Phase>>) {
    && hands.Keys == refunds.Keys
    && forall id :: id in refunds ==> refunds[id].saga.ext == HeldIn(o, RefundRef(id)) && refunds[id].saga.workers == hands[id]
  }

  lemma AroundUpdated(o: Outer, u: Outer, refunds: map<string, Books.Entry>, hands: map<string, map<nat, Phase>>, id: string, e: Books.Entry)
    requires Around(o, refunds, hands) && id in refunds && SameExcept(o, u, {RefundRef(id)}) && e.saga.ext == HeldIn(u, RefundRef(id))
    ensures Around(u, refunds[id := e], hands[id := e.saga.workers])
  {
    CallsStay(o, u, id, refunds.Keys);
  }

  lemma InBook(t: Store.Tables, o: Outer, payment: string, b: Books.Book, hands: map<string, map<nat, Phase>>, id: string, a: Action)
    requires Shows(t, payment, b) && Around(o, b.refunds, hands) && Books.Enabled(b, On(id, a)) && !a.Cas?
    ensures id in t.refunds && id in hands && t.refunds[id].rec == b.refunds[id].saga.rec && t.refunds[id].payment == payment
    ensures Enabled(Refund(t.refunds[id].rec, [], HeldIn(o, RefundRef(id)), hands[id]), a)
  {
    RowAgrees(t.refunds, payment, b.refunds, id, b.refunds[id].saga);
    CallIsNext(b.refunds[id].saga, a);
  }

  /** A call keeps tables, book and the rest of the world together. */
  lemma CallFollows(t: Store.Tables, o: Outer, u: Outer, payment: string, b: Books.Book, hands: map<string, map<nat, Phase>>, id: string, a: Action)
    requires Shows(t, payment, b) && Around(o, b.refunds, hands) && Books.Enabled(b, On(id, a)) && !a.Cas?
    requires SameExcept(o, u, {RefundRef(id)}) && HeldIn(u, RefundRef(id)) == ExtAfter(HeldIn(o, RefundRef(id)), a)
    ensures id in t.refunds && id in hands && t.refunds[id].rec == b.refunds[id].saga.rec
    ensures var bare := Refund(t.refunds[id].rec, [], HeldIn(o, RefundRef(id)), hands[id]);
            && Enabled(bare, a) && Shows(t, payment, Books.Next(b, On(id, a)))
            && Around(u, Books.Next(b, On(id, a)).refunds, hands[id := Afterwards(bare, a)])
  {
    var saga := Next(b.refunds[id].saga, a);
    StepShape(b, id, a);
    CallIsAStep(t, payment, b, id, a);
    InBook(t, o, payment, b, hands, id, a);
    CallIsNext(b.refunds[id].saga, a);
    AroundUpdated(o, u, b.refunds, hands, id, Books.Entry(b.refunds[id].amount, saga));
  }

  /** So does the compare-and-set of a worker in flight. */
  lemma CasFollows(t: Store.Tables, o: Outer, payment: string, b: Books.Book, hands: map<string, map<nat, Phase>>, id: string, w: nat, now: int)
    requires Shows(t, payment, b) && Around(o, b.refunds, hands) && Books.Enabled(b, On(id, Cas(w, now)))
    ensures id in t.refunds && t.refunds[id].payment == payment && id in hands && w in hands[id] && hands[id][w].Ready?
    ensures var ph, a := hands[id][w], On(id, Cas(w, now));
            && Shows(Store.AfterTransition(t, id, ph.expected, ph.next, ph.f, now), payment, Books.Next(b, a))
            && Around(o, Books.Next(b, a).refunds, hands[id := hands[id] - {w}])
  {
    var saga := Next(b.refunds[id].saga, Cas(w, now));
    StepShape(b, id, Cas(w, now));
    TransitionIsAStep(t, payment, b, id, w, now);
    AroundUpdated(o, o, b.refunds, hands, id, Books.Entry(b.refunds[id].amount, saga));
  }

  class Worker {
    const store: Store.Store
    const ledger: Ledger
    const connector: Connector
    const configured: bool

    constructor (store: Store.Store, ledger: Ledger, connector: Connector, configured: bool)
      ensures this.store == store && this.ledger == ledger && this.connector == connector && this.configured == configured
    {
      this.store, this.ledger, this.connector, this.configured := store, ledger, connector, configured;
    }

    function Outside(): Outer
      reads ledger, connector
    {
      Outer(ledger.debited, ledger.released, ledger.debitsOut, ledger.releasesOut, connector.held)
    }

    function Held(id: string): External
      reads ledger, connector
    {
      HeldIn(Outside(), RefundRef(id))
    }

    /** The world is as the payment's book says. */
    ghost predicate Follows(payment: string, b: Books.Book, hands: map<string, map<nat, Phase>>)
      reads store, ledger, connector
    {
      store.Valid() && Shows(store.Now(), payment, b) && Around(Outside(), b.refunds, hands)
    }

    /** Nothing about other payments, and nothing outside about refunds other than these, has changed. */
    twostate predicate OnlyTouches(payment: string, ids: set<string>)
      reads store, ledger, connector
    {
      && store.payments - {payment} == old(store.payments) - {payment} && store.inbox == old(store.inbox)
      && store.refunds - ids == old(store.refunds) - ids
      && SameExcept(old(Outside()), Outside(), Refs(ids))
    }

    method Debits(id: string, out: LedgerOutcome) returns (r: LedgerReply)
      modifies ledger
      ensures r == ReplyOf(out) && Held(id) == AfterDebit(old(Held(id)), out) && SameExcept(old(Outside()), Outside(), {RefundRef(id)})
    {
      r := ledger.Debit(RefundRef(id), out);
    }

    method Releases(id: string, out: LedgerOutcome) returns (r: LedgerReply)
      modifies ledger
      ensures r == ReplyOf(out) && Held(id) == AfterRelease(old(Held(id)), out) && SameExcept(old(Outside()), Outside(), {RefundRef(id)})
    {
      r := ledger.Release(RefundRef(id), out);
    }

    method Creates(id: string, truth: Truth, create: CreateReply) returns (r: CreateReply)
      modifies connector
      ensures r == create && Held(id) == AfterCreate(old(Held(id)), truth, create) && SameExcept(old(Outside()), Outside(), {RefundRef(id)})
    {
      r := connector.Create(RefundRef(id), truth, create);
    }

    /** What an action does outside the database. */
    method Effect(id: string, a: Action)
      modifies ledger, connector
      ensures Held(id) == ExtAfter(old(Held(id)), a)
      ensures SameExcept(old(Outside()), Outside(), {RefundRef(id)})
    {
      match a {
        case Debit(_, out) => var _ := Debits(id, out);
        case Create(_, t, create) => var _ := Creates(id, t, create);
        case Credit(_, out) => var _ := Releases(id, out);
        case Advance(t) => connector.Advance(RefundRef(id), t);
        case DebitArrives => ledger.Arrive(RefundRef(id), true);
        case CreditArrives => ledger.Arrive(RefundRef(id), false);
        case _ =>
      }
    }

    // ----- other people's steps

    /** One step of somebody on one refund of the payment: its call, or its compare-and-set. */
    method Step(payment: string, id: string, a: Action, hands: map<string, map<nat, Phase>>, ghost b: Books.Book)
      returns (after: map<string, map<nat, Phase>>)
      requires Follows(payment, b, hands) && Books.Enabled(b, On(id, a))
      modifies store, ledger, connector
      ensures Follows(payment, Books.Next(b, On(id, a)), after) && OnlyTouches(payment, hands.Keys) && after.Keys == hands.Keys
    {
      if a.Cas? {
        after := Swap(payment, id, a.w, a.now, hands, b);
      } else {
        after := Call(payment, id, a, hands, b);
      }
    }

    method Call(payment: string, id: string, a: Action, hands: map<string, map<nat, Phase>>, ghost b: Books.Book)
      returns (after: map<string, map<nat, Phase>>)
      requires Follows(payment, b, hands) && Books.Enabled(b, On(id, a)) && !a.Cas?
      modifies ledger, connector
      ensures Follows(payment, Books.Next(b, On(id, a)), after) && OnlyTouches(payment, hands.Keys) && after.Keys == hands.Keys
    {
      ghost var o := Outside();
      InBook(store.Now(), o, payment, b, hands, id, a);
      after := hands[id := Afterwards(Refund(store.refunds[id].rec, [], Held(id), hands[id]), a)];
      Effect(id, a);
      CallFollows(store.Now(), o, Outside(), payment, b, hands, id, a);
      CallsStay(o, Outside(), id, hands.Keys);
    }

    method Swap(payment: string, id: string, w: nat, now: int, hands: map<string, map<nat, Phase>>, ghost b: Books.Book)
      returns (after: map<string, map<nat, Phase>>)
      requires Follows(payment, b, hands) && Books.Enabled(b, On(id, Cas(w, now)))
      modifies store
      ensures Follows(payment, Books.Next(b, On(id, Cas(w, now))), after) && OnlyTouches(payment, hands.Keys) && after.Keys == hands.Keys
    {
      CasFollows(store.Now(), Outside(), payment, b, hands, id, w, now);
      var ph := hands[id][w];
      after := Commit(payment, id, ph.expected, ph.next, ph.f, now, hands, w, Books.Next(b, On(id, Cas(w, now))));
    }

    /** TransitionRefund of a worker in flight; u is what becomes of the book. */
    method Commit(payment: string, id: string, expected: Status, next: Status, f: Fields, now: int,
                  hands: map<string, map<nat, Phase>>, w: nat, ghost u: Books.Book) returns (after: map<string, map<nat, Phase>>)
      requires store.Valid() && id in store.refunds && store.refunds[id].payment == payment && id in hands
      requires Shows(Store.AfterTransition(store.Now(), id, expected, next, f, now), payment, u)
      requires Around(Outside(), u.refunds, hands[id := hands[id] - {w}])
      modifies store
      ensures Follows(payment, u, after) && OnlyTouches(payment, hands.Keys) && after.Keys == hands.Keys
    {
      Move(payment, id, expected, next, f, now, hands.Keys);
      after := hands[id := hands[id] - {w}];
    }

    /** The call of TransitionRefund whose result process() throws away. */
    method Move(payment: string, id: string, expected: Status, next: Status, f: Fields, now: int, ghost ids: set<string>)
      requires store.Valid() && id in store.refunds && store.refunds[id].payment == payment && id in ids
      modifies store
      ensures store.Valid() && store.Now() == Store.AfterTransition(old(store.Now()), id, expected, next, f, now)
      ensures OnlyTouches(payment, ids)
    {
      TransitionTouches(store.Now(), id, expected, next, f, now);
      ghost var before := store.refunds;
      var _ := store.TransitionRefund(id, expected, next, f, now);
      SameEntriesOutside(store.refunds, before, id, ids);
    }

    method Interfere(payment: string, acts: seq<Books.Action>, hands: map<string, map<nat, Phase>>, ghost b: Books.Book)
      returns (after: map<string, map<nat, Phase>>)
      requires Follows(payment, b, hands) && Books.Legal(b, acts) && OnRefunds(acts)
      modifies store, ledger, connector
      ensures Follows(payment, Books.Exec(b, acts), after) && OnlyTouches(payment, hands.Keys) && after.Keys == hands.Keys
      decreases |acts|
    {
      after := hands;
      if acts != [] {
        ghost var u := FirstStep(b, acts);
        var rest := acts[1..];
        after := Step(payment, acts[0].id, acts[0].act, after, b);
        after := Interfere(payment, rest, after, u);
      }
    }

    // ----- process()

    /** TransitionRefund as process() calls it: after whatever everybody else has done since w's last answer. */
    method Conclude(payment: string, id: string, expected: Status, next: Status, f: Fields, now: int, others: seq<Books.Action>,
                    hands: map<string, map<nat, Phase>>, w: nat, ghost b: Books.Book) returns (after: map<string, map<nat, Phase>>)
      requires Follows(payment, b, hands) && At(b, id, w, Ready(expected, next, f))
      requires Others(others, id, w) && Books.Legal(b, others)
      modifies store, ledger, connector
      ensures At(Books.Exec(b, others), id, w, Ready(expected, next, f))
      ensures Follows(payment, Books.Next(Books.Exec(b, others), On(id, Cas(w, now))), after)
      ensures OnlyTouches(payment, hands.Keys) && after.Keys == hands.Keys
    {
      OthersLeave(b, others, id, w, Ready(expected, next, f));
      after := Interfere(payment, others, hands, b);
      ghost var t := Books.Exec(b, others);
      CasFollows(store.Now(), Outside(), payment, t, after, id, w, now);
      after := Commit(payment, id, expected, next, f, now, after, w, Books.Next(t, On(id, Cas(w, now))));
    }

    /** applyProvider: the compare-and-set that a provider's answer asks for. */
    method ApplyProvider(payment: string, id: string, status: Status, result: Report, now: int, others: seq<Books.Action>,
                         hands: map<string, map<nat, Phase>>, w: nat, ghost b: Books.Book) returns (after: map<string, map<nat, Phase>>)
      requires Follows(payment, b, hands) && At(b, id, w, Ready(status, Target(result.status), WorkerFields(result)))
      requires Others(others, id, w) && Books.Legal(b, others)
      modifies store, ledger, connector
      ensures At(Books.Exec(b, others), id, w, Ready(status, Target(result.status), WorkerFields(result)))
      ensures Follows(payment, Books.Next(Books.Exec(b, others), On(id, Cas(w, now))), after)
      ensures OnlyTouches(payment, hands.Keys) && after.Keys == hands.Keys
    {
      var next := Pending;
      if result.status == SaysConfirmed {
        next := Succeeded;
      } else if result.status == SaysFailed || result.status == SaysRejected {
        next := PendingCompensation;
      }
      after := Conclude(payment, id, status, next, Fields(result.providerId, result.raw, false, false, true), now, others, hands, w, b);
    }

    /** The ledger's debit, as a step of w's call. */
    method DebitCall(payment: string, id: string, w: nat, out: LedgerOutcome, hands: map<string, map<nat, Phase>>, ghost b: Books.Book)
      returns (r: LedgerReply, after: map<string, map<nat, Phase>>)
      requires Follows(payment, b, hands) && Books.Enabled(b, On(id, Debit(w, out)))
      modifies ledger
      ensures r == ReplyOf(out) && Follows(payment, Books.Next(b, On(id, Debit(w, out))), after)
      ensures OnlyTouches(payment, hands.Keys) && after.Keys == hands.Keys
    {
      ghost var o := Outside();
      InBook(store.Now(), o, payment, b, hands, id, Debit(w, out));
      after := hands[id := Afterwards(Refund(store.refunds[id].rec, [], Held(id), hands[id]), Debit(w, out))];
      r := Debits(id, out);
      CallFollows(store.Now(), o, Outside(), payment, b, hands, id, Debit(w, out));
      CallsStay(o, Outside(), id, hands.Keys);
    }

    method ReleaseCall(payment: string, id: string, w: nat, out: LedgerOutcome, hands: map<string, map<nat, Phase>>, ghost b: Books.Book)
      returns (r: LedgerReply, after: map<string, map<nat, Phase>>)
      requires Follows(payment, b, hands) && Books.Enabled(b, On(id, Credit(w, out)))
      modifies ledger
      ensures r == ReplyOf(out) && Follows(payment, Books.Next(b, On(id, Credit(w, out))), after)
      ensures OnlyTouches(payment, hands.Keys) && after.Keys == hands.Keys
    {
      ghost var o := Outside();
      InBook(store.Now(), o, payment, b, hands, id, Credit(w, out));
      after := hands[id := Afterwards(Refund(store.refunds[id].rec, [], Held(id), hands[id]), Credit(w, out))];
      r := Releases(id, out);
      CallFollows(store.Now(), o, Outside(), payment, b, hands, id, Credit(w, out));
      CallsStay(o, Outside(), id, hands.Keys);
    }

    method CreateCall(payment: string, id: string, w: nat, t: Truth, create: CreateReply, hands: map<string, map<nat, Phase>>, ghost b: Books.Book)
      returns (r: CreateReply, after: map<string, map<nat, Phase>>)
      requires Follows(payment, b, hands) && Books.Enabled(b, On(id, Create(w, t, create)))
      modifies connector
      ensures r == create && Follows(payment, Books.Next(b, On(id, Create(w, t, create))), after)
      ensures OnlyTouches(payment, hands.Keys) && after.Keys == hands.Keys
    {
      ghost var o := Outside();
      InBook(store.Now(), o, payment, b, hands, id, Create(w, t, create));
      after := hands[id := Afterwards(Refund(store.refunds[id].rec, [], Held(id), hands[id]), Create(w, t, create))];
      r := Creates(id, t, create);
      CallFollows(store.Now(), o, Outside(), payment, b, hands, id, Create(w, t, create));
      CallsStay(o, Outside(), id, hands.Keys);
    }

    method LookupCall(payment: string, id: string, w: nat, lookup: LookupReply, hands: map<string, map<nat, Phase>>, ghost b: Books.Book)
      returns (r: LookupReply, after: map<string, map<nat, Phase>>)
      requires Follows(payment, b, hands) && Books.Enabled(b, On(id, Lookup(w, lookup)))
      ensures r == lookup && Follows(payment, Books.Next(b, On(id, Lookup(w, lookup))), after)
      ensures after.Keys == hands.Keys
    {
      InBook(store.Now(), Outside(), payment, b, hands, id, Lookup(w, lookup));
      after := hands[id := Afterwards(Refund(store.refunds[id].rec, [], Held(id), hands[id]), Lookup(w, lookup))];
      r := connector.Get(RefundRef(id), lookup);
      CallFollows(store.Now(), Outside(), Outside(), payment, b, hands, id, Lookup(w, lookup));
    }

    /** process: whatever its snapshot says, whatever the answers, and whatever the workers of the payment's refunds do in
        between, the call is the run of the payment's book in which its steps and theirs are interleaved so: refund row,
        closing of the payment, ledger and provider. No other payment and no refund of another is touched. */
    method Process(payment: string, id: string, status: Status, net: Answers, now: int, others: Interference,
                   hands: map<string, map<nat, Phase>>, w: nat, ghost b: Books.Book) returns (after: map<string, map<nat, Phase>>)
      requires Follows(payment, b, hands) && At(b, id, w, Snap(status)) && ByOthers(others, id, w)
      requires Books.Legal(b, Disturbed(id, status, w, net, now, configured, others))
      modifies store, ledger, connector
      ensures Follows(payment, Books.Exec(b, Disturbed(id, status, w, net, now, configured, others)), after)
      ensures OnlyTouches(payment, hands.Keys) && after.Keys == hands.Keys
    {
      match status {
        case PendingDebit => after := ProcessDebit(payment, id, net, now, others, hands, w, b);
        case PendingProvider => after := ProcessCreate(payment, id, net, now, others, hands, w, b);
        case Pending => after := ProcessLookup(payment, id, status, net, now, others, hands, w, b);
        case PendingCompensation => after := ProcessCompensation(payment, id, net, now, others, hands, w, b);
        case _ => after := Leave(payment, id, w, hands, b);
      }
    }

    /** The call returns without having done anything. */
    method Leave(payment: string, id: string, w: nat, hands: map<string, map<nat, Phase>>, ghost b: Books.Book)
      returns (after: map<string, map<nat, Phase>>)
      requires Follows(payment, b, hands) && Books.Legal(b, [On(id, Crash(w))])
      ensures Follows(payment, Books.Exec(b, [On(id, Crash(w))]), after) && after.Keys == hands.Keys
    {
      Books.One(b, On(id, Crash(w)));
      InBook(store.Now(), Outside(), payment, b, hands, id, Crash(w));
      after := hands[id := Afterwards(Refund(store.refunds[id].rec, [], Held(id), hands[id]), Crash(w))];
      CallFollows(store.Now(), Outside(), Outside(), payment, b, hands, id, Crash(w));
    }

    method ProcessDebit(payment: string, id: string, net: Answers, now: int, others: Interference,
                        hands: map<string, map<nat, Phase>>, w: nat, ghost b: Books.Book) returns (after: map<string, map<nat, Phase>>)
      requires Follows(payment, b, hands) && At(b, id, w, Snap(PendingDebit)) && ByOthers(others, id, w)
      requires Books.Legal(b, Disturbed(id, PendingDebit, w, net, now, configured, others))
      modifies store, ledger, connector
      ensures Follows(payment, Books.Exec(b, Disturbed(id, PendingDebit, w, net, now, configured, others)), after)
      ensures OnlyTouches(payment, hands.Keys) && after.Keys == hands.Keys
    {
      if !configured {
        after := Leave(payment, id, w, hands, b);
        return;
      }
      ghost var u, v := DebitScript(b, id, w, net, others, now);
      var reply;
      reply, after := DebitCall(payment, id, w, net.debit, hands, b);
      after := AfterDebitReply(payment, id, reply, now, others.late, after, w, u, v);
    }

    /** v is what the book comes to. */
    method AfterDebitReply(payment: string, id: string, reply: LedgerReply, now: int, others: seq<Books.Action>, hands: map<string, map<nat, Phase>>,
                           w: nat, ghost b: Books.Book, ghost v: Books.Book) returns (after: map<string, map<nat, Phase>>)
      requires Follows(payment, b, hands) && Others(others, id, w)
      requires DebitAnswered(b, v, id, w, reply, others, now)
      modifies store, ledger, connector
      ensures Follows(payment, v, after) && OnlyTouches(payment, hands.Keys) && after.Keys == hands.Keys
    {
      after := hands;
      if !reply.LedgerOk? {
        if reply.LedgerShort? {
          after := Conclude(payment, id, PendingDebit, Failed, NO_FIELDS.(short := true), now, others, hands, w, b);
        }
        return;
      }
      after := Conclude(payment, id, PendingDebit, PendingProvider, NO_FIELDS.(debited := true), now, others, hands, w, b);
    }

    method ProcessCreate(payment: string, id: string, net: Answers, now: int, others: Interference,
                         hands: map<string, map<nat, Phase>>, w: nat, ghost b: Books.Book) returns (after: map<string, map<nat, Phase>>)
      requires Follows(payment, b, hands) && At(b, id, w, Snap(PendingProvider)) && ByOthers(others, id, w)
      requires Books.Legal(b, Disturbed(id, PendingProvider, w, net, now, configured, others))
      modifies store, ledger, connector
      ensures Follows(payment, Books.Exec(b, Disturbed(id, PendingProvider, w, net, now, configured, others)), after)
      ensures OnlyTouches(payment, hands.Keys) && after.Keys == hands.Keys
    {
      CreateScript(b, id, w, net, others, now);
      ghost var u := Books.Next(b, On(id, Create(w, net.truth, net.create)));
      var reply;
      reply, after := CreateCall(payment, id, w, net.truth, net.create, hands, b);
      if reply.CreateAnswered? {
        after := ApplyProvider(payment, id, PendingProvider, reply.report, now, others.late, after, w, u);
      } else {
        after := Interfere(payment, others.asking, after, u);
        after := AskAndApply(payment, id, PendingProvider, net, now, others, after, w, Books.Exec(u, others.asking));
      }
    }

    /** GetRefund, and nothing more if it does not answer. */
    method AskAndApply(payment: string, id: string, status: Status, net: Answers, now: int, others: Interference,
                       hands: map<string, map<nat, Phase>>, w: nat, ghost b: Books.Book) returns (after: map<string, map<nat, Phase>>)
      requires Follows(payment, b, hands) && ByOthers(others, id, w)
      requires (status == Pending && At(b, id, w, Snap(Pending))) || (status == PendingProvider && At(b, id, w, RefundSaga.Asking))
      requires Books.Legal(b, Asked(id, w, net, now, others))
      modifies store, ledger, connector
      ensures Follows(payment, Books.Exec(b, Asked(id, w, net, now, others)), after)
      ensures OnlyTouches(payment, hands.Keys) && after.Keys == hands.Keys
    {
      AskScript(b, id, status, w, net, others, now);
      var found;
      found, after := LookupCall(payment, id, w, net.lookup, hands, b);
      if found.LookupNoAnswer? {
        return;
      }
      after := ApplyProvider(payment, id, status, found.report, now, others.late, after, w, Books.Next(b, On(id, Lookup(w, net.lookup))));
    }

    method ProcessLookup(payment: string, id: string, status: Status, net: Answers, now: int, others: Interference,
                         hands: map<string, map<nat, Phase>>, w: nat, ghost b: Books.Book) returns (after: map<string, map<nat, Phase>>)
      requires Follows(payment, b, hands) && status == Pending && At(b, id, w, Snap(status)) && ByOthers(others, id, w)
      requires Books.Legal(b, Asked(id, w, net, now, others))
      modifies store, ledger, connector
      ensures Follows(payment, Books.Exec(b, Asked(id, w, net, now, others)), after)
      ensures OnlyTouches(payment, hands.Keys) && after.Keys == hands.Keys
    {
      after := AskAndApply(payment, id, status, net, now, others, hands, w, b);
    }

    method ProcessCompensation(payment: string, id: string, net: Answers, now: int, others: Interference,
                               hands: map<string, map<nat, Phase>>, w: nat, ghost b: Books.Book) returns (after: map<string, map<nat, Phase>>)
      requires Follows(payment, b, hands) && At(b, id, w, Snap(PendingCompensation)) && ByOthers(others, id, w)
      requires Books.Legal(b, Disturbed(id, PendingCompensation, w, net, now, configured, others))
      modifies store, ledger, connector
      ensures Follows(payment, Books.Exec(b, Disturbed(id, PendingCompensation, w, net, now, configured, others)), after)
      ensures OnlyTouches(payment, hands.Keys) && after.Keys == hands.Keys
    {
      if !configured {
        after := Leave(payment, id, w, hands, b);
        return;
      }
      ghost var u, v := CreditScript(b, id, w, net, others, now);
      var reply;
      reply, after := ReleaseCall(payment, id, w, net.credit, hands, b);
      if !reply.LedgerOk? {
        return;
      }
      after := Conclude(payment, id, PendingCompensation, Failed, NO_FIELDS, now, others.late, after, w, u);
    }
  }
}
