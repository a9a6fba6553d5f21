/** The payout worker (internal/app/payouts.go): process() and applyProvider() acting on the store, the
    ledger and the connector. The answers of the outside world during one call are a parameter, and so is
    everything that other workers, event handlers, ledger and provider do to the payout between the steps of the
    call; what the call does is proved to be the schedule of the saga protocol in which its steps and theirs
    are interleaved so. */
module PayoutDriver {
  import opened Common
  import opened Parties
  import opened Clients
  import opened PayoutLifecycle
  import opened PayoutSaga
  import Journal = PayoutJournal
  import PayoutStore

  /** What ledger and provider would answer during one call of process(). */
  datatype Answers = Answers(debit: LedgerOutcome, credit: LedgerOutcome, truth: Truth, create: CreateReply, lookup: LookupReply)

  /** The steps process() takes from a snapshot, if nobody interferes. */
  function Script(status: Status, w: nat, net: Answers, now: int, configured: bool): seq<Action> {
    match status
    case PendingDebit =>
      if !configured then [Crash(w)]
      else if net.debit.Applied? || net.debit.Insufficient? then [Debit(w, net.debit), Cas(w, now)]
      else [Debit(w, net.debit)]
    case PendingProvider =>
      if net.create.CreateNoAnswer? then [Create(w, net.truth, net.create), Lookup(w, net.lookup), Cas(w, now)]
      else [Create(w, net.truth, net.create), Cas(w, now)]
    case ProviderUnknown =>
      if net.lookup.LookupAnswered? then [Lookup(w, net.lookup), Cas(w, now)] else [Lookup(w, net.lookup)]
    case Processing =>
      if net.lookup.LookupAnswered? then [Lookup(w, net.lookup), Cas(w, now)] else [Lookup(w, net.lookup)]
    case Confirmed => [Crash(w)]
    case Failed => [Crash(w)]
    case Cancelled => [Crash(w)]
    case Reversed => [Crash(w)]
    case _ =>
      if !configured then [Crash(w)]
      else if net.credit.Applied? then [Credit(w, net.credit), Cas(w, now)]
      else [Credit(w, net.credit)]
  }

  /** What happens to the payout while a call is under way: between an unanswered create and the query that follows
      it, and between the last answer and the compare-and-set. */
  datatype Interference = Interference(asking: seq<Action>, late: seq<Action>)

  /** Steps of everybody but w. */
  predicate Others(acts: seq<Action>, w: nat) {
    forall i :: 0 <= i < |acts| ==> Outside(acts[i]) || acts[i].w != w
  }

  predicate ByOthers(i: Interference, w: nat) {
    Others(i.asking, w) && Others(i.late, w)
  }

  /** The schedule of one call of process() with the others' steps in between. */
  function Disturbed(status: Status, w: nat, net: Answers, now: int, configured: bool, i: Interference): seq<Action> {
    match status
    case PendingDebit =>
      if !configured then [Crash(w)]
      else if net.debit.Applied? || net.debit.Insufficient? then [Debit(w, net.debit)] + i.late + [Cas(w, now)]
      else [Debit(w, net.debit)]
    case PendingProvider =>
      if net.create.CreateNoAnswer? then
        [Create(w, net.truth, net.create)] + i.asking + ([Lookup(w, net.lookup)] + i.late + [Cas(w, now)])
      else [Create(w, net.truth, net.create)] + i.late + [Cas(w, now)]
    case ProviderUnknown => DisturbedLookup(w, net, now, i)
    case Processing => DisturbedLookup(w, net, now, i)
    case Confirmed => [Crash(w)]
    case Failed => [Crash(w)]
    case Cancelled => [Crash(w)]
    case Reversed => [Crash(w)]
    case _ =>
      if !configured then [Crash(w)]
      else if net.credit.Applied? then [Credit(w, net.credit)] + i.late + [Cas(w, now)]
      else [Credit(w, net.credit)]
  }

  function DisturbedLookup(w: nat, net: Answers, now: int, i: Interference): seq<Action> {
    if net.lookup.LookupAnswered? then [Lookup(w, net.lookup)] + i.late + [Cas(w, now)] else [Lookup(w, net.lookup)]
  }

  /** With nobody else about, this is the plain script. */
  lemma UndisturbedIsScript(status: Status, w: nat, net: Answers, now: int, configured: bool)
    ensures Disturbed(status, w, net, now, configured, Interference([], [])) == Script(status, w, net, now, configured)
  {
  }

  /** Others never touch a worker's own phase. */
  lemma {:induction false} OthersLeave(s: Payout, acts: seq<Action>, w: nat)
    requires Legal(s, acts) && Others(acts, w) && w in s.workers
    ensures w in Exec(s, acts).workers && Exec(s, acts).workers[w] == s.workers[w]
    decreases |acts|
  {
    if acts != [] {
      assert forall i :: 0 <= i < |acts[1..]| ==> acts[1..][i] == acts[i + 1];
      OthersLeave(Next(s, acts[0]), acts[1..], w);
    }
  }

  lemma CasCommits(s: Payout, w: nat, now: int)
    requires w in s.workers && s.workers[w].Ready?
    ensures var ph := s.workers[w];
            Next(s, Cas(w, now)) == Committed(s, s.ext, w, ph.expected, ph.next, ph.f, now)
  {
  }

  function Afterwards(s: Payout, a: Action): map<nat, Phase>
    requires Enabled(s, a)
  {
    if Outside(a) then s.workers else if a.Cas? then s.workers - {a.w} else Place(s.workers, a.w, PhaseAfter(s, a))
  }

  /** A call changes what is outside and the caller's own phase, and does not depend on the history. */
  lemma CallIsNext(s: Payout, a: Action)
    requires Enabled(s, a) && !a.Cas?
    ensures var bare := s.(history := []);
            Enabled(bare, a) && Next(s, a) == s.(ext := ExtAfter(s.ext, a), workers := Afterwards(bare, a))
  {
  }

  /** An effect, the others' steps, and whatever the worker does then. */
  lemma EffectThenOthers(s: Payout, a: Action, others: seq<Action>, w: nat, rest: seq<Action>)
    requires Legal(s, [a] + others + rest) && Others(others, w)
    ensures Enabled(s, a) && Legal(Next(s, a), others) && Legal(Exec(Next(s, a), others), rest)
    ensures Exec(s, [a] + others + rest) == Exec(Exec(Next(s, a), others), rest)
    ensures w in Next(s, a).workers ==>
              w in Exec(Next(s, a), others).workers && Exec(Next(s, a), others).workers[w] == Next(s, a).workers[w]
  {
    RunApart(s, [a] + others, rest);
    RunApart(s, [a], others);
    One(s, a);
    if w in Next(s, a).workers { OthersLeave(Next(s, a), others, w); }
  }

  lemma Exec1(s: Payout, a: Action)
    requires Legal(s, [a])
    ensures Enabled(s, a) && Exec(s, [a]) == Next(s, a)
  {
    assert Exec(Next(s, a), [a][1..]) == Next(s, a);
  }

  lemma Exec2(s: Payout, a: Action, b: Action)
    requires Legal(s, [a, b])
    ensures Enabled(s, a) && Enabled(Next(s, a), b) && Exec(s, [a, b]) == Next(Next(s, a), b)
  {
    assert [a, b][1..] == [b];
    Exec1(Next(s, a), b);
  }

  lemma Exec3(s: Payout, a: Action, b: Action, c: Action)
    requires Legal(s, [a, b, c])
    ensures Enabled(s, a) && Enabled(Next(s, a), b) && Enabled(Next(Next(s, a), b), c)
    ensures Exec(s, [a, b, c]) == Next(Next(Next(s, a), b), c)
  {
    assert [a, b, c][1..] == [b, c];
    Exec2(Next(s, a), b, c);
  }

  /** An effect outside the database followed by a compare-and-set, as one change of the payout. */
  function Committed(s: Payout, e: External, w: nat, expected: Status, next: Status, f: Fields, now: int): Payout {
    Payout(RecordAfter(s.rec, expected, next, f, now), HistoryAfter(s.rec.status, s.history, expected, next), e, s.workers - {w})
  }

  lemma EffectThenCas(s: Payout, a: Action, w: nat, now: int)
    requires !Outside(a) && !a.Cas? && a.w == w && Legal(s, [a, Cas(w, now)])
    ensures PhaseAfter(s, a).Some? && PhaseAfter(s, a).value.Ready?
    ensures var ph := PhaseAfter(s, a).value;
            Exec(s, [a, Cas(w, now)]) == Committed(s, ExtAfter(s.ext, a), w, ph.expected, ph.next, ph.f, now)
  {
    Exec2(s, a, Cas(w, now));
    assert Next(s, a).workers - {w} == s.workers - {w};
  }

  lemma AskThenCas(s: Payout, w: nat, net: Answers, now: int)
    requires net.create.CreateNoAnswer?
    requires Legal(s, [Create(w, net.truth, net.create), Lookup(w, net.lookup), Cas(w, now)])
    ensures var e := ExtAfter(s.ext, Create(w, net.truth, net.create));
            Exec(s, [Create(w, net.truth, net.create), Lookup(w, net.lookup), Cas(w, now)]) ==
            match net.lookup
            case LookupAnswered(r) => Committed(s, e, w, PendingProvider, Target(r.status), WorkerFields(r), now)
            case LookupNoAnswer => Committed(s, e, w, PendingProvider, ProviderUnknown, NO_FIELDS.(lastError := CreateAmbiguous), now)
  {
    var a, b, c := Create(w, net.truth, net.create), Lookup(w, net.lookup), Cas(w, now);
    Exec3(s, a, b, c);
    assert Next(Next(s, a), b).workers - {w} == s.workers - {w};
  }

  /** An effect, the others' steps, and the compare-and-set. */
  lemma Interleaved(s: Payout, a: Action, others: seq<Action>, w: nat, now: int)
    requires Legal(s, [a] + others + [Cas(w, now)]) && Others(others, w)
    ensures Enabled(s, a) && Legal(Next(s, a), others)
    ensures w in Next(s, a).workers && Next(s, a).workers[w].Ready? ==>
              var t, ph := Exec(Next(s, a), others), Next(s, a).workers[w];
              Exec(s, [a] + others + [Cas(w, now)]) == Committed(t, t.ext, w, ph.expected, ph.next, ph.f, now)
  {
    EffectThenOthers(s, a, others, w, [Cas(w, now)]);
    var t := Exec(Next(s, a), others);
    One(t, Cas(w, now));
    CasCommits(t, w, now);
  }

  /** What the debit branch comes to. */
  lemma DebitScript(s: Payout, w: nat, out: LedgerOutcome, others: seq<Action>, now: int)
    requires w in s.workers && s.workers[w] == Snap(PendingDebit) && Others(others, w)
    requires Legal(s, if out.Applied? || out.Insufficient? then [Debit(w, out)] + others + [Cas(w, now)] else [Debit(w, out)])
    ensures Enabled(s, Debit(w, out))
    ensures var u := Next(s, Debit(w, out));
            var t := if Legal(u, others) then Exec(u, others) else u;
            if out.Applied? then
              && u == s.(ext := AfterDebit(s.ext, out), workers := s.workers[w := Ready(PendingDebit, PendingProvider, NO_FIELDS.(debited := true))])
              && Legal(u, others)
              && Exec(s, [Debit(w, out)] + others + [Cas(w, now)]) == Committed(t, t.ext, w, PendingDebit, PendingProvider, NO_FIELDS.(debited := true), now)
            else if out.Insufficient? then
              && u == s.(ext := AfterDebit(s.ext, out), workers := s.workers[w := Ready(PendingDebit, Failed, NO_FIELDS.(lastError := InsufficientBalance))])
              && Legal(u, others)
              && Exec(s, [Debit(w, out)] + others + [Cas(w, now)]) == Committed(t, t.ext, w, PendingDebit, Failed, NO_FIELDS.(lastError := InsufficientBalance), now)
            else Exec(s, [Debit(w, out)]) == s.(ext := AfterDebit(s.ext, out), workers := s.workers - {w})
  {
    if out.Applied? || out.Insufficient? {
      Interleaved(s, Debit(w, out), others, w, now);
    } else {
      One(s, Debit(w, out));
    }
  }

  lemma CreditScript(s: Payout, w: nat, out: LedgerOutcome, others: seq<Action>, now: int)
    requires w in s.workers && s.workers[w].Snap? && Compensating(s.workers[w].status) && Others(others, w)
    requires Legal(s, if out.Applied? then [Credit(w, out)] + others + [Cas(w, now)] else [Credit(w, out)])
    ensures Enabled(s, Credit(w, out))
    ensures var u, status := Next(s, Credit(w, out)), s.workers[w].status;
            if out.Applied? then
              && u == s.(ext := AfterRelease(s.ext, out), workers := s.workers[w := Ready(status, Settled(status), NO_FIELDS)])
              && Legal(u, others)
              && var t := Exec(u, others);
                 Exec(s, [Credit(w, out)] + others + [Cas(w, now)]) == Committed(t, t.ext, w, status, Settled(status), NO_FIELDS, now)
            else Exec(s, [Credit(w, out)]) == s.(ext := AfterRelease(s.ext, out), workers := s.workers - {w})
  {
    if out.Applied? {
      Interleaved(s, Credit(w, out), others, w, now);
    } else {
      One(s, Credit(w, out));
    }
  }

  lemma CreateScript(s: Payout, w: nat, net: Answers, others: Interference, now: int)
    requires w in s.workers && s.workers[w] == Snap(PendingProvider) && ByOthers(others, w)
    requires Legal(s, Disturbed(PendingProvider, w, net, now, true, others))
    ensures var a := Create(w, net.truth, net.create);
            && Enabled(s, a)
            && var u, script := Next(s, a), Disturbed(PendingProvider, w, net, now, true, others);
            if net.create.CreateNoAnswer? then
              && u == s.(ext := AfterCreate(s.ext, net.truth, net.create), workers := s.workers[w := Asking])
              && Legal(u, others.asking)
              && var t := Exec(u, others.asking);
                 && w in t.workers && t.workers[w] == Asking
                 && Legal(t, [Lookup(w, net.lookup)] + others.late + [Cas(w, now)])
                 && Exec(s, script) == Exec(t, [Lookup(w, net.lookup)] + others.late + [Cas(w, now)])
            else
              && var ph := if net.create.CreateRejected? then Ready(PendingProvider, PendingCompensation, NO_FIELDS.(lastError := ProviderRejected))
                           else Ready(PendingProvider, Target(net.create.report.status), WorkerFields(net.create.report));
              && u == s.(ext := AfterCreate(s.ext, net.truth, net.create), workers := s.workers[w := ph])
              && Legal(u, others.late)
              && var t := Exec(u, others.late);
                 Exec(s, script) == Committed(t, t.ext, w, PendingProvider, ph.next, ph.f, now)
  {
    var a := Create(w, net.truth, net.create);
    if net.create.CreateNoAnswer? {
      EffectThenOthers(s, a, others.asking, w, [Lookup(w, net.lookup)] + others.late + [Cas(w, now)]);
    } else {
      Interleaved(s, a, others.late, w, now);
    }
  }

  class Payouts {
    const store: PayoutStore.Store
    const ledger: Ledger
    const connector: Connector
    const configured: bool   // whether a ledger was configured at all

    constructor (store: PayoutStore.Store, ledger: Ledger, connector: Connector, configured: bool)
      ensures this.store == store && this.ledger == ledger && this.connector == connector && this.configured == configured
    {
      this.store, this.ledger, this.connector, this.configured := store, ledger, connector, configured;
    }

    function Held(id: string): External
      reads ledger, connector
    {
      var h, ref := connector.At(PayoutRef(id)), PayoutRef(id);
      External(ref in ledger.debited, ref in ledger.released, ref in ledger.debitsOut, ref in ledger.releasesOut,
               h.truth, h.past, h.creates, h.misled)
    }

    /** One payout as the protocol sees it, with the given calls of process() in flight. */
    ghost function View(id: string, workers: map<nat, Phase>): Payout
      requires store.Valid() && id in store.rows
      reads store, ledger, connector
    {
      Payout(store.rows[id], store.histories[id], Held(id), workers)
    }

    /** Neither the ledger nor the provider has heard anything about another reference. */
    twostate predicate OnlyCalls(ref: Ref)
      reads ledger, connector
    {
      && ledger.debited - {ref} == old(ledger.debited) - {ref}
      && ledger.released - {ref} == old(ledger.released) - {ref}
      && ledger.debitsOut - {ref} == old(ledger.debitsOut) - {ref}
      && ledger.releasesOut - {ref} == old(ledger.releasesOut) - {ref}
      && connector.held - {ref} == old(connector.held) - {ref}
    }

    /** Nothing about any payout other than this one has changed. */
    twostate predicate OnlyTouches(id: string)
      requires id in store.rows && id in store.histories
      reads store, ledger, connector
    {
      && store.rows - {id} == old(store.rows) - {id}
      && store.histories - {id} == old(store.histories) - {id}
      && OnlyCalls(PayoutRef(id))
    }

    /** The effect of a compare-and-set on the row of one payout. */
    twostate predicate Moved(id: string, expected: Status, next: Status, f: Fields, now: int)
      requires old(store.Valid() && id in store.rows)
      reads store
    {
      && store.Valid()
      && store.rows == old(store.rows)[id := RecordAfter(old(store.rows)[id], expected, next, f, now)]
      && store.histories == old(store.histories)[id := HistoryAfter(old(store.rows)[id].status, old(store.histories)[id], expected, next)]
    }

    /** The call of TransitionPayout whose result process() throws away. */
    method Move(id: string, expected: Status, next: Status, f: Fields, now: int)
      requires store.Valid() && id in store.rows
      modifies store
      ensures Moved(id, expected, next, f, now)
      ensures store.rows - {id} == old(store.rows) - {id} && store.histories - {id} == old(store.histories) - {id}
    {
      OtherEntries(store.rows, id, RecordAfter(store.rows[id], expected, next, f, now));
      OtherEntries(store.histories, id, HistoryAfter(store.rows[id].status, store.histories[id], expected, next));
      var r := store.TransitionPayout(id, expected, next, f, now);
      if r.Err? {
        SameEntry(store.rows, id);
        SameEntry(store.histories, id);
      }
    }

    // ----- other people's steps

    /** One step of somebody: its call, or its compare-and-set. */
    method Step(id: string, a: Action, workers: map<nat, Phase>) returns (after: map<nat, Phase>)
      requires store.Valid() && id in store.rows && Enabled(View(id, workers), a)
      modifies store, ledger, connector
      ensures store.Valid() && id in store.rows && OnlyTouches(id)
      ensures View(id, after) == Next(old(View(id, workers)), a)
    {
      ghost var before := View(id, workers);
      if a.Cas? {
        var ph := workers[a.w];
        Move(id, ph.expected, ph.next, ph.f, a.now);
        CasCommits(before, a.w, a.now);
        after := workers - {a.w};
      } else {
        after := Call(id, a, workers);
      }
    }

    method Call(id: string, a: Action, workers: map<nat, Phase>) returns (after: map<nat, Phase>)
      requires store.Valid() && id in store.rows && Enabled(View(id, workers), a) && !a.Cas?
      modifies ledger, connector
      ensures OnlyTouches(id)
      ensures View(id, after) == Next(old(View(id, workers)), a)
    {
      ghost var before := View(id, workers);
      after := Afterwards(Payout(store.rows[id], [], Held(id), workers), a);
      CallIsNext(before, a);
      Effect(id, a);
    }

    method Debits(id: string, out: LedgerOutcome) returns (r: LedgerReply)
      modifies ledger
      ensures r == ReplyOf(out) && Held(id) == AfterDebit(old(Held(id)), out) && OnlyCalls(PayoutRef(id))
    {
      r := ledger.Debit(PayoutRef(id), out);
    }

    method Releases(id: string, out: LedgerOutcome) returns (r: LedgerReply)
      modifies ledger
      ensures r == ReplyOf(out) && Held(id) == AfterRelease(old(Held(id)), out) && OnlyCalls(PayoutRef(id))
    {
      r := ledger.Release(PayoutRef(id), out);
    }

    method Creates(id: string, truth: Truth, create: CreateReply) returns (r: CreateReply)
      modifies connector
      ensures r == create && Held(id) == AfterCreate(old(Held(id)), truth, create) && OnlyCalls(PayoutRef(id))
    {
      r := connector.Create(PayoutRef(id), truth, create);
    }

    /** What an action does outside the database. */
    method Effect(id: string, a: Action)
      modifies ledger, connector
      ensures Held(id) == ExtAfter(old(Held(id)), a)
      ensures OnlyCalls(PayoutRef(id))
    {
      match a {
        case Debit(_, out) => var _ := Debits(id, out);
        case Create(_, t, create) => var _ := Creates(id, t, create);
        case Credit(_, out) => var _ := Releases(id, out);
        case Advance(t) => connector.Advance(PayoutRef(id), t);
        case DebitArrives => ledger.Arrive(PayoutRef(id), true);
        case CreditArrives => ledger.Arrive(PayoutRef(id), false);
        case _ =>
      }
    }

    method Interfere(id: string, acts: seq<Action>, workers: map<nat, Phase>) returns (after: map<nat, Phase>)
      requires store.Valid() && id in store.rows && Legal(View(id, workers), acts)
      modifies store, ledger, connector
      ensures store.Valid() && id in store.rows && OnlyTouches(id)
      ensures View(id, after) == Exec(old(View(id, workers)), acts)
      decreases |acts|
    {
      after := workers;
      if acts != [] {
        after := Step(id, acts[0], after);
        after := Interfere(id, acts[1..], after);
      }
    }

    // ----- process()

    /** TransitionPayout as process() calls it: after whatever everybody else has done since w's last answer. */
    method Conclude(id: string, expected: Status, next: Status, f: Fields, now: int, others: seq<Action>,
                    workers: map<nat, Phase>, w: nat, ghost s: Payout) returns (after: map<nat, Phase>)
      requires store.Valid() && id in store.rows && View(id, workers[w := Ready(expected, next, f)]) == s
      requires Others(others, w) && Legal(s, others)
      modifies store, ledger, connector
      ensures store.Valid() && id in store.rows && OnlyTouches(id)
      ensures var t := Exec(s, others); View(id, after) == Committed(t, t.ext, w, expected, next, f, now)
    {
      OthersLeave(s, others, w);
      after := Interfere(id, others, workers[w := Ready(expected, next, f)]);
      Move(id, expected, next, f, now);
      after := after - {w};
    }

    /** applyProvider: the compare-and-set that a provider's answer asks for. */
    method ApplyProvider(p: PayoutStore.Snapshot, result: Report, now: int, others: seq<Action>,
                         workers: map<nat, Phase>, w: nat, ghost s: Payout) returns (after: map<nat, Phase>)
      requires store.Valid() && p.id in store.rows
      requires View(p.id, workers[w := Ready(p.status, Target(result.status), WorkerFields(result))]) == s
      requires Others(others, w) && Legal(s, others)
      modifies store, ledger, connector
      ensures store.Valid() && p.id in store.rows && OnlyTouches(p.id)
      ensures var t := Exec(s, others);
              View(p.id, after) == Committed(t, t.ext, w, p.status, Target(result.status), WorkerFields(result), now)
      ensures var t := Exec(s, others); t.rec.status == p.status ==> Took(t.rec, result, store.rows[p.id])
    {
      var next := Processing;
      match result.status {
        case SaysConfirmed => next := Confirmed;
        case SaysFailed => next := PendingCompensation;
        case SaysRejected => next := PendingCompensation;
        case SaysCancelled => next := PendingCompensationCancelled;
        case SaysReversed => next := PendingCompensationReversed;
        case SaysOther =>
      }
      var f := Fields(result.providerId, result.reference, result.raw, NoError, false, true, result.destinationAmount);
      after := Conclude(p.id, p.status, next, f, now, others, workers, w, s);
    }

    /** process: whatever its snapshot says, whatever the answers, and whatever everybody else does to the payout in
        between, the call is the schedule of the protocol in which its steps and theirs are interleaved so; no other
        payout is touched. */
    method Process(p: PayoutStore.Snapshot, net: Answers, now: int, others: Interference, workers: map<nat, Phase>, w: nat)
      returns (after: map<nat, Phase>)
      requires store.Valid() && p.id in store.rows
      requires w in workers && workers[w] == Snap(p.status) && ByOthers(others, w)
      requires Legal(View(p.id, workers), Disturbed(p.status, w, net, now, configured, others))
      modifies store, ledger, connector
      ensures store.Valid() && p.id in store.rows && OnlyTouches(p.id)
      ensures View(p.id, after) == Exec(old(View(p.id, workers)), Disturbed(p.status, w, net, now, configured, others))
      ensures old(Inv(View(p.id, workers))) ==> Inv(View(p.id, after))
      ensures forall j: Journal.Journal :: Journal.HeardOk(workers, j.heard) && Journal.Shown(old(store.rows)[p.id]) == j.columns ==>
                Journal.Shown(store.rows[p.id])
                == Journal.Kept(old(View(p.id, workers)), j, Disturbed(p.status, w, net, now, configured, others)).columns
    {
      ghost var s, acts := View(p.id, workers), Disturbed(p.status, w, net, now, configured, others);
      forall j: Journal.Journal | Journal.HeardOk(workers, j.heard) && Journal.Shown(store.rows[p.id]) == j.columns
        ensures Journal.Shown(Exec(s, acts).rec) == Journal.Kept(s, j, acts).columns
      {
        Journal.KeptIsShown(s, j, acts);
      }
      if Inv(View(p.id, workers)) { RunInv(View(p.id, workers), Disturbed(p.status, w, net, now, configured, others)); }
      after := Branch(p, net, now, others, workers, w);
    }

    /** The switch on the snapshot's status. */
    method Branch(p: PayoutStore.Snapshot, net: Answers, now: int, others: Interference, workers: map<nat, Phase>, w: nat)
      returns (after: map<nat, Phase>)
      requires store.Valid() && p.id in store.rows
      requires w in workers && workers[w] == Snap(p.status) && ByOthers(others, w)
      requires Legal(View(p.id, workers), Disturbed(p.status, w, net, now, configured, others))
      modifies store, ledger, connector
      ensures store.Valid() && p.id in store.rows && OnlyTouches(p.id)
      ensures View(p.id, after) == Exec(old(View(p.id, workers)), Disturbed(p.status, w, net, now, configured, others))
    {
      match p.status {
        case PendingDebit => after := ProcessDebit(p, net, now, others, workers, w);
        case PendingProvider => after := ProcessCreate(p, net, now, others, workers, w);
        case ProviderUnknown => after := ProcessLookup(p, net, now, others, workers, w);
        case Processing => after := ProcessLookup(p, net, now, others, workers, w);
        case PendingCompensation => after := ProcessCompensation(p, net, now, others, workers, w);
        case PendingCompensationCancelled => after := ProcessCompensation(p, net, now, others, workers, w);
        case PendingCompensationReversed => after := ProcessCompensation(p, net, now, others, workers, w);
        case _ =>
          One(View(p.id, workers), Crash(w));
          after := workers - {w};
      }
    }

    method ProcessDebit(p: PayoutStore.Snapshot, net: Answers, now: int, others: Interference, workers: map<nat, Phase>, w: nat)
      returns (after: map<nat, Phase>)
      requires store.Valid() && p.id in store.rows && p.status == PendingDebit
      requires w in workers && workers[w] == Snap(p.status) && ByOthers(others, w)
      requires Legal(View(p.id, workers), Disturbed(p.status, w, net, now, configured, others))
      modifies store, ledger, connector
      ensures store.Valid() && p.id in store.rows && OnlyTouches(p.id)
      ensures View(p.id, after) == Exec(old(View(p.id, workers)), Disturbed(p.status, w, net, now, configured, others))
    {
      ghost var s, a := View(p.id, workers), Debit(w, net.debit);
      after := workers - {w};
      if !configured {
        One(s, Crash(w));
        return;
      }
      DebitScript(s, w, net.debit, others.late, now);
      var reply := Debits(p.id, net.debit);
      if !reply.LedgerOk? {
        if reply.LedgerShort? {
          after := Conclude(p.id, PendingDebit, Failed, NO_FIELDS.(lastError := InsufficientBalance), now, others.late, workers, w, Next(s, a));
        }
        return;
      }
      after := Conclude(p.id, PendingDebit, PendingProvider, NO_FIELDS.(debited := true), now, others.late, workers, w, Next(s, a));
    }

    method ProcessCreate(p: PayoutStore.Snapshot, net: Answers, now: int, others: Interference, workers: map<nat, Phase>, w: nat)
      returns (after: map<nat, Phase>)
      requires store.Valid() && p.id in store.rows && p.status == PendingProvider
      requires w in workers && workers[w] == Snap(p.status) && ByOthers(others, w)
      requires Legal(View(p.id, workers), Disturbed(p.status, w, net, now, configured, others))
      modifies store, ledger, connector
      ensures store.Valid() && p.id in store.rows && OnlyTouches(p.id)
      ensures View(p.id, after) == Exec(old(View(p.id, workers)), Disturbed(p.status, w, net, now, configured, others))
    {
      ghost var s, a := View(p.id, workers), Create(w, net.truth, net.create);
      CreateScript(s, w, net, others, now);
      var reply := Creates(p.id, net.truth, net.create);
      match reply {
        case CreateAnswered(result) =>
          after := ApplyProvider(p, result, now, others.late, workers, w, Next(s, a));
        case CreateRejected =>
          after := Conclude(p.id, PendingProvider, PendingCompensation, NO_FIELDS.(lastError := ProviderRejected), now, others.late, workers, w, Next(s, a));
        case CreateNoAnswer =>
          after := Interfere(p.id, others.asking, workers[w := Asking]);
          after := AskAfterCreate(p, net, now, others.late, after, w);
      }
    }

    /** The create call gave no answer: query before anything else, and give up into provider_unknown. */
    method AskAfterCreate(p: PayoutStore.Snapshot, net: Answers, now: int, others: seq<Action>, workers: map<nat, Phase>, w: nat)
      returns (after: map<nat, Phase>)
      requires store.Valid() && p.id in store.rows && p.status == PendingProvider
      requires w in workers && workers[w] == Asking && Others(others, w)
      requires Legal(View(p.id, workers), [Lookup(w, net.lookup)] + others + [Cas(w, now)])
      modifies store, ledger, connector
      ensures store.Valid() && p.id in store.rows && OnlyTouches(p.id)
      ensures View(p.id, after) == Exec(old(View(p.id, workers)), [Lookup(w, net.lookup)] + others + [Cas(w, now)])
    {
      ghost var s, a := View(p.id, workers), Lookup(w, net.lookup);
      Interleaved(s, a, others, w, now);
      var found := connector.Get(PayoutRef(p.id), net.lookup);
      if found.LookupAnswered? {
        after := ApplyProvider(p, found.report, now, others, workers, w, Next(s, a));
      } else {
        after := Conclude(p.id, PendingProvider, ProviderUnknown, NO_FIELDS.(lastError := CreateAmbiguous), now, others, workers, w, Next(s, a));
      }
    }

    /** The branch shared by provider_unknown and processing: ask, never send. */
    method ProcessLookup(p: PayoutStore.Snapshot, net: Answers, now: int, others: Interference, workers: map<nat, Phase>, w: nat)
      returns (after: map<nat, Phase>)
      requires store.Valid() && p.id in store.rows && (p.status == ProviderUnknown || p.status == Processing)
      requires w in workers && workers[w] == Snap(p.status) && ByOthers(others, w)
      requires Legal(View(p.id, workers), DisturbedLookup(w, net, now, others))
      modifies store, ledger, connector
      ensures store.Valid() && p.id in store.rows && OnlyTouches(p.id)
      ensures View(p.id, after) == Exec(old(View(p.id, workers)), DisturbedLookup(w, net, now, others))
    {
      ghost var s, a := View(p.id, workers), Lookup(w, net.lookup);
      after := workers - {w};
      var found := connector.Get(PayoutRef(p.id), net.lookup);
      if found.LookupAnswered? {
        Interleaved(s, a, others.late, w, now);
        after := ApplyProvider(p, found.report, now, others.late, workers, w, Next(s, a));
      } else {
        One(s, a);
      }
    }

    method ProcessCompensation(p: PayoutStore.Snapshot, net: Answers, now: int, others: Interference, workers: map<nat, Phase>, w: nat)
      returns (after: map<nat, Phase>)
      requires store.Valid() && p.id in store.rows && Compensating(p.status)
      requires w in workers && workers[w] == Snap(p.status) && ByOthers(others, w)
      requires Legal(View(p.id, workers), Disturbed(p.status, w, net, now, configured, others))
      modifies store, ledger, connector
      ensures store.Valid() && p.id in store.rows && OnlyTouches(p.id)
      ensures View(p.id, after) == Exec(old(View(p.id, workers)), Disturbed(p.status, w, net, now, configured, others))
    {
      ghost var s, a := View(p.id, workers), Credit(w, net.credit);
      after := workers - {w};
      if !configured {
        One(s, Crash(w));
        return;
      }
      CreditScript(s, w, net.credit, others.late, now);
      var reply := Releases(p.id, net.credit);
      if !reply.LedgerOk? {
        return;
      }
      var next := Failed;
      if p.status == PendingCompensationCancelled { next := Cancelled; }
      if p.status == PendingCompensationReversed { next := Reversed; }
      after := Conclude(p.id, p.status, next, NO_FIELDS, now, others.late, workers, w, Next(s, a));
    }
  }
}
