/** The payout tables as a mutable store (internal/adapters/postgres/payouts.go). Each method is one
    transaction, or a sequence of them where the source uses several. */
module PayoutStore {
  import opened Common
  import opened Parties
  import opened PayoutLifecycle

  datatype Route = Route(provider: string, connection: string)

  /** A normalized provider event about a payout. */
  datatype ProviderEvent = ProviderEvent(eventId: string, payoutId: string, route: Route, report: Report)

  /** The columns of a payout row that are not part of its lifecycle. */
  datatype Job = Job(route: Route, nextAttemptAt: int, attempts: nat)

  /** What process() is handed: the row's id and status as they were read. */
  datatype Snapshot = Snapshot(id: string, status: Status)

  datatype EventResult = Duplicate | Seen(changed: bool, status: Public)

  /** A transition by somebody else that commits between an event's read and its compare-and-set. */
  datatype Rival = Rival(expected: Status, next: Status, f: Fields)

  /** The row after the rival's transition, if there is one. */
  function Beaten(row: Record, rival: Option<Rival>, now: int): Record {
    if rival.Some? then RecordAfter(row, rival.value.expected, rival.value.next, rival.value.f, now) else row
  }

  /** An event that is beaten to the row by a move of it is refused, to be delivered again. */
  lemma BeatenEventConflicts(row: Record, rival: Rival, next: Status, f: Fields, now: int)
    requires rival.expected == row.status && rival.next != row.status
    ensures Beaten(row, Some(rival), now).status == rival.next
    ensures Transition(Beaten(row, Some(rival), now), row.status, next, f, now) == Err(Conflict)
  {
  }

  const LEASE := 60

  /** The statuses ClaimPayouts selects. */
  predicate Claimable(s: Status) {
    !s.Confirmed? && !s.Failed? && !s.Cancelled? && !s.Reversed?
  }

  predicate Due(rows: map<string, Record>, jobs: map<string, Job>, id: string, now: int) {
    id in rows && id in jobs && Claimable(rows[id].status) && jobs[id].nextAttemptAt <= now
  }

  /** The first `limit` due rows in creation order. */
  function Pick(order: seq<string>, rows: map<string, Record>, jobs: map<string, Job>, now: int, limit: nat): seq<string>
    decreases |order|
  {
    if order == [] || limit == 0 then []
    else if Due(rows, jobs, order[0], now) then [order[0]] + Pick(order[1..], rows, jobs, now, limit - 1)
    else Pick(order[1..], rows, jobs, now, limit)
  }

  function Leased(jobs: map<string, Job>, ids: seq<string>, now: int): map<string, Job> {
    map id | id in jobs :: if id in ids then jobs[id].(nextAttemptAt := now + LEASE, attempts := jobs[id].attempts + 1) else jobs[id]
  }

  /** Only due rows are claimed, each once, and a claim that is not full took every due row. */
  lemma {:induction false} PickExact(order: seq<string>, rows: map<string, Record>, jobs: map<string, Job>, now: int, limit: nat)
    requires forall i, j :: 0 <= i < j < |order| ==> order[i] != order[j]
    ensures var ids := Pick(order, rows, jobs, now, limit);
            && |ids| <= limit
            && (forall id :: id in ids ==> id in order && Due(rows, jobs, id, now))
            && (forall i, j :: 0 <= i < j < |ids| ==> ids[i] != ids[j])
            && (|ids| < limit ==> forall id :: id in order && Due(rows, jobs, id, now) ==> id in ids)
    decreases |order|
  {
    if order != [] && limit > 0 {
      var rest := order[1..];
      assert order == [order[0]] + rest;
      assert order[0] !in rest;
      PickExact(rest, rows, jobs, now, if Due(rows, jobs, order[0], now) then limit - 1 else limit);
    }
  }

  /** How many due rows stand before id in creation order. */
  function Ahead(order: seq<string>, id: string, rows: map<string, Record>, jobs: map<string, Job>, now: int): nat
    decreases |order|
  {
    if order == [] || order[0] == id then 0
    else (if Due(rows, jobs, order[0], now) then 1 else 0) + Ahead(order[1..], id, rows, jobs, now)
  }

  /** A row is picked exactly if it is due and fewer than `limit` due rows are older. */
  lemma {:induction false} PickedExactly(order: seq<string>, id: string, rows: map<string, Record>, jobs: map<string, Job>, now: int, limit: nat)
    requires forall i, j :: 0 <= i < j < |order| ==> order[i] != order[j]
    ensures id in Pick(order, rows, jobs, now, limit)
            <==> id in order && Due(rows, jobs, id, now) && Ahead(order, id, rows, jobs, now) < limit
    decreases |order|
  {
    if order != [] {
      var rest := order[1..];
      assert order == [order[0]] + rest && order[0] !in rest;
      PickedExactly(rest, id, rows, jobs, now, if limit > 0 && Due(rows, jobs, order[0], now) then limit - 1 else limit);
      if order[0] == id { PickExact(rest, rows, jobs, now, if limit > 0 then limit - 1 else 0); }
    }
  }

  /** The lifecycle and scheduling columns of all payouts, and the transactions that change them. */
  datatype Table = Table(rows: map<string, Record>, jobs: map<string, Job>)

  datatype Step =
    | Claimed(order: seq<string>, limit: nat, at: int)
    | Moved(id: string, expected: Status, next: Status, f: Fields, at: int)
    | Opened(id: string, route: Route, at: int)

  function Stepped(t: Table, a: Step): Table {
    match a
    case Claimed(order, limit, at) => Table(t.rows, Leased(t.jobs, Pick(order, t.rows, t.jobs, at, limit), at))
    case Moved(id, expected, next, f, at) =>
      if id !in t.rows || id !in t.jobs || t.rows[id].status != expected then t
      else Table(t.rows[id := Transition(t.rows[id], expected, next, f, at).value], t.jobs[id := t.jobs[id].(nextAttemptAt := at)])
    case Opened(id, route, at) =>
      if id in t.rows || id in t.jobs then t
      else Table(t.rows[id := NewRecord()], t.jobs[id := Job(route, at, 0)])
  }

  /** What TransitionPayout promises of rows, due times and result is this step. */
  lemma TransitionIsAStep(t: Table, u: Table, id: string, expected: Status, next: Status, f: Fields, now: int, r: Result<Record>)
    requires t.rows.Keys == t.jobs.Keys
    requires r == if id in t.rows then Transition(t.rows[id], expected, next, f, now) else Err(Conflict)
    requires u.rows == if r.Ok? then t.rows[id := r.value] else t.rows
    requires u.jobs == if r.Ok? then t.jobs[id := t.jobs[id].(nextAttemptAt := now)] else t.jobs
    ensures u == Stepped(t, Moved(id, expected, next, f, now))
  {
  }

  class Store {
    var rows: map<string, Record>
    var jobs: map<string, Job>
    var order: seq<string>            // payout ids by creation date
    var inbox: map<string, bool>      // provider event id -> changed_state
    ghost var histories: map<string, seq<Status>>

    ghost predicate Valid()
      reads this
    {
      rows.Keys == jobs.Keys == histories.Keys
    }

    constructor ()
      ensures Valid() && rows == map[] && inbox == map[]
    {
      rows, jobs, order, inbox, histories := map[], map[], [], map[], map[];
    }

    function Now(): Table
      reads this
    {
      Table(rows, jobs)
    }

    /** The UPDATE of a row whose status is the expected one, and the insert of its webhook. */
    method UpdateRow(row: Record, expected: Status, next: Status, f: Fields, now: int) returns (updated: Record)
      requires row.status == expected
      ensures Transition(row, expected, next, f, now) == Ok(updated)
    {
      updated := Updated(row, next, f, now);
      if PublicStatus(expected) != PublicStatus(updated.status) {
        var hook := Webhook(ChangedId(next), Some(PublicStatus(expected)), PublicStatus(updated.status), updated.version);
        updated := updated.(outbox := InsertWebhook(row.outbox, hook));
      }
    }

    /** Compare-and-set with its webhook, in one transaction; it also makes the row due at once. */
    method TransitionPayout(id: string, expected: Status, next: Status, f: Fields, now: int) returns (r: Result<Record>)
      requires Valid()
      modifies this`rows, this`jobs, this`histories
      ensures Valid()
      ensures r == if id in old(rows) then Transition(old(rows)[id], expected, next, f, now) else Err(Conflict)
      ensures r.Ok? ==>
                && old(rows)[id].status == expected && rows == old(rows)[id := r.value]
                && histories == old(histories)[id := old(histories)[id] + [next]]
      ensures jobs == if r.Ok? then old(jobs)[id := old(jobs)[id].(nextAttemptAt := now)] else old(jobs)
      ensures r.Err? ==> rows == old(rows) && histories == old(histories)
    {
      if id !in rows || rows[id].status != expected {
        return Err(Conflict);
      }
      var updated := UpdateRow(rows[id], expected, next, f, now);
      rows := rows[id := updated];
      jobs := jobs[id := jobs[id].(nextAttemptAt := now)];
      histories := histories[id := histories[id] + [next]];
      return Ok(updated);
    }

    method ClaimPayouts(now: int, limit: nat) returns (out: seq<Snapshot>)
      requires Valid()
      modifies this`jobs
      ensures Valid()
      ensures var ids := Pick(order, rows, old(jobs), now, limit);
              && Now() == Stepped(old(Now()), Claimed(order, limit, now))
              && (forall id :: id in jobs && id in ids ==>
                    jobs[id] == Job(old(jobs)[id].route, now + 60, old(jobs)[id].attempts + 1))
              && (forall id :: id in jobs && id !in ids ==> jobs[id] == old(jobs)[id])
              && |out| == |ids|
              && jobs.Keys == old(jobs).Keys
              && forall i :: 0 <= i < |ids| ==> ids[i] in rows && out[i] == Snapshot(ids[i], rows[ids[i]].status)
    {
      var ids := Pick(order, rows, jobs, now, limit);
      PickInRows(order, now, limit);
      jobs := Leased(jobs, ids, now);
      out := [];
      for i := 0 to |ids|
        invariant |out| == i
        invariant forall j :: 0 <= j < i ==> out[j] == Snapshot(ids[j], rows[ids[j]].status)
      {
        out := out + [Snapshot(ids[i], rows[ids[i]].status)];
      }
    }

    lemma {:induction false} PickInRows(from: seq<string>, now: int, limit: nat)
      ensures forall id :: id in Pick(from, rows, jobs, now, limit) ==> id in rows
      decreases |from|
    {
      if from != [] && limit > 0 {
        PickInRows(from[1..], now, if Due(rows, jobs, from[0], now) then limit - 1 else limit);
      }
    }

    predicate Matches(e: ProviderEvent)
      requires Valid() && e.payoutId in rows
      reads this
    {
      && jobs[e.payoutId].route == e.route
      && (rows[e.payoutId].providerId == "" || rows[e.payoutId].providerId == e.report.providerId)
    }

    /** The transition of an event, after whatever a rival has committed since the row was read. */
    method TransitionByEvent(e: ProviderEvent, expected: Status, next: Status, rival: Option<Rival>, now: int) returns (r: Result<Record>)
      requires Valid() && e.payoutId in rows
      modifies this`rows, this`jobs, this`histories
      ensures Valid()
      ensures var seen := Beaten(old(rows)[e.payoutId], rival, now);
              && r == Transition(seen, expected, next, EventFields(e.report), now)
              && rows == old(rows)[e.payoutId := if r.Ok? then r.value else seen]
    {
      if rival.Some? {
        var _ := TransitionPayout(e.payoutId, rival.value.expected, rival.value.next, rival.value.f, now);
      }
      assert rows == old(rows)[e.payoutId := Beaten(old(rows)[e.payoutId], rival, now)];
      r := TransitionPayout(e.payoutId, expected, next, EventFields(e.report), now);
    }

    /** The inbox insert, the read and the transition are three transactions; `rival` is what another
        worker commits between the last two. An error always leaves the inbox as it was, so that the
        event can be delivered again; any other outcome leaves it recorded. */
    method ApplyPayoutProviderEvent(e: ProviderEvent, rival: Option<Rival>, now: int) returns (r: Result<EventResult>)
      requires Valid()
      modifies this`rows, this`jobs, this`histories, this`inbox
      ensures Valid()
      ensures r.Err? ==> inbox == old(inbox)
      ensures r == Ok(Duplicate) ==> inbox == old(inbox)
      ensures e.eventId in old(inbox) <==> r == Ok(Duplicate)
      ensures r.Ok? && r.value.Seen? ==>
                e.payoutId in old(rows) && inbox == old(inbox)[e.eventId := EventMove(old(rows)[e.payoutId].status, e.report.status).Some?]
      ensures e.eventId !in old(inbox) && e.payoutId !in old(rows) ==> r == Err(NotFound)
      ensures e.eventId in old(inbox) || e.payoutId !in old(rows) ==> rows == old(rows) && histories == old(histories) && jobs == old(jobs)
      ensures e.eventId !in old(inbox) && e.payoutId in old(rows) ==>
                var row := old(rows)[e.payoutId];
                var move := EventMove(row.status, e.report.status);
                var bound := && old(jobs)[e.payoutId].route == e.route
                             && (row.providerId == "" || row.providerId == e.report.providerId);
                if !bound then r == Err(Conflict) && rows == old(rows) && histories == old(histories) && jobs == old(jobs)
                else if move.None? then
                  r == Ok(Seen(false, PublicStatus(row.status))) && rows == old(rows) && histories == old(histories) && jobs == old(jobs)
                else
                  var seen := Beaten(row, rival, now);
                  match Transition(seen, row.status, move.value, EventFields(e.report), now)
                  case Ok(u) =>
                    && rows == old(rows)[e.payoutId := u] && TookEvent(seen, e.report, u) && u.destinationAmount == seen.destinationAmount
                    && r == Ok(Seen(PublicStatus(move.value) != PublicStatus(row.status), PublicStatus(move.value)))
                  case Err(_) => rows == old(rows)[e.payoutId := seen] && r == Err(Conflict)
    {
      if e.eventId in inbox {
        return Ok(Duplicate);
      }
      ghost var before := inbox;
      inbox := inbox[e.eventId := false];
      if e.payoutId !in rows {
        inbox := inbox - {e.eventId};
        assert inbox == before;
        return Err(NotFound);
      }
      var row := rows[e.payoutId];
      if !Matches(e) {
        inbox := inbox - {e.eventId};
        assert inbox == before;
        return Err(Conflict);
      }
      var next := Target(e.report.status);
      EventMovesExactly(row.status, e.report.status);
      if !EventAllowed(row.status, next) {
        return Ok(Seen(false, PublicStatus(row.status)));
      }
      var updated := TransitionByEvent(e, row.status, next, rival, now);
      if updated.Err? {
        inbox := inbox - {e.eventId};
        assert inbox == before;
        return Err(Conflict);
      }
      inbox := inbox[e.eventId := true];
      return Ok(Seen(PublicStatus(updated.value.status) != PublicStatus(row.status), PublicStatus(updated.value.status)));
    }
  }
}
