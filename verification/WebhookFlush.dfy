/** One flush of the webhook outbox: groups handed to concurrent workers over a channel, and the delivery
    of one row (flush and deliver in internal/adapters/webhooks/outbox.go). */
module WebhookFlush {
  import opened StringOrder
  import opened WebhookGroups

  // ----- one row

  datatype RowStatus = Pending | Delivered | Dead

  datatype Row = Row(status: RowStatus, attempts: nat)

  /** A request made to an endpoint, and whether it answered 2xx. */
  datatype Sent = Sent(delivery: Delivery, ok: bool)

  /** The UPDATE after a request: the count is the row's own, the limit is checked on the claimed copy. */
  function Answered(row: Row, claimed: nat, ok: bool): Row {
    Row(if ok then Delivered else if claimed + 1 >= 8 then Dead else Pending, row.attempts + 1)
  }

  function Effect(rows: map<nat, Row>, sent: Sent): map<nat, Row> {
    var d := sent.delivery;
    if d.id !in rows then rows else rows[d.id := Answered(rows[d.id], d.attempts, sent.ok)]
  }

  function After(rows: map<nat, Row>, sends: seq<Sent>): map<nat, Row> {
    if sends == [] then rows else Effect(After(rows, sends[..|sends| - 1]), sends[|sends| - 1])
  }

  /** What a worker does with a group: request after request until one fails. */
  function Work(group: seq<Delivery>, accepts: set<Delivery>): seq<Sent>
    decreases |group|
  {
    if group == [] then []
    else if group[0] in accepts then [Sent(group[0], true)] + Work(group[1..], accepts)
    else [Sent(group[0], false)]
  }

  /** Some of the group's requests, in order, every one but the last accepted. */
  ghost predicate PartOf(sends: seq<Sent>, group: seq<Delivery>) {
    && |sends| <= |group|
    && (forall i :: 0 <= i < |sends| ==> sends[i].delivery == group[i])
    && (forall i :: 0 <= i < |sends| - 1 ==> sends[i].ok)
  }

  /** The loop over the group is over. */
  predicate Over(sends: seq<Sent>, group: seq<Delivery>) {
    |sends| >= |group| || (sends != [] && !sends[|sends| - 1].ok)
  }

  /** A finished part is what Work says. */
  lemma {:induction false} OverIsWork(sends: seq<Sent>, group: seq<Delivery>, accepts: set<Delivery>)
    requires PartOf(sends, group) && Over(sends, group)
    requires forall i :: 0 <= i < |sends| ==> (sends[i].ok <==> sends[i].delivery in accepts)
    ensures sends == Work(group, accepts)
    decreases |group|
  {
    if group != [] {
      assert sends[0].delivery == group[0];
      assert sends == [sends[0]] + sends[1..];
      if sends[0].ok {
        assert group[0] in accepts;
        OverIsWork(sends[1..], group[1..], accepts);
      } else {
        assert |sends| == 1;
      }
    }
  }

  lemma {:induction false} WorkIsOver(group: seq<Delivery>, accepts: set<Delivery>)
    ensures PartOf(Work(group, accepts), group) && Over(Work(group, accepts), group)
    decreases |group|
  {
    if group != [] { WorkIsOver(group[1..], accepts); }
  }

  /** A worker's hold on the table. */
  class Outbox {
    var rows: map<nat, Row>

    method Deliver(d: Delivery, answered: bool) returns (ok: bool)
      modifies this
      ensures ok == answered && rows == Effect(old(rows), Sent(d, answered))
      ensures d.id in old(rows) ==>
                && d.id in rows && rows[d.id].attempts == old(rows)[d.id].attempts + 1
                && (rows[d.id].status == Delivered <==> answered)
                && (rows[d.id].status == Dead <==> !answered && d.attempts + 1 >= 8)
                && (rows[d.id].status == Pending <==> !answered && d.attempts + 1 < 8)
      ensures rows.Keys == old(rows).Keys && rows - {d.id} == old(rows) - {d.id}
    {
      if answered {
        if d.id in rows {
          rows := rows[d.id := Row(Delivered, rows[d.id].attempts + 1)];
        }
        return true;
      }
      var status := Pending;
      if d.attempts + 1 >= 8 {
        status := Dead;
      }
      if d.id in rows {
        rows := rows[d.id := Row(status, rows[d.id].attempts + 1)];
      }
      return false;
    }

    method WorkGroup(group: seq<Delivery>, accepts: set<Delivery>)
      modifies this
      ensures rows == After(old(rows), Work(group, accepts))
    {
      ghost var sends: seq<Sent> := [];
      for i := 0 to |group|
        invariant rows == After(old(rows), sends) && |sends| == i && PartOf(sends, group)
        invariant forall k :: 0 <= k < i ==> sends[k].ok && sends[k].delivery in accepts
      {
        var ok := Deliver(group[i], group[i] in accepts);
        ghost var more := sends + [Sent(group[i], ok)];
        assert more[..i] == sends;
        sends := more;
        if !ok {
          break;
        }
      }
      OverIsWork(sends, group, accepts);
    }
  }

  // ----- a row over many flushes

  /** What a claim reads and a request then writes, when nobody else has the row. Only pending rows are claimed. */
  function Attempted(row: Row, ok: bool): Row {
    if !row.status.Pending? then row else Answered(row, row.attempts, ok)
  }

  function Life(outcomes: seq<bool>): Row {
    if outcomes == [] then Row(Pending, 0) else Attempted(Life(outcomes[..|outcomes| - 1]), outcomes[|outcomes| - 1])
  }

  /** The number of requests the endpoint refuses before it accepts one. */
  function Refusals(outcomes: seq<bool>): nat {
    if outcomes == [] || outcomes[0] then 0 else 1 + Refusals(outcomes[1..])
  }

  lemma {:induction false} RefusalsSnoc(outcomes: seq<bool>, ok: bool)
    ensures Refusals(outcomes) <= |outcomes|
    ensures Refusals(outcomes + [ok]) == Refusals(outcomes) + if Refusals(outcomes) == |outcomes| && !ok then 1 else 0
  {
    if outcomes != [] {
      assert (outcomes + [ok])[1..] == outcomes[1..] + [ok];
      if !outcomes[0] { RefusalsSnoc(outcomes[1..], ok); }
    }
  }

  /** The fate of a delivery: delivered by its first accepted request if that is among the first eight, dead after
      eight refusals, never requested again after either. */
  lemma {:induction false} EightAttempts(outcomes: seq<bool>)
    ensures var n := Refusals(outcomes);
            && Life(outcomes).status == (if n >= 8 then Dead else if n < |outcomes| then Delivered else Pending)
            && Life(outcomes).attempts == (if n >= 8 then 8 else if n < |outcomes| then n + 1 else n)
  {
    if outcomes != [] {
      var front, ok := outcomes[..|outcomes| - 1], outcomes[|outcomes| - 1];
      EightAttempts(front);
      assert outcomes == front + [ok];
      RefusalsSnoc(front, ok);
      if Life(front).status.Pending? {
        assert Refusals(front) == |front|;
      }
    }
  }

  // ----- a row in several hands

  /** A row, and the workers whose claim of it is still open, with the attempt count each of them read. A lease that ran
      out lets a second worker claim while the first is still at its request. */
  datatype Shared = Shared(row: Row, held: map<nat, nat>)

  datatype Touch = Claims(w: nat) | Answers(w: nat, ok: bool) | Drops(w: nat)

  predicate Can(s: Shared, a: Touch) {
    match a
    case Claims(w) => w !in s.held && s.row.status.Pending?
    case Answers(w, _) => w in s.held
    case Drops(w) => w in s.held
  }

  function Touched(s: Shared, a: Touch): Shared
    requires Can(s, a)
  {
    match a
    case Claims(w) => s.(held := s.held[w := s.row.attempts])
    case Answers(w, ok) => Shared(Answered(s.row, s.held[w], ok), s.held - {w})
    case Drops(w) => s.(held := s.held - {w})
  }

  predicate Possible(s: Shared, run: seq<Touch>)
    decreases |run|
  {
    run == [] || (Can(s, run[0]) && Possible(Touched(s, run[0]), run[1..]))
  }

  /** Some moment of the run finds the row pending. */
  predicate EverPending(s: Shared, run: seq<Touch>)
    requires Possible(s, run)
    decreases |run|
  {
    s.row.status.Pending? || (run != [] && EverPending(Touched(s, run[0]), run[1..]))
  }

  /** A worker can only answer a claim it has made, and only a pending row is claimed. */
  lemma {:induction false} AnswerNeedsClaim(s: Shared, run: seq<Touch>, i: nat)
    requires Possible(s, run) && i < |run| && run[i].Answers? && run[i].w !in s.held
    ensures EverPending(s, run)
    decreases |run|
  {
    if i > 0 && !s.row.status.Pending? {
      assert run[1..][i - 1] == run[i];
      AnswerNeedsClaim(Touched(s, run[0]), run[1..], i - 1);
    }
  }

  /** One of the open claims ends in a failure that does not exhaust the attempts it read. */
  predicate LateFailure(held: map<nat, nat>, a: Touch) {
    a.Answers? && !a.ok && a.w in held && held[a.w] + 1 < 8
  }

  /** The UPDATE names only the id. A row that was delivered (or has died) becomes pending again, in any run of any
      workers, if and only if a request whose claim was open at that moment fails later with attempts left. */
  lemma {:induction false} ReopenedExactly(s: Shared, run: seq<Touch>)
    requires Possible(s, run) && !s.row.status.Pending?
    ensures EverPending(s, run) <==> exists i :: 0 <= i < |run| && LateFailure(s.held, run[i])
    decreases |run|
  {
    if run != [] {
      var u, rest := Touched(s, run[0]), run[1..];
      assert forall i :: 0 <= i < |rest| ==> rest[i] == run[i + 1];
      if u.row.status.Pending? {
        assert LateFailure(s.held, run[0]);
      } else {
        ReopenedExactly(u, rest);
        forall i | 0 < i < |run| && LateFailure(s.held, run[i]) ensures EverPending(u, rest) {
          assert rest[i - 1] == run[i];
          if run[i].w !in u.held { AnswerNeedsClaim(u, rest, i - 1); } else { assert LateFailure(u.held, rest[i - 1]); }
        }
        forall i | 0 <= i < |rest| && LateFailure(u.held, rest[i]) ensures LateFailure(s.held, run[i + 1]) {}
      }
    }
  }

  /** Such open claims are real: two workers claim a pending row, and one of them delivers it. */
  lemma DeliveredWithOpenClaim(row: Row, v: nat, w: nat)
    requires row.status.Pending? && v != w
    ensures var s := Touched(Touched(Touched(Shared(row, map[]), Claims(v)), Claims(w)), Answers(v, true));
            s.row.status.Delivered? && s.held == map[w := row.attempts]
  {
  }

  // ----- the flush as a protocol

  datatype Hands = Idle | Holding(group: nat, next: nat)

  datatype Attempt = Attempt(worker: nat, group: nat, sent: Sent)

  /** takers[g] is the worker that received group g; groups are offered in order. */
  datatype Flush = Flush(hands: seq<Hands>, takers: seq<nat>, cancelled: bool, log: seq<Attempt>)

  datatype Step = Take(worker: nat) | Request(worker: nat, ok: bool) | Finish(worker: nat) | Cancel

  function Start(workers: nat): Flush {
    Flush(seq(workers, _ => Idle), [], false, [])
  }

  predicate Enabled(groups: seq<seq<Delivery>>, s: Flush, a: Step) {
    match a
    case Take(w) => w < |s.hands| && s.hands[w].Idle? && |s.takers| < |groups| && !s.cancelled
    case Request(w, _) => w < |s.hands| && s.hands[w].Holding? && s.hands[w].group < |groups| && s.hands[w].next < |groups[s.hands[w].group]|
    case Finish(w) => w < |s.hands| && s.hands[w].Holding? && s.hands[w].group < |groups| && s.hands[w].next >= |groups[s.hands[w].group]|
    case Cancel => !s.cancelled
  }

  function Next(groups: seq<seq<Delivery>>, s: Flush, a: Step): Flush
    requires Enabled(groups, s, a)
  {
    match a
    case Take(w) => s.(hands := s.hands[w := Holding(|s.takers|, 0)], takers := s.takers + [w])
    case Request(w, ok) =>
      var h := s.hands[w];
      s.(hands := s.hands[w := if ok then h.(next := h.next + 1) else Idle],
         log := s.log + [Attempt(w, h.group, Sent(groups[h.group][h.next], ok))])
    case Finish(w) => s.(hands := s.hands[w := Idle])
    case Cancel => s.(cancelled := true)
  }

  predicate Legal(groups: seq<seq<Delivery>>, s: Flush, run: seq<Step>)
    decreases |run|
  {
    run == [] || (Enabled(groups, s, run[0]) && Legal(groups, Next(groups, s, run[0]), run[1..]))
  }

  function Exec(groups: seq<seq<Delivery>>, s: Flush, run: seq<Step>): Flush
    requires Legal(groups, s, run)
    decreases |run|
  {
    if run == [] then s else Exec(groups, Next(groups, s, run[0]), run[1..])
  }

  /** The requests made for group g. */
  function Sends(log: seq<Attempt>, g: nat): seq<Sent> {
    if log == [] then []
    else
      var front, last := log[..|log| - 1], log[|log| - 1];
      if last.group == g then Sends(front, g) + [last.sent] else Sends(front, g)
  }

  lemma SendsSnoc(log: seq<Attempt>, a: Attempt, g: nat)
    ensures Sends(log + [a], g) == if a.group == g then Sends(log, g) + [a.sent] else Sends(log, g)
  {
    assert (log + [a])[..|log|] == log;
  }

  predicate Holds(hands: seq<Hands>, w: nat, g: nat) {
    w < |hands| && hands[w].Holding? && hands[w].group == g
  }

  /** Group g: part of its requests made; over once its taker has let go. */
  ghost predicate GroupOk(group: seq<Delivery>, sends: seq<Sent>, taken: bool, held: bool) {
    PartOf(sends, group) && (!taken ==> sends == []) && (taken && !held ==> Over(sends, group))
  }

  /** A worker with a group is its taker and stands right after the requests made, all accepted. */
  ghost predicate HandOk(groups: seq<seq<Delivery>>, h: Hands, w: nat, takers: seq<nat>, log: seq<Attempt>) {
    h.Holding? ==>
      && h.group < |takers| && h.group < |groups| && takers[h.group] == w
      && h.next == |Sends(log, h.group)| <= |groups[h.group]|
      && forall i :: 0 <= i < h.next ==> Sends(log, h.group)[i].ok
  }

  ghost predicate GroupsOk(groups: seq<seq<Delivery>>, s: Flush) {
    forall g :: 0 <= g < |groups| ==>
      GroupOk(groups[g], Sends(s.log, g), g < |s.takers|, g < |s.takers| && Holds(s.hands, s.takers[g], g))
  }

  ghost predicate HandsOk(groups: seq<seq<Delivery>>, s: Flush) {
    forall w :: 0 <= w < |s.hands| ==> HandOk(groups, s.hands[w], w, s.takers, s.log)
  }

  /** Every request was made by the one taker of its group, for a row of that group. */
  ghost predicate LogOk(groups: seq<seq<Delivery>>, takers: seq<nat>, log: seq<Attempt>) {
    forall i :: 0 <= i < |log| ==>
      && log[i].group < |takers| && log[i].group < |groups|
      && log[i].worker == takers[log[i].group] && log[i].sent.delivery in groups[log[i].group]
  }

  ghost predicate Inv(groups: seq<seq<Delivery>>, s: Flush) {
    && |s.takers| <= |groups|
    && (forall g :: 0 <= g < |s.takers| ==> s.takers[g] < |s.hands|)
    && GroupsOk(groups, s) && HandsOk(groups, s) && LogOk(groups, s.takers, s.log)
  }

  lemma StartInv(groups: seq<seq<Delivery>>, workers: nat)
    ensures Inv(groups, Start(workers))
  {}

  lemma TakeInv(groups: seq<seq<Delivery>>, s: Flush, w: nat)
    requires Inv(groups, s) && Enabled(groups, s, Take(w))
    ensures Inv(groups, Next(groups, s, Take(w)))
  {
    var t := Next(groups, s, Take(w));
    forall g | 0 <= g < |groups|
      ensures GroupOk(groups[g], Sends(t.log, g), g < |t.takers|, g < |t.takers| && Holds(t.hands, t.takers[g], g))
    {
      assert GroupOk(groups[g], Sends(s.log, g), g < |s.takers|, g < |s.takers| && Holds(s.hands, s.takers[g], g));
    }
    assert forall v :: 0 <= v < |s.hands| ==> HandOk(groups, s.hands[v], v, s.takers, s.log);
  }

  lemma FinishInv(groups: seq<seq<Delivery>>, s: Flush, w: nat)
    requires Inv(groups, s) && Enabled(groups, s, Finish(w))
    ensures Inv(groups, Next(groups, s, Finish(w)))
  {
    var t := Next(groups, s, Finish(w));
    assert HandOk(groups, s.hands[w], w, s.takers, s.log);
    forall g | 0 <= g < |groups|
      ensures GroupOk(groups[g], Sends(t.log, g), g < |t.takers|, g < |t.takers| && Holds(t.hands, t.takers[g], g))
    {
      assert GroupOk(groups[g], Sends(s.log, g), g < |s.takers|, g < |s.takers| && Holds(s.hands, s.takers[g], g));
    }
  }

  /** The taker of a group makes its next request. */
  lemma GroupRequest(group: seq<Delivery>, sends: seq<Sent>, ok: bool)
    requires GroupOk(group, sends, true, true) && |sends| < |group|
    requires forall i :: 0 <= i < |sends| ==> sends[i].ok
    ensures GroupOk(group, sends + [Sent(group[|sends|], ok)], true, ok)
  {}

  lemma RequestGroups(groups: seq<seq<Delivery>>, s: Flush, w: nat, ok: bool)
    requires Inv(groups, s) && Enabled(groups, s, Request(w, ok))
    ensures GroupsOk(groups, Next(groups, s, Request(w, ok)))
  {
    var t, h := Next(groups, s, Request(w, ok)), s.hands[w];
    var a := Attempt(w, h.group, Sent(groups[h.group][h.next], ok));
    assert HandOk(groups, h, w, s.takers, s.log);
    forall g | 0 <= g < |groups|
      ensures GroupOk(groups[g], Sends(t.log, g), g < |t.takers|, g < |t.takers| && Holds(t.hands, t.takers[g], g))
    {
      SendsSnoc(s.log, a, g);
      assert GroupOk(groups[g], Sends(s.log, g), g < |s.takers|, g < |s.takers| && Holds(s.hands, s.takers[g], g));
      if g == h.group { GroupRequest(groups[g], Sends(s.log, g), ok); }
    }
  }

  lemma RequestHands(groups: seq<seq<Delivery>>, s: Flush, w: nat, ok: bool)
    requires Inv(groups, s) && Enabled(groups, s, Request(w, ok))
    ensures HandsOk(groups, Next(groups, s, Request(w, ok)))
  {
    var t, h := Next(groups, s, Request(w, ok)), s.hands[w];
    var a := Attempt(w, h.group, Sent(groups[h.group][h.next], ok));
    assert HandOk(groups, h, w, s.takers, s.log);
    forall v | 0 <= v < |t.hands| ensures HandOk(groups, t.hands[v], v, t.takers, t.log) {
      assert HandOk(groups, s.hands[v], v, s.takers, s.log);
      if t.hands[v].Holding? { SendsSnoc(s.log, a, t.hands[v].group); }
    }
  }

  lemma StepInv(groups: seq<seq<Delivery>>, s: Flush, a: Step)
    requires Inv(groups, s) && Enabled(groups, s, a)
    ensures Inv(groups, Next(groups, s, a))
  {
    match a
    case Take(w) => TakeInv(groups, s, w);
    case Request(w, ok) =>
      RequestGroups(groups, s, w, ok);
      RequestHands(groups, s, w, ok);
      assert HandOk(groups, s.hands[w], w, s.takers, s.log);
    case Finish(w) => FinishInv(groups, s, w);
    case Cancel =>
  }

  /** Any number of workers, any schedule, any answers, cancelled or not. */
  lemma {:induction false} RunInv(groups: seq<seq<Delivery>>, s: Flush, run: seq<Step>)
    requires Inv(groups, s) && Legal(groups, s, run)
    ensures Inv(groups, Exec(groups, s, run))
    decreases |run|
  {
    if run != [] {
      StepInv(groups, s, run[0]);
      RunInv(groups, Next(groups, s, run[0]), run[1..]);
    }
  }

  // ----- what an endpoint sees

  function ToEndpoint(log: seq<Attempt>, webhook: Endpoint): seq<Attempt> {
    if log == [] then []
    else
      var front, last := log[..|log| - 1], log[|log| - 1];
      if last.sent.delivery.webhook == webhook then ToEndpoint(front, webhook) + [last] else ToEndpoint(front, webhook)
  }

  lemma OwnersDiffer(batch: seq<Delivery>, groups: seq<seq<Delivery>>, h: nat, g: nat, d: Delivery)
    requires Grouping(batch, groups) && g < |groups| && h < |groups| && d in groups[h]
    ensures d.webhook == Owner(groups[g]) <==> h == g
  {
    assert IsGroup(batch, Owner(groups[h]), groups[h]);
    LessIrreflexive(Owner(groups[g]).id);
  }

  /** An endpoint's view of the requests made for a group by its taker. */
  predicate Reflects(seen: seq<Attempt>, sends: seq<Sent>, takers: seq<nat>, g: nat) {
    && |seen| == |sends|
    && forall i :: 0 <= i < |seen| ==> seen[i].sent == sends[i] && g < |takers| && seen[i].worker == takers[g]
  }

  lemma {:induction false} EndpointIsGroup(batch: seq<Delivery>, groups: seq<seq<Delivery>>, takers: seq<nat>, log: seq<Attempt>, g: nat)
    requires Grouping(batch, groups) && LogOk(groups, takers, log) && g < |groups|
    ensures Reflects(ToEndpoint(log, Owner(groups[g])), Sends(log, g), takers, g)
  {
    if log != [] {
      var front, last := log[..|log| - 1], log[|log| - 1];
      EndpointIsGroup(batch, groups, takers, front, g);
      OwnersDiffer(batch, groups, last.group, g, last.sent.delivery);
      if last.group == g {
        assert ToEndpoint(log, Owner(groups[g])) == ToEndpoint(front, Owner(groups[g])) + [last];
        assert Sends(log, g) == Sends(front, g) + [last.sent];
      } else {
        assert ToEndpoint(log, Owner(groups[g])) == ToEndpoint(front, Owner(groups[g])) && Sends(log, g) == Sends(front, g);
      }
    }
  }

  predicate Complete(groups: seq<seq<Delivery>>, s: Flush) {
    |s.takers| == |groups| && forall w :: 0 <= w < |s.hands| ==> s.hands[w].Idle?
  }

  /** At every moment of a flush, an endpoint has been sent an initial part of its deliveries, oldest first, by one
      worker, and only the last request may have failed. When an uncancelled flush is complete, every endpoint of the
      batch has had a request, and all its deliveries or all up to a refused one. */
  lemma OrderedDelivery(batch: seq<Delivery>, groups: seq<seq<Delivery>>, workers: nat, run: seq<Step>, g: nat)
    requires Grouping(batch, groups) && g < |groups| && Legal(groups, Start(workers), run)
    ensures var s := Exec(groups, Start(workers), run);
            var seen := ToEndpoint(s.log, Owner(groups[g]));
            && |seen| <= |groups[g]|
            && (forall i :: 0 <= i < |seen| ==> seen[i].sent.delivery == groups[g][i])
            && (forall i :: 0 <= i < |seen| - 1 ==> seen[i].sent.ok)
            && (forall i, j :: 0 <= i < j < |seen| ==> seen[i].worker == seen[j].worker)
            && (Complete(groups, s) ==> seen != [] && (|seen| == |groups[g]| || !seen[|seen| - 1].sent.ok))
  {
    var s := Exec(groups, Start(workers), run);
    StartInv(groups, workers);
    RunInv(groups, Start(workers), run);
    EndpointIsGroup(batch, groups, s.takers, s.log, g);
    SeenByInv(groups, s, ToEndpoint(s.log, Owner(groups[g])), g);
  }

  lemma SeenByInv(groups: seq<seq<Delivery>>, s: Flush, seen: seq<Attempt>, g: nat)
    requires Inv(groups, s) && g < |groups| && groups[g] != [] && Reflects(seen, Sends(s.log, g), s.takers, g)
    ensures |seen| <= |groups[g]|
    ensures forall i :: 0 <= i < |seen| ==> seen[i].sent.delivery == groups[g][i]
    ensures forall i :: 0 <= i < |seen| - 1 ==> seen[i].sent.ok
    ensures forall i, j :: 0 <= i < j < |seen| ==> seen[i].worker == seen[j].worker
    ensures Complete(groups, s) ==> seen != [] && (|seen| == |groups[g]| || !seen[|seen| - 1].sent.ok)
  {
    assert GroupOk(groups[g], Sends(s.log, g), g < |s.takers|, g < |s.takers| && Holds(s.hands, s.takers[g], g));
  }

  // ----- a flush ends, and how it ends does not depend on the schedule

  function UnsentWork(groups: seq<seq<Delivery>>, from: nat): nat
    requires from <= |groups|
    decreases |groups| - from
  {
    if from == |groups| then 0 else |groups[from]| + 2 + UnsentWork(groups, from + 1)
  }

  function HandWork(groups: seq<seq<Delivery>>, h: Hands): nat {
    if h.Holding? && h.group < |groups| && h.next <= |groups[h.group]| then |groups[h.group]| - h.next + 1 else 0
  }

  function HandsWork(groups: seq<seq<Delivery>>, hands: seq<Hands>): nat {
    if hands == [] then 0 else HandWork(groups, hands[0]) + HandsWork(groups, hands[1..])
  }

  lemma {:induction false} HandsWorkUpdate(groups: seq<seq<Delivery>>, hands: seq<Hands>, w: nat, h: Hands)
    requires w < |hands|
    ensures HandsWork(groups, hands[w := h]) == HandsWork(groups, hands) - HandWork(groups, hands[w]) + HandWork(groups, h)
  {
    if w == 0 {
      assert hands[w := h][1..] == hands[1..];
    } else {
      assert hands[w := h][1..] == hands[1..][w - 1 := h];
      HandsWorkUpdate(groups, hands[1..], w - 1, h);
    }
  }

  /** What is left to do; a cancellation is one step more. */
  function Left(groups: seq<seq<Delivery>>, s: Flush): nat
    requires |s.takers| <= |groups|
  {
    UnsentWork(groups, |s.takers|) + HandsWork(groups, s.hands) + if s.cancelled then 0 else 1
  }

  lemma StepsLeft(groups: seq<seq<Delivery>>, s: Flush, a: Step)
    requires Inv(groups, s) && Enabled(groups, s, a)
    ensures |Next(groups, s, a).takers| <= |groups| && Left(groups, Next(groups, s, a)) < Left(groups, s)
  {
    if !a.Cancel? {
      var w := a.worker;
      assert HandOk(groups, s.hands[w], w, s.takers, s.log);
      HandsWorkUpdate(groups, s.hands, w, Next(groups, s, a).hands[w]);
    }
  }

  /** A flush takes a bounded number of steps. */
  lemma {:induction false} FlushEnds(groups: seq<seq<Delivery>>, s: Flush, run: seq<Step>)
    requires Inv(groups, s) && Legal(groups, s, run)
    ensures |run| <= Left(groups, s)
    decreases |run|
  {
    if run != [] {
      StepsLeft(groups, s, run[0]);
      StepInv(groups, s, run[0]);
      FlushEnds(groups, Next(groups, s, run[0]), run[1..]);
    }
  }

  /** After a cancellation no further group is taken. */
  lemma {:induction false} CancelledTakesNothing(groups: seq<seq<Delivery>>, s: Flush, run: seq<Step>)
    requires s.cancelled && Legal(groups, s, run)
    ensures Exec(groups, s, run).takers == s.takers && Exec(groups, s, run).cancelled
    decreases |run|
  {
    if run != [] { CancelledTakesNothing(groups, Next(groups, s, run[0]), run[1..]); }
  }

  /** Until it is complete or cancelled, some worker can move: no group waits forever. */
  lemma NeverStuck(groups: seq<seq<Delivery>>, s: Flush)
    requires Inv(groups, s) && |s.hands| > 0 && !s.cancelled && !Complete(groups, s)
    ensures exists a: Step :: !a.Cancel? && Enabled(groups, s, a)
  {
    if w :| 0 <= w < |s.hands| && s.hands[w].Holding? {
      assert HandOk(groups, s.hands[w], w, s.takers, s.log);
      assert Enabled(groups, s, Request(w, true)) || Enabled(groups, s, Finish(w));
    } else {
      assert Enabled(groups, s, Take(0));
    }
  }

  /** The endpoints' answers: accepts holds the deliveries that are answered with 2xx. */
  predicate AnsweredBy(log: seq<Attempt>, accepts: set<Delivery>) {
    forall i :: 0 <= i < |log| ==> (log[i].sent.ok <==> log[i].sent.delivery in accepts)
  }

  lemma {:induction false} SendsAnswered(log: seq<Attempt>, accepts: set<Delivery>, g: nat)
    requires AnsweredBy(log, accepts)
    ensures forall i :: 0 <= i < |Sends(log, g)| ==> (Sends(log, g)[i].ok <==> Sends(log, g)[i].delivery in accepts)
  {
    if log != [] { SendsAnswered(log[..|log| - 1], accepts, g); }
  }

  /** A complete flush has worked each group as a worker on its own would. */
  lemma CompleteWork(groups: seq<seq<Delivery>>, s: Flush, accepts: set<Delivery>, g: nat)
    requires Inv(groups, s) && Complete(groups, s) && AnsweredBy(s.log, accepts) && g < |groups|
    ensures Sends(s.log, g) == Work(groups[g], accepts)
  {
    assert GroupOk(groups[g], Sends(s.log, g), g < |s.takers|, g < |s.takers| && Holds(s.hands, s.takers[g], g));
    SendsAnswered(s.log, accepts, g);
    OverIsWork(Sends(s.log, g), groups[g], accepts);
  }

  function AllSends(log: seq<Attempt>): seq<Sent> {
    if log == [] then [] else AllSends(log[..|log| - 1]) + [log[|log| - 1].sent]
  }

  /** The requests about one row. */
  function About(sends: seq<Sent>, id: nat): seq<Sent> {
    if sends == [] then []
    else
      var front, last := sends[..|sends| - 1], sends[|sends| - 1];
      if last.delivery.id == id then About(front, id) + [last] else About(front, id)
  }

  lemma AboutSnoc(sends: seq<Sent>, last: Sent, id: nat)
    ensures About(sends + [last], id) == if last.delivery.id == id then About(sends, id) + [last] else About(sends, id)
  {
    assert (sends + [last])[..|sends|] == sends;
  }

  lemma AfterSnoc(rows: map<nat, Row>, sends: seq<Sent>, last: Sent)
    ensures After(rows, sends + [last]) == Effect(After(rows, sends), last)
  {
    assert (sends + [last])[..|sends|] == sends;
  }

  /** A row is changed by the requests about it alone. */
  lemma {:induction false} RowsAreSeparate(rows: map<nat, Row>, sends: seq<Sent>, id: nat)
    ensures After(rows, sends).Keys == rows.Keys
    ensures id in rows ==> id in After(rows, About(sends, id)) && After(rows, sends)[id] == After(rows, About(sends, id))[id]
  {
    if sends != [] {
      var front, last := sends[..|sends| - 1], sends[|sends| - 1];
      RowsAreSeparate(rows, front, id);
      AfterSnoc(rows, About(front, id), last);
    }
  }

  /** The requests about a row are those made for its group. */
  lemma {:induction false} AboutOneGroup(groups: seq<seq<Delivery>>, takers: seq<nat>, log: seq<Attempt>, g: nat, id: nat)
    requires LogOk(groups, takers, log)
    requires forall h, d :: 0 <= h < |groups| && h != g && d in groups[h] ==> d.id != id
    ensures About(AllSends(log), id) == About(Sends(log, g), id)
  {
    if log != [] {
      var front, last := log[..|log| - 1], log[|log| - 1];
      AboutOneGroup(groups, takers, front, g, id);
      AboutSnoc(AllSends(front), last.sent, id);
      AboutSnoc(Sends(front, g), last.sent, id);
    }
  }

  /** Ids are a primary key. */
  predicate UniqueIds(batch: seq<Delivery>) {
    forall i, j :: 0 <= i < j < |batch| ==> batch[i].id != batch[j].id
  }

  lemma MemberOfBatch(batch: seq<Delivery>, groups: seq<seq<Delivery>>, g: nat, d: Delivery)
    requires Grouping(batch, groups) && g < |groups| && d in groups[g]
    ensures d in batch && d.webhook == Owner(groups[g])
  {
    GroupCounts(batch, Owner(groups[g]), groups[g], d);
    assert multiset(groups[g])[d] > 0;
    assert d in multiset(batch);
  }

  lemma OneGroupPerRow(batch: seq<Delivery>, groups: seq<seq<Delivery>>, g: nat, h: nat, d: Delivery, e: Delivery)
    requires Grouping(batch, groups) && UniqueIds(batch)
    requires g < |groups| && h < |groups| && d in groups[g] && e in groups[h] && d.id == e.id
    ensures g == h
  {
    MemberOfBatch(batch, groups, g, d);
    MemberOfBatch(batch, groups, h, e);
    LessIrreflexive(d.webhook.id);
  }

  /** Two complete flushes of a batch, with any numbers of workers and any schedules, leave the same rows when the
      endpoints answer the same. One worker alone is such a schedule. */
  lemma ScheduleDoesNotMatter(batch: seq<Delivery>, groups: seq<seq<Delivery>>, rows: map<nat, Row>, accepts: set<Delivery>,
                              n: nat, run: seq<Step>, m: nat, other: seq<Step>)
    requires Grouping(batch, groups) && UniqueIds(batch)
    requires Legal(groups, Start(n), run) && Legal(groups, Start(m), other)
    requires var s := Exec(groups, Start(n), run); Complete(groups, s) && AnsweredBy(s.log, accepts)
    requires var t := Exec(groups, Start(m), other); Complete(groups, t) && AnsweredBy(t.log, accepts)
    ensures After(rows, AllSends(Exec(groups, Start(n), run).log)) == After(rows, AllSends(Exec(groups, Start(m), other).log))
  {
    var s, t := Exec(groups, Start(n), run), Exec(groups, Start(m), other);
    StartInv(groups, n);
    RunInv(groups, Start(n), run);
    StartInv(groups, m);
    RunInv(groups, Start(m), other);
    RowsAreSeparate(rows, AllSends(s.log), 0);
    RowsAreSeparate(rows, AllSends(t.log), 0);
    forall id | id in rows ensures After(rows, AllSends(s.log))[id] == After(rows, AllSends(t.log))[id] {
      RowsAreSeparate(rows, AllSends(s.log), id);
      RowsAreSeparate(rows, AllSends(t.log), id);
      SameRequestsAbout(batch, groups, s, t, accepts, id);
    }
  }

  lemma SameRequestsAbout(batch: seq<Delivery>, groups: seq<seq<Delivery>>, s: Flush, t: Flush, accepts: set<Delivery>, id: nat)
    requires Grouping(batch, groups) && UniqueIds(batch)
    requires Inv(groups, s) && Complete(groups, s) && AnsweredBy(s.log, accepts)
    requires Inv(groups, t) && Complete(groups, t) && AnsweredBy(t.log, accepts)
    ensures About(AllSends(s.log), id) == About(AllSends(t.log), id)
  {
    var g := |groups|;
    if h, d :| 0 <= h < |groups| && d in groups[h] && d.id == id {
      g := h;
      forall k, e | 0 <= k < |groups| && k != h && e in groups[k] ensures e.id != id {
        if e.id == id { OneGroupPerRow(batch, groups, h, k, d, e); }
      }
      CompleteWork(groups, s, accepts, g);
      CompleteWork(groups, t, accepts, g);
    } else {
      NoSends(groups, s.takers, s.log);
      NoSends(groups, t.takers, t.log);
    }
    AboutOneGroup(groups, s.takers, s.log, g, id);
    AboutOneGroup(groups, t.takers, t.log, g, id);
  }

  lemma {:induction false} NoSends(groups: seq<seq<Delivery>>, takers: seq<nat>, log: seq<Attempt>)
    requires LogOk(groups, takers, log)
    ensures Sends(log, |groups|) == []
  {
    if log != [] { NoSends(groups, takers, log[..|log| - 1]); }
  }

  // ----- what a complete flush leaves behind

  /** No two rows of a group share an id. */
  predicate IdsDiffer(group: seq<Delivery>) {
    forall i, j :: 0 <= i < j < |group| ==> group[i].id != group[j].id
  }

  lemma GroupIdsDiffer(batch: seq<Delivery>, groups: seq<seq<Delivery>>, g: nat)
    requires Grouping(batch, groups) && UniqueIds(batch) && g < |groups|
    ensures IdsDiffer(groups[g])
  {
    var group := groups[g];
    forall i, j | 0 <= i < j < |group| ensures group[i].id != group[j].id {
      var d, e := group[i], group[j];
      MemberOfBatch(batch, groups, g, d);
      MemberOfBatch(batch, groups, g, e);
      if d == e {
        GroupCounts(batch, Owner(group), group, d);
        Twice(group, i, j);
        OnceInBatch(batch, d);
      }
    }
  }

  lemma Twice(s: seq<Delivery>, i: nat, j: nat)
    requires i < j < |s| && s[i] == s[j]
    ensures multiset(s)[s[i]] >= 2
  {
    assert s == s[..j] + [s[j]] + s[j + 1..];
    assert s[i] in s[..j];
  }

  lemma {:induction false} OnceInBatch(batch: seq<Delivery>, d: Delivery)
    requires UniqueIds(batch)
    ensures multiset(batch)[d] <= 1
  {
    if batch != [] {
      var front, last := batch[..|batch| - 1], batch[|batch| - 1];
      assert batch == front + [last];
      OnceInBatch(front, d);
      assert d == last ==> d !in front;
    }
  }

  /** Everything before the k-th is accepted. */
  predicate Upto(group: seq<Delivery>, accepts: set<Delivery>, k: nat)
    requires k <= |group|
    decreases k
  {
    k == 0 || (group[0] in accepts && Upto(group[1..], accepts, k - 1))
  }

  lemma {:induction false} UptoMeans(group: seq<Delivery>, accepts: set<Delivery>, k: nat)
    requires k <= |group|
    ensures Upto(group, accepts, k) <==> forall j :: 0 <= j < k ==> group[j] in accepts
    decreases k
  {
    if k > 0 {
      var rest := group[1..];
      UptoMeans(rest, accepts, k - 1);
      assert forall j :: 0 < j < k ==> group[j] == rest[j - 1];
      assert forall j :: 0 <= j < k - 1 ==> rest[j] == group[j + 1];
    }
  }

  /** In a group without repeated ids, a lone worker's requests about a row are the one for it, if it comes that far. */
  lemma {:induction false} AboutWork(group: seq<Delivery>, accepts: set<Delivery>, k: nat)
    requires IdsDiffer(group) && k < |group|
    ensures About(Work(group, accepts), group[k].id) == if Upto(group, accepts, k) then [Sent(group[k], group[k] in accepts)] else []
    decreases |group|
  {
    var first, rest, id := Sent(group[0], group[0] in accepts), group[1..], group[k].id;
    if group[0] in accepts {
      assert rest == group[1..] && forall j :: 0 <= j < |rest| ==> rest[j] == group[j + 1];
      AboutFront(first, Work(rest, accepts), id);
      if k == 0 { NoneAbout(rest, accepts, id); } else { AboutWork(rest, accepts, k - 1); }
    } else {
      Alone(first, id);
    }
  }

  lemma Alone(first: Sent, id: nat)
    ensures About([first], id) == if first.delivery.id == id then [first] else []
  {
    assert [first][..0] == [];
  }

  lemma {:induction false} AboutFront(first: Sent, sends: seq<Sent>, id: nat)
    ensures About([first] + sends, id) == (if first.delivery.id == id then [first] else []) + About(sends, id)
  {
    if sends == [] {
      assert [first] + sends == [first] && [first][..0] == [];
    } else {
      var front, last := sends[..|sends| - 1], sends[|sends| - 1];
      AboutFront(first, front, id);
      assert [first] + sends == ([first] + front) + [last];
      AboutSnoc([first] + front, last, id);
    }
  }

  lemma {:induction false} NoneAbout(group: seq<Delivery>, accepts: set<Delivery>, id: nat)
    requires forall j :: 0 <= j < |group| ==> group[j].id != id
    ensures About(Work(group, accepts), id) == []
    decreases |group|
  {
    if group != [] {
      var first := Sent(group[0], group[0] in accepts);
      if group[0] in accepts {
        AboutFront(first, Work(group[1..], accepts), id);
        NoneAbout(group[1..], accepts, id);
      } else {
        assert Work(group, accepts) == [first] && [first][..0] == [];
      }
    }
  }

  /** When an uncancelled flush is complete, whatever the number of workers and the schedule: a row of the batch was requested
      exactly if every older one of its webhook was accepted; then it is delivered exactly if it was accepted itself, dead if it
      was refused for the eighth time, and has one attempt more; otherwise it is as it was. */
  lemma FlushOutcome(batch: seq<Delivery>, groups: seq<seq<Delivery>>, rows: map<nat, Row>, accepts: set<Delivery>, n: nat, run: seq<Step>, g: nat, k: nat)
    requires Grouping(batch, groups) && UniqueIds(batch) && g < |groups| && k < |groups[g]| && groups[g][k].id in rows
    requires Legal(groups, Start(n), run)
    requires var s := Exec(groups, Start(n), run); Complete(groups, s) && AnsweredBy(s.log, accepts)
    ensures var d := groups[g][k];
            var after := After(rows, AllSends(Exec(groups, Start(n), run).log));
            && d.id in after
            && if forall j :: 0 <= j < k ==> groups[g][j] in accepts then
                 && after[d.id].attempts == rows[d.id].attempts + 1
                 && (after[d.id].status == Delivered <==> d in accepts)
                 && (after[d.id].status == Dead <==> d !in accepts && d.attempts + 1 >= 8)
               else after[d.id] == rows[d.id]
  {
    var s, d := Exec(groups, Start(n), run), groups[g][k];
    StartInv(groups, n);
    RunInv(groups, Start(n), run);
    RequestsAbout(batch, groups, s, accepts, g, k);
    RowsAreSeparate(rows, AllSends(s.log), d.id);
    OneRequest(rows, d, accepts);
  }

  /** The requests a complete flush made about one row. */
  lemma RequestsAbout(batch: seq<Delivery>, groups: seq<seq<Delivery>>, s: Flush, accepts: set<Delivery>, g: nat, k: nat)
    requires Grouping(batch, groups) && UniqueIds(batch) && g < |groups| && k < |groups[g]|
    requires Inv(groups, s) && Complete(groups, s) && AnsweredBy(s.log, accepts)
    ensures var d := groups[g][k];
            About(AllSends(s.log), d.id) == if forall j :: 0 <= j < k ==> groups[g][j] in accepts then [Sent(d, d in accepts)] else []
  {
    var d := groups[g][k];
    forall h, e | 0 <= h < |groups| && h != g && e in groups[h] ensures e.id != d.id {
      if e.id == d.id { OneGroupPerRow(batch, groups, g, h, d, e); }
    }
    AboutOneGroup(groups, s.takers, s.log, g, d.id);
    CompleteWork(groups, s, accepts, g);
    GroupIdsDiffer(batch, groups, g);
    AboutWork(groups[g], accepts, k);
    UptoMeans(groups[g], accepts, k);
  }

  lemma OneRequest(rows: map<nat, Row>, d: Delivery, accepts: set<Delivery>)
    requires d.id in rows
    ensures After(rows, [Sent(d, d in accepts)]) == rows[d.id := Answered(rows[d.id], d.attempts, d in accepts)]
    ensures After(rows, []) == rows
  {
    assert [Sent(d, d in accepts)][..0] == [];
  }

  /** Rows that are not in the batch are left alone. */
  lemma FlushLeavesOthers(batch: seq<Delivery>, groups: seq<seq<Delivery>>, rows: map<nat, Row>, n: nat, run: seq<Step>, id: nat)
    requires Grouping(batch, groups) && Legal(groups, Start(n), run) && id in rows && forall d :: d in batch ==> d.id != id
    ensures var after := After(rows, AllSends(Exec(groups, Start(n), run).log)); id in after && after[id] == rows[id]
  {
    var s := Exec(groups, Start(n), run);
    StartInv(groups, n);
    RunInv(groups, Start(n), run);
    forall h, e | 0 <= h < |groups| && e in groups[h] ensures e.id != id { MemberOfBatch(batch, groups, h, e); }
    AboutOneGroup(groups, s.takers, s.log, |groups|, id);
    NoSends(groups, s.takers, s.log);
    RowsAreSeparate(rows, AllSends(s.log), id);
  }
}
