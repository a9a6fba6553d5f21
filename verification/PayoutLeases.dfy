/** What the one-minute lease of ClaimPayouts protects, and what it does not
    (internal/adapters/postgres/payouts.go). Every transition makes its row due at once, lease or no lease. */
module PayoutLeases {
  import opened PayoutLifecycle
  import opened PayoutStore
  import PayoutConvergence

  function Run(t: Table, steps: seq<Step>): Table
    decreases |steps|
  {
    if steps == [] then t else Run(Stepped(t, steps[0]), steps[1..])
  }

  /** The claim hands the row out. */
  predicate Takes(t: Table, a: Step, id: string) {
    a.Claimed? && id in Pick(a.order, t.rows, t.jobs, a.at, a.limit)
  }

  /** The transition is of this row, and commits. */
  predicate Hits(t: Table, a: Step, id: string) {
    a.Moved? && a.id == id && id in t.rows && t.rows[id].status == a.expected
  }

  /** Whether the row's last claim was followed by a transition of it. */
  function Free(t: Table, steps: seq<Step>, id: string, free: bool): bool
    decreases |steps|
  {
    if steps == [] then free
    else Free(Stepped(t, steps[0]), steps[1..], id, Hits(t, steps[0], id) || (free && !Takes(t, steps[0], id)))
  }

  /** All within one lease of a first claim. */
  predicate Within(steps: seq<Step>, now: int, later: int) {
    later < now + LEASE && forall i :: 0 <= i < |steps| ==> now <= steps[i].at <= later
  }

  lemma StepFrees(t: Table, a: Step, id: string, now: int, later: int)
    requires id in t.rows && id in t.jobs && now <= a.at <= later < now + LEASE
    ensures var u := Stepped(t, a);
            && id in u.rows && id in u.jobs
            && (u.jobs[id].nextAttemptAt <= later <==> Hits(t, a, id) || (t.jobs[id].nextAttemptAt <= later && !Takes(t, a, id)))
            && (!Hits(t, a, id) ==> u.rows[id] == t.rows[id])
            && (Hits(t, a, id) ==> u.rows[id].status == a.next)
  {
  }

  /** Within a lease, a row is due exactly if it is claimable and free. */
  lemma {:induction false} DueExactly(t: Table, steps: seq<Step>, id: string, now: int, later: int)
    requires id in t.rows && id in t.jobs && Within(steps, now, later)
    ensures var u := Run(t, steps);
            && id in u.rows && id in u.jobs
            && (Due(u.rows, u.jobs, id, later) <==>
                Claimable(u.rows[id].status) && Free(t, steps, id, t.jobs[id].nextAttemptAt <= later))
    decreases |steps|
  {
    if steps != [] {
      StepFrees(t, steps[0], id, now, later);
      assert forall i :: 0 <= i < |steps[1..]| ==> steps[1..][i] == steps[i + 1];
      DueExactly(Stepped(t, steps[0]), steps[1..], id, now, later);
    }
  }

  /** A claim hands out a row that an earlier claim handed out less than a lease before if and only if a transition
      of the row has committed since it was last claimed, it is still claimable, and fewer than `limit` due rows are
      older. In between lie any transitions, claims and new payouts. */
  lemma HandedOutAgainExactly(t: Table, order: seq<string>, limit: nat, now: int, steps: seq<Step>,
                              order': seq<string>, limit': nat, later: int, id: string)
    requires forall i, j :: 0 <= i < j < |order| ==> order[i] != order[j]
    requires forall i, j :: 0 <= i < j < |order'| ==> order'[i] != order'[j]
    requires id in Pick(order, t.rows, t.jobs, now, limit) && id in order' && Within(steps, now, later)
    ensures var claimed := Stepped(t, Claimed(order, limit, now));
            var u := Run(claimed, steps);
            && id in u.rows
            && (id in Pick(order', u.rows, u.jobs, later, limit') <==>
                && Free(claimed, steps, id, false) && Claimable(u.rows[id].status)
                && Ahead(order', id, u.rows, u.jobs, later) < limit')
  {
    PickedExactly(order, id, t.rows, t.jobs, now, limit);
    var claimed := Stepped(t, Claimed(order, limit, now));
    assert claimed.jobs[id].nextAttemptAt == now + LEASE;
    DueExactly(claimed, steps, id, now, later);
    var u := Run(claimed, steps);
    PickedExactly(order', id, u.rows, u.jobs, later, limit');
  }

  /** Transitions follow the edges of the lifecycle, as every worker's and every event's does. */
  predicate AlongEdges(steps: seq<Step>) {
    forall i :: 0 <= i < |steps| && steps[i].Moved? ==> Edge(steps[i].expected, steps[i].next)
  }

  lemma {:induction false} FreeHasMoved(t: Table, steps: seq<Step>, id: string, free: bool, now: int, later: int)
    requires id in t.rows && id in t.jobs && Within(steps, now, later) && AlongEdges(steps)
    requires free ==> t.rows[id].status != PendingDebit
    ensures id in Run(t, steps).rows && (Free(t, steps, id, free) ==> Run(t, steps).rows[id].status != PendingDebit)
    decreases |steps|
  {
    if steps != [] {
      var a := steps[0];
      StepFrees(t, a, id, now, later);
      assert forall i :: 0 <= i < |steps[1..]| ==> steps[1..][i] == steps[i + 1];
      assert Hits(t, a, id) ==> Edge(a.expected, a.next);
      FreeHasMoved(Stepped(t, a), steps[1..], id, Hits(t, a, id) || (free && !Takes(t, a, id)), now, later);
    }
  }

  /** So the workers' claims alone never put one pending_debit row into two hands within a lease: whoever is handed
      the row again finds it past its debit. */
  lemma PendingDebitHandedOutOnce(t: Table, order: seq<string>, limit: nat, now: int, steps: seq<Step>,
                                  order': seq<string>, limit': nat, later: int, id: string)
    requires forall i, j :: 0 <= i < j < |order| ==> order[i] != order[j]
    requires forall i, j :: 0 <= i < j < |order'| ==> order'[i] != order'[j]
    requires Within(steps, now, later) && AlongEdges(steps)
    ensures var u := Run(Stepped(t, Claimed(order, limit, now)), steps);
            id in Pick(order, t.rows, t.jobs, now, limit) && id in Pick(order', u.rows, u.jobs, later, limit')
            ==> id in u.rows && u.rows[id].status != PendingDebit
  {
    var claimed := Stepped(t, Claimed(order, limit, now));
    var u := Run(claimed, steps);
    if id in Pick(order, t.rows, t.jobs, now, limit) && id in Pick(order', u.rows, u.jobs, later, limit') {
      PickedExactly(order, id, t.rows, t.jobs, now, limit);
      PickedExactly(order', id, u.rows, u.jobs, later, limit');
      HandedOutAgainExactly(t, order, limit, now, steps, order', limit', later, id);
      FreeHasMoved(claimed, steps, id, false, now, later);
    }
  }

  // ----- nothing is forgotten

  /** What a claim selects is what still needs a call. */
  lemma ClaimableExactlyUnsettled(s: Status)
    ensures Claimable(s) <==> !PayoutConvergence.Settles(s)
    ensures Claimable(s) <==> PayoutConvergence.CallsLeft(s) > 0
  {
  }

  /** A claimed row that nobody moves is due again when a minute has passed, not earlier, and exactly if it is not settled. */
  lemma LeaseRunsOut(t: Table, order: seq<string>, limit: nat, now: int, id: string, later: int)
    requires forall i, j :: 0 <= i < j < |order| ==> order[i] != order[j]
    requires id in Pick(order, t.rows, t.jobs, now, limit)
    ensures var u := Stepped(t, Claimed(order, limit, now));
            id in t.rows &&
            (Due(u.rows, u.jobs, id, later) <==> later >= now + 60 && !PayoutConvergence.Settles(t.rows[id].status))
  {
    PickedExactly(order, id, t.rows, t.jobs, now, limit);
  }
}
