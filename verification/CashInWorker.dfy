/** The balance outbox worker (internal/adapters/dinacore/outbox.go): flush claims due cash-in rows,
    credits each at the ledger and marks it sent, or backs off. */
module CashInWorker {
  import opened Common
  import opened Parties

  /** Numbers an outbox row, and with it the (refType, refId) it credits, which is unique per row. */
  type RowId = nat

  /** The next_attempt_at column, by how it was computed. */
  datatype NextAttempt = At(time: int) | LeaseEnds(claimed: int) | BackedOff(failed: int, attempts: nat)

  datatype Row = Row(amount: int, sent: bool, attempts: nat, next: NextAttempt)

  const HOUR := 3600

  function Power2(n: nat): nat {
    if n == 0 then 1 else 2 * Power2(n - 1)
  }

  function Least(a: nat, b: nat): nat {
    if a < b then a else b
  }

  /** least(1 hour, 10 seconds * 2^least(attempts, 8)): the wait after a failure, by the attempts before it. */
  function Backoff(attempts: nat): nat {
    Least(HOUR, 10 * Power2(Least(attempts, 8)))
  }

  const LEASE := 60

  /** When a row becomes due again. */
  function DueAt(n: NextAttempt): int {
    match n
    case At(time) => time
    case LeaseEnds(claimed) => claimed + LEASE
    case BackedOff(failed, attempts) => failed + Backoff(attempts)
  }

  /** A row after its turn: sent, or with one attempt more and due again after the wait for the attempts before. */
  predicate Settled(before: Row, out: LedgerOutcome, now: int, after: Row) {
    && after.amount == before.amount
    && (out == Applied ==> after.sent && after.attempts == before.attempts)
    && (out != Applied ==> after.sent == before.sent && after.attempts == before.attempts + 1
                           && DueAt(after.next) == now + Backoff(before.attempts))
  }

  lemma {:induction false} Power2Monotone(n: nat, m: nat)
    requires n <= m
    ensures Power2(n) <= Power2(m)
    decreases m
  {
    if n < m { Power2Monotone(n, m - 1); }
  }

  /** Waits double up to 42 minutes 40 seconds and stay there: the one-hour bound is never reached. */
  lemma BackoffDoublesBelowTheHour(attempts: nat)
    ensures Backoff(attempts) <= 2560 < HOUR
    ensures attempts < 8 ==> Backoff(attempts + 1) == 2 * Backoff(attempts)
    ensures attempts >= 8 ==> Backoff(attempts) == 2560
  {
    assert Power2(8) == 256 by {
      assert Power2(4) == 16;
    }
    Power2Monotone(Least(attempts, 8), 8);
    if attempts < 8 { Power2Monotone(attempts + 1, 8); }
  }

  /** What one flush makes of a claimed row, given how its credit call went. */
  function Flushed(r: Row, out: LedgerOutcome, now: int): Row {
    if out.Applied? then r.(sent := true, next := LeaseEnds(now))
    else r.(attempts := r.attempts + 1, next := BackedOff(now, r.attempts))
  }

  /** The outbox rows, the references the ledger has credited, and what it has credited in all. */
  datatype State = State(rows: map<RowId, Row>, credited: set<RowId>, balance: int)

  function FlushOne(s: State, id: RowId, out: LedgerOutcome, now: int): State
    requires id in s.rows
  {
    State(s.rows[id := Flushed(s.rows[id], out, now)],
          s.credited + (if Reaches(out) then {id} else {}),
          s.balance + (if Reaches(out) && id !in s.credited then s.rows[id].amount else 0))
  }

  /** The first n rows of a batch flushed in turn. */
  function FlushSome(s: State, ids: seq<RowId>, outs: map<RowId, LedgerOutcome>, now: int, n: nat): (u: State)
    requires n <= |ids| && forall i :: 0 <= i < |ids| ==> ids[i] in s.rows && ids[i] in outs
    ensures u.rows.Keys == s.rows.Keys
  {
    if n == 0 then s else FlushOne(FlushSome(s, ids, outs, now, n - 1), ids[n - 1], outs[ids[n - 1]], now)
  }

  /** Each row of the batch is flushed once, every other row is left alone. */
  lemma {:induction false} FlushedOnce(s: State, ids: seq<RowId>, outs: map<RowId, LedgerOutcome>, now: int, n: nat)
    requires n <= |ids| && forall i :: 0 <= i < |ids| ==> ids[i] in s.rows && ids[i] in outs
    requires forall i, j :: 0 <= i < j < |ids| ==> ids[i] != ids[j]
    ensures var u := FlushSome(s, ids, outs, now, n);
            && (forall i :: 0 <= i < n ==> u.rows[ids[i]] == Flushed(s.rows[ids[i]], outs[ids[i]], now))
            && (forall id :: id in s.rows && (forall i :: 0 <= i < n ==> ids[i] != id) ==> u.rows[id] == s.rows[id])
  {
    if n > 0 {
      FlushedOnce(s, ids, outs, now, n - 1);
      var v, id := FlushSome(s, ids, outs, now, n - 1), ids[n - 1];
      var u := FlushOne(v, id, outs[id], now);
      assert v.rows[id] == s.rows[id];
      forall i | 0 <= i < n ensures u.rows[ids[i]] == Flushed(s.rows[ids[i]], outs[ids[i]], now) {
        if i < n - 1 { assert ids[i] != id && u.rows[ids[i]] == v.rows[ids[i]]; }
      }
    }
  }

  /** After a flush every row of the batch is sent or waits, and every other row is as it was. */
  lemma FlushSettles(s: State, ids: seq<RowId>, outs: map<RowId, LedgerOutcome>, now: int)
    requires forall i :: 0 <= i < |ids| ==> ids[i] in s.rows && ids[i] in outs
    requires forall i, j :: 0 <= i < j < |ids| ==> ids[i] != ids[j]
    ensures var u := FlushSome(s, ids, outs, now, |ids|);
            && (forall i :: 0 <= i < |ids| ==> Settled(s.rows[ids[i]], outs[ids[i]], now, u.rows[ids[i]]))
            && (forall id :: id in s.rows && id !in ids ==> u.rows[id] == s.rows[id])
  {
    FlushedOnce(s, ids, outs, now, |ids|);
  }

  /** A row is as it was claimed until its turn comes. */
  lemma Untouched(s: State, ids: seq<RowId>, outs: map<RowId, LedgerOutcome>, now: int, i: nat)
    requires i < |ids| && forall k :: 0 <= k < |ids| ==> ids[k] in s.rows && ids[k] in outs
    requires forall k, j :: 0 <= k < j < |ids| ==> ids[k] != ids[j]
    ensures FlushSome(s, ids, outs, now, i).rows[ids[i]] == s.rows[ids[i]]
  {
    FlushedOnce(s, ids, outs, now, i);
  }

  /** Amounts of the references credited in u and not yet in s. */
  ghost function NewCredits(s: State, credited: set<RowId>): map<RowId, int> {
    map id | id in s.rows && id in credited && id !in s.credited :: s.rows[id].amount
  }

  predicate SentIsCredited(s: State) {
    forall id :: id in s.rows && s.rows[id].sent ==> id in s.credited
  }

  /** The ledger's balance grows by exactly the amounts of the references credited for the first time,
      however often they are flushed; a reference is credited only if its call arrived; amounts never
      change; and a sent row was credited. */
  lemma {:induction false} CreditedOnce(s: State, ids: seq<RowId>, outs: map<RowId, LedgerOutcome>, now: int, n: nat)
    requires n <= |ids| && forall i :: 0 <= i < |ids| ==> ids[i] in s.rows && ids[i] in outs
    requires SentIsCredited(s)
    ensures var u := FlushSome(s, ids, outs, now, n);
            && u.balance == s.balance + Total(NewCredits(s, u.credited))
            && (forall id :: id in u.credited <==> id in s.credited || CalledIn(ids, outs, n, id))
            && (forall id :: id in u.rows ==> u.rows[id].amount == s.rows[id].amount)
            && SentIsCredited(u)
  {
    if n == 0 {
      assert NewCredits(s, s.credited) == map[];
    } else {
      CreditedOnce(s, ids, outs, now, n - 1);
      CreditOne(s, FlushSome(s, ids, outs, now, n - 1), ids[n - 1], outs[ids[n - 1]], now);
    }
  }

  /** One of the first n calls was for this reference and arrived. */
  predicate CalledIn(ids: seq<RowId>, outs: map<RowId, LedgerOutcome>, n: nat, id: RowId)
    requires n <= |ids| && forall i :: 0 <= i < |ids| ==> ids[i] in outs
  {
    exists i :: 0 <= i < n && ids[i] == id && Reaches(outs[id])
  }

  lemma CreditOne(s: State, v: State, id: RowId, out: LedgerOutcome, now: int)
    requires id in s.rows && v.rows.Keys == s.rows.Keys && s.credited <= v.credited && SentIsCredited(v)
    requires v.rows[id].amount == s.rows[id].amount
    requires v.balance == s.balance + Total(NewCredits(s, v.credited))
    ensures var u := FlushOne(v, id, out, now);
            u.balance == s.balance + Total(NewCredits(s, u.credited)) && SentIsCredited(u)
  {
    var u := FlushOne(v, id, out, now);
    if Reaches(out) && id !in v.credited {
      assert NewCredits(s, u.credited) == NewCredits(s, v.credited)[id := s.rows[id].amount];
      TotalUpdate(NewCredits(s, v.credited), id, s.rows[id].amount);
    } else {
      assert u.credited == v.credited;
    }
  }

  class Worker {
    var rows: map<RowId, Row>
    var credited: set<RowId>      // the ledger's side
    var balance: int               // the ledger's side

    constructor (rows: map<RowId, Row>)
      ensures this.rows == rows && credited == {} && balance == 0
    {
      this.rows, credited, balance := rows, {}, 0;
    }

    function Now(): State
      reads this
    {
      State(rows, credited, balance)
    }

    /** The ledger credits a reference once and says so again when asked again. */
    method CreditBalance(id: RowId, amount: int, out: LedgerOutcome) returns (ok: bool)
      modifies this`credited, this`balance
      ensures ok == out.Applied?
      ensures credited == old(credited) + if Reaches(out) then {id} else {}
      ensures balance == old(balance) + if Reaches(out) && id !in old(credited) then amount else 0
    {
      if Reaches(out) && id !in credited {
        credited, balance := credited + {id}, balance + amount;
      }
      return out.Applied?;
    }

    /** Claim: the batch is leased for a minute. */
    method Claim(ids: seq<RowId>, now: int)
      modifies this`rows
      ensures rows == Leased(old(rows), ids, now)
      ensures rows.Keys == old(rows).Keys
      ensures forall id :: id in rows ==> rows[id].amount == old(rows)[id].amount && rows[id].sent == old(rows)[id].sent
      ensures forall id :: id in rows && id in ids ==> DueAt(rows[id].next) == now + 60
      ensures forall id :: id in rows && id !in ids ==> rows[id] == old(rows)[id]
    {
      rows := Leased(rows, ids, now);
    }

    /** The loop of flush over the claimed rows. */
    method Flush(ids: seq<RowId>, outs: map<RowId, LedgerOutcome>, now: int)
      requires forall i :: 0 <= i < |ids| ==> ids[i] in rows && ids[i] in outs && rows[ids[i]].next == LeaseEnds(now)
      requires forall i, j :: 0 <= i < j < |ids| ==> ids[i] != ids[j]
      modifies this
      ensures Now() == FlushSome(old(Now()), ids, outs, now, |ids|)
      ensures forall i :: 0 <= i < |ids| ==> ids[i] in rows && Settled(old(rows)[ids[i]], outs[ids[i]], now, rows[ids[i]])
      ensures forall id :: id in old(rows) && id !in ids ==> id in rows && rows[id] == old(rows)[id]
    {
      ghost var s := Now();
      for i := 0 to |ids|
        invariant Now() == FlushSome(s, ids, outs, now, i)
      {
        Untouched(s, ids, outs, now, i);
        FlushRow(ids[i], outs[ids[i]], now);
      }
      FlushSettles(s, ids, outs, now);
    }

    /** The body of the loop: credit, then mark sent or back off. */
    method FlushRow(id: RowId, out: LedgerOutcome, now: int)
      requires id in rows && rows[id].next == LeaseEnds(now)
      modifies this
      ensures Now() == FlushOne(old(Now()), id, out, now)
      ensures id in rows && Settled(old(rows)[id], out, now, rows[id])
    {
      var row := rows[id];
      var ok := CreditBalance(id, row.amount, out);
      if !ok {
        rows := rows[id := row.(attempts := row.attempts + 1, next := BackedOff(now, row.attempts))];
        return;
      }
      rows := rows[id := row.(sent := true)];
    }
  }

  function Leased(rows: map<RowId, Row>, ids: seq<RowId>, now: int): map<RowId, Row> {
    map id | id in rows :: if id in ids then rows[id].(next := LeaseEnds(now)) else rows[id]
  }
}
