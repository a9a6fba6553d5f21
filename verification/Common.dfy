/** Small vocabulary shared by every component: optional values, the error kinds a store
    operation can return, and finite sums over maps. */
module Common {

  datatype Option<+T> = None | Some(value: T)

  /** The error values of internal/core/errors.go that the modelled operations return; Upstream is any
      error of the router or the connector. */
  datatype Error = Conflict | NotFound | Invalid | InProgress | Upstream

  datatype Result<+T> = Ok(value: T) | Err(error: Error)

  /** SQL's COALESCE(NULLIF(given, ''), stored). */
  function Coalesce(given: string, stored: string): string {
    if given == "" then stored else given
  }

  /** The sum of the values of a finite map. */
  ghost function Total<K>(m: map<K, int>): int
    decreases |m|
  {
    if m == map[] then 0
    else
      var k :| k in m;
      m[k] + Total(m - {k})
  }

  /** Any key may be taken out first. */
  lemma TotalRemove<K>(m: map<K, int>, k: K)
    requires k in m
    ensures Total(m) == m[k] + Total(m - {k})
    decreases |m|
  {
    var j :| j in m && Total(m) == m[j] + Total(m - {j});
    if j != k {
      TotalRemove(m - {j}, k);
      TotalRemove(m - {k}, j);
      assert m - {j} - {k} == m - {k} - {j};
    }
  }

  /** Writing one entry changes the sum by the difference of the old and the new value. */
  lemma TotalUpdate<K>(m: map<K, int>, k: K, v: int)
    ensures Total(m[k := v]) == Total(m) + v - (if k in m then m[k] else 0)
  {
    TotalRemove(m[k := v], k);
    if k in m {
      TotalRemove(m, k);
      assert m[k := v] - {k} == m - {k};
    } else {
      assert m[k := v] - {k} == m;
    }
  }

  /** Pointwise smaller maps have smaller sums, strictly so where one entry is smaller. */
  lemma TotalMonotone<K>(m: map<K, int>, n: map<K, int>)
    requires m.Keys == n.Keys
    requires forall k :: k in m ==> m[k] <= n[k]
    ensures Total(m) <= Total(n)
    ensures Total(m) == Total(n) ==> m == n
    decreases |m|
  {
    if m != map[] {
      var k :| k in m;
      TotalRemove(m, k);
      TotalRemove(n, k);
      TotalMonotone(m - {k}, n - {k});
      if Total(m) == Total(n) {
        forall j | j in m ensures m[j] == n[j] {
          if j != k {
            assert j in m - {k};
            assert (m - {k})[j] == (n - {k})[j];
          }
        }
      }
    }
  }

  lemma SameEntry<K, V>(m: map<K, V>, k: K)
    requires k in m
    ensures m[k := m[k]] == m
  {
  }

  lemma OtherEntries<K, V>(m: map<K, V>, k: K, v: V)
    ensures m[k := v] - {k} == m - {k}
  {
  }

  /** What stays the same outside one element stays the same outside a larger set. */
  lemma SameOutside<T>(a: set<T>, b: set<T>, x: T, all: set<T>)
    requires a - {x} == b - {x} && x in all
    ensures a - all == b - all
  {
    forall y ensures y in a - all <==> y in b - all {
      assert y in a - {x} <==> y in b - {x};
    }
  }

  lemma SameEntriesOutside<K, V>(m: map<K, V>, n: map<K, V>, k: K, all: set<K>)
    requires m - {k} == n - {k} && k in all
    ensures m - all == n - all
  {
    forall j ensures j in m - all <==> j in n - all {
      assert j in m - {k} <==> j in n - {k};
    }
    forall j | j in m - all ensures (m - all)[j] == (n - all)[j] {
      assert (m - {k})[j] == (n - {k})[j];
    }
  }

  lemma {:induction false} Bounded(keys: set<nat>) returns (bound: nat)
    ensures forall k :: k in keys ==> k < bound
  {
    bound := 0;
    if k :| k in keys {
      var rest := Bounded(keys - {k});
      bound := if k < rest then rest else k + 1;
      forall j | j in keys ensures j < bound { if j != k { assert j in keys - {k}; } }
    }
  }

  /** A name that nobody carries. */
  lemma Unused<T>(m: map<nat, T>) returns (w: nat)
    ensures w !in m
  {
    w := Bounded(m.Keys);
  }
}
