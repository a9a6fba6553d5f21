/** Splitting a claimed batch of webhook deliveries by endpoint (groupByWebhook in
    internal/adapters/webhooks/outbox.go). */
module WebhookGroups {
  import opened StringOrder

  /** A webhook's id. */
  datatype Endpoint = Endpoint(id: string)

  /** A claimed webhook_deliveries row; address, secret and payload play no part here. */
  datatype Delivery = Delivery(id: nat, webhook: Endpoint, createdAt: int, attempts: nat)

  predicate Before(a: Endpoint, b: Endpoint) {
    Less(a.id, b.id)
  }

  function OfWebhook(batch: seq<Delivery>, webhook: Endpoint): seq<Delivery> {
    if batch == [] then []
    else
      var front, last := batch[..|batch| - 1], batch[|batch| - 1];
      if last.webhook == webhook then OfWebhook(front, webhook) + [last] else OfWebhook(front, webhook)
  }

  function AtTime(batch: seq<Delivery>, time: int): seq<Delivery> {
    if batch == [] then []
    else
      var front, last := batch[..|batch| - 1], batch[|batch| - 1];
      if last.createdAt == time then AtTime(front, time) + [last] else AtTime(front, time)
  }

  // ----- sort.SliceStable by creation time

  function InsertLate(sorted: seq<Delivery>, d: Delivery): seq<Delivery> {
    if sorted == [] || sorted[|sorted| - 1].createdAt <= d.createdAt then sorted + [d]
    else InsertLate(sorted[..|sorted| - 1], d) + [sorted[|sorted| - 1]]
  }

  function StableSort(batch: seq<Delivery>): seq<Delivery> {
    if batch == [] then [] else InsertLate(StableSort(batch[..|batch| - 1]), batch[|batch| - 1])
  }

  predicate OldestFirst(group: seq<Delivery>) {
    forall i, j :: 0 <= i < j < |group| ==> group[i].createdAt <= group[j].createdAt
  }

  lemma SnocTime(s: seq<Delivery>, d: Delivery, time: int)
    ensures AtTime(s + [d], time) == if d.createdAt == time then AtTime(s, time) + [d] else AtTime(s, time)
  {
    assert (s + [d])[..|s|] == s;
  }

  lemma SnocWebhook(s: seq<Delivery>, d: Delivery, webhook: Endpoint)
    ensures OfWebhook(s + [d], webhook) == if d.webhook == webhook then OfWebhook(s, webhook) + [d] else OfWebhook(s, webhook)
  {
    assert (s + [d])[..|s|] == s;
  }

  lemma LatestAtTheEnd(s: seq<Delivery>, d: Delivery)
    requires OldestFirst(s) && forall e :: e in s ==> e.createdAt <= d.createdAt
    ensures OldestFirst(s + [d])
  {}

  lemma {:induction false} InsertLateSorts(sorted: seq<Delivery>, d: Delivery)
    requires OldestFirst(sorted)
    ensures OldestFirst(InsertLate(sorted, d)) && multiset(InsertLate(sorted, d)) == multiset(sorted) + multiset{d}
  {
    if sorted == [] || sorted[|sorted| - 1].createdAt <= d.createdAt {
      LatestAtTheEnd(sorted, d);
    } else {
      var front, last := sorted[..|sorted| - 1], sorted[|sorted| - 1];
      InsertLateSorts(front, d);
      assert sorted == front + [last];
      forall e | e in InsertLate(front, d) ensures e.createdAt <= last.createdAt {
        assert e in multiset(front) + multiset{d};
      }
      LatestAtTheEnd(InsertLate(front, d), last);
    }
  }

  lemma {:induction false} InsertLateIsStable(sorted: seq<Delivery>, d: Delivery, time: int)
    requires OldestFirst(sorted)
    ensures AtTime(InsertLate(sorted, d), time) == if d.createdAt == time then AtTime(sorted, time) + [d] else AtTime(sorted, time)
  {
    if sorted == [] || sorted[|sorted| - 1].createdAt <= d.createdAt {
      SnocTime(sorted, d, time);
    } else {
      var front, last := sorted[..|sorted| - 1], sorted[|sorted| - 1];
      InsertLateIsStable(front, d, time);
      SnocTime(InsertLate(front, d), last, time);
    }
  }

  /** Sorting by time keeps the rows, and rows of equal time in their order. */
  lemma {:induction false} StableSortExact(batch: seq<Delivery>, time: int)
    ensures OldestFirst(StableSort(batch)) && multiset(StableSort(batch)) == multiset(batch)
    ensures AtTime(StableSort(batch), time) == AtTime(batch, time)
  {
    if batch != [] {
      var front, last := batch[..|batch| - 1], batch[|batch| - 1];
      assert batch == front + [last];
      StableSortExact(front, time);
      InsertLateSorts(StableSort(front), last);
      InsertLateIsStable(StableSort(front), last, time);
    }
  }

  // ----- sort.Strings

  function InsertId(id: Endpoint, sorted: seq<Endpoint>): seq<Endpoint> {
    if sorted == [] || !Before(sorted[0], id) then [id] + sorted else [sorted[0]] + InsertId(id, sorted[1..])
  }

  function SortIds(ids: seq<Endpoint>): seq<Endpoint> {
    if ids == [] then [] else InsertId(ids[0], SortIds(ids[1..]))
  }

  predicate Ascending(ids: seq<Endpoint>) {
    forall i, j :: 0 <= i < j < |ids| ==> Before(ids[i], ids[j])
  }

  lemma {:induction false} InsertIdExact(id: Endpoint, sorted: seq<Endpoint>)
    requires Ascending(sorted) && id !in sorted
    ensures Ascending(InsertId(id, sorted))
    ensures forall x :: x in InsertId(id, sorted) <==> x == id || x in sorted
  {
    if sorted != [] {
      assert sorted == [sorted[0]] + sorted[1..];
      if Before(sorted[0], id) {
        InsertIdExact(id, sorted[1..]);
        IdInFront(sorted[0], InsertId(id, sorted[1..]));
      } else {
        LessTotal(id.id, sorted[0].id);
        forall x | x in sorted ensures Before(id, x) {
          if x != sorted[0] { LessTransitive(id.id, sorted[0].id, x.id); }
        }
        IdInFront(id, sorted);
      }
    }
  }

  lemma IdInFront(id: Endpoint, sorted: seq<Endpoint>)
    requires Ascending(sorted) && forall x :: x in sorted ==> Before(id, x)
    ensures Ascending([id] + sorted)
  {
    var all := [id] + sorted;
    forall i, j | 0 <= i < j < |all| ensures Before(all[i], all[j]) {
      assert all[j] == sorted[j - 1];
      assert i > 0 ==> all[i] == sorted[i - 1];
    }
  }

  predicate NoDuplicates(ids: seq<Endpoint>) {
    forall i, j :: 0 <= i < j < |ids| ==> ids[i] != ids[j]
  }

  lemma {:induction false} SortIdsExact(ids: seq<Endpoint>)
    requires NoDuplicates(ids)
    ensures Ascending(SortIds(ids)) && forall x :: x in SortIds(ids) <==> x in ids
  {
    if ids != [] {
      assert ids == [ids[0]] + ids[1..];
      SortIdsExact(ids[1..]);
      assert ids[0] !in SortIds(ids[1..]);
      InsertIdExact(ids[0], SortIds(ids[1..]));
    }
  }

  // ----- the grouping

  /** A group of one webhook's deliveries, oldest first, those of one moment in batch order. */
  ghost predicate IsGroup(batch: seq<Delivery>, webhook: Endpoint, group: seq<Delivery>) {
    && group != []
    && (forall d :: d in group ==> d.webhook == webhook)
    && OldestFirst(group)
    && SameTimes(group, OfWebhook(batch, webhook))
  }

  function Owner(group: seq<Delivery>): Endpoint
    requires group != []
  {
    group[0].webhook
  }

  /** What groupByWebhook promises: one group for each webhook of the batch, in ascending order of webhook id. */
  ghost predicate Grouping(batch: seq<Delivery>, groups: seq<seq<Delivery>>) {
    && (forall g :: 0 <= g < |groups| ==> groups[g] != [] && IsGroup(batch, Owner(groups[g]), groups[g]))
    && (forall g, h :: 0 <= g < h < |groups| ==> Before(Owner(groups[g]), Owner(groups[h])))
    && (forall d :: d in batch ==> exists g :: 0 <= g < |groups| && Owner(groups[g]) == d.webhook)
  }

  /** The map and the list of ids after the rows seen so far. */
  ghost predicate Collected(seen: seq<Delivery>, byId: map<Endpoint, seq<Delivery>>, ids: seq<Endpoint>) {
    && NoDuplicates(ids)
    && (forall id :: id in ids <==> id in byId)
    && (forall id :: id in byId <==> OfWebhook(seen, id) != [])
    && (forall id :: id in byId ==> byId[id] == OfWebhook(seen, id))
  }

  lemma CollectNew(seen: seq<Delivery>, item: Delivery, byId: map<Endpoint, seq<Delivery>>, ids: seq<Endpoint>)
    requires Collected(seen, byId, ids) && item.webhook !in byId
    ensures Collected(seen + [item], byId[item.webhook := [item]], ids + [item.webhook])
  {
    forall id ensures OfWebhook(seen + [item], id) == if item.webhook == id then [item] else OfWebhook(seen, id) {
      SnocWebhook(seen, item, id);
    }
  }

  lemma CollectKnown(seen: seq<Delivery>, item: Delivery, byId: map<Endpoint, seq<Delivery>>, ids: seq<Endpoint>)
    requires Collected(seen, byId, ids) && item.webhook in byId
    ensures Collected(seen + [item], byId[item.webhook := byId[item.webhook] + [item]], ids)
  {
    forall id ensures OfWebhook(seen + [item], id) == if item.webhook == id then OfWebhook(seen, id) + [item] else OfWebhook(seen, id) {
      SnocWebhook(seen, item, id);
    }
  }

  lemma CollectedSorted(seen: seq<Delivery>, byId: map<Endpoint, seq<Delivery>>, ids: seq<Endpoint>)
    requires Collected(seen, byId, ids)
    ensures Collected(seen, byId, SortIds(ids)) && Ascending(SortIds(ids))
  {
    SortIdsExact(ids);
    AscendingDiffer(SortIds(ids));
  }

  lemma AscendingDiffer(ids: seq<Endpoint>)
    requires Ascending(ids)
    ensures NoDuplicates(ids)
  {
    forall i, j | 0 <= i < j < |ids| ensures ids[i] != ids[j] { LessIrreflexive(ids[i].id); }
  }

  /** The first loop: deliveries by webhook, and the webhooks in order of first appearance. */
  method ByWebhook(batch: seq<Delivery>) returns (byId: map<Endpoint, seq<Delivery>>, ids: seq<Endpoint>)
    ensures Collected(batch, byId, ids)
  {
    byId, ids := map[], [];
    for i := 0 to |batch|
      invariant Collected(batch[..i], byId, ids)
    {
      var item := batch[i];
      assert batch[..i + 1] == batch[..i] + [item];
      if item.webhook !in byId {
        CollectNew(batch[..i], item, byId, ids);
        ids := ids + [item.webhook];
        byId := byId[item.webhook := [item]];
      } else {
        CollectKnown(batch[..i], item, byId, ids);
        byId := byId[item.webhook := byId[item.webhook] + [item]];
      }
    }
    assert batch[..|batch|] == batch;
  }

  method GroupByWebhook(batch: seq<Delivery>) returns (groups: seq<seq<Delivery>>)
    ensures Grouping(batch, groups)
  {
    var byId, ids := ByWebhook(batch);
    CollectedSorted(batch, byId, ids);
    ids := SortIds(ids);
    groups := [];
    for i := 0 to |ids|
      invariant Made(batch, ids[..i], groups)
    {
      assert ids[i] in byId && ids[..i + 1] == ids[..i] + [ids[i]];
      var group := StableSort(byId[ids[i]]);
      Sorted(batch, ids[i]);
      MadeOneMore(batch, ids[..i], groups, ids[i], group);
      groups := groups + [group];
    }
    assert ids[..|ids|] == ids;
    MadeIsGrouping(batch, byId, ids, groups);
  }

  /** One finished group for each id. */
  ghost predicate Made(batch: seq<Delivery>, ids: seq<Endpoint>, groups: seq<seq<Delivery>>) {
    && |groups| == |ids|
    && forall g :: 0 <= g < |groups| ==> groups[g] != [] && Owner(groups[g]) == ids[g] && IsGroup(batch, ids[g], groups[g])
  }

  lemma MadeOneMore(batch: seq<Delivery>, ids: seq<Endpoint>, groups: seq<seq<Delivery>>, id: Endpoint, group: seq<Delivery>)
    requires Made(batch, ids, groups) && IsGroup(batch, id, group)
    ensures Made(batch, ids + [id], groups + [group])
  {
    assert group[0] in group;
  }

  lemma MadeIsGrouping(batch: seq<Delivery>, byId: map<Endpoint, seq<Delivery>>, ids: seq<Endpoint>, groups: seq<seq<Delivery>>)
    requires Made(batch, ids, groups) && Ascending(ids) && Collected(batch, byId, ids)
    ensures Grouping(batch, groups)
  {
    forall d | d in batch ensures d.webhook in ids { OfWebhookOwns(batch, d.webhook); }
    forall d | d in batch ensures exists g :: 0 <= g < |groups| && Owner(groups[g]) == d.webhook {
      var g :| 0 <= g < |ids| && ids[g] == d.webhook;
      assert Owner(groups[g]) == d.webhook;
    }
  }

  lemma Sorted(batch: seq<Delivery>, webhook: Endpoint)
    requires OfWebhook(batch, webhook) != []
    ensures IsGroup(batch, webhook, StableSort(OfWebhook(batch, webhook)))
  {
    var own := OfWebhook(batch, webhook);
    var group := StableSort(own);
    forall time ensures AtTime(group, time) == AtTime(own, time) { StableSortExact(own, time); }
    StableSortExact(own, 0);
    OfWebhookOwns(batch, webhook);
    forall d | d in group ensures d.webhook == webhook { assert d in multiset(own); }
    assert |multiset(group)| == |multiset(own)|;
  }

  lemma {:induction false} OfWebhookOwns(batch: seq<Delivery>, webhook: Endpoint)
    ensures forall d :: d in OfWebhook(batch, webhook) ==> d.webhook == webhook
    ensures forall d :: multiset(OfWebhook(batch, webhook))[d] == if d.webhook == webhook then multiset(batch)[d] else 0
  {
    if batch != [] {
      OfWebhookOwns(batch[..|batch| - 1], webhook);
      assert batch == batch[..|batch| - 1] + [batch[|batch| - 1]];
    }
  }

  // ----- the promise determines the result

  lemma {:induction false} AtTimeMembers(s: seq<Delivery>, time: int)
    ensures forall d :: d in AtTime(s, time) <==> d in s && d.createdAt == time
  {
    if s != [] {
      assert s == s[..|s| - 1] + [s[|s| - 1]];
      AtTimeMembers(s[..|s| - 1], time);
    }
  }

  ghost predicate SameTimes(s: seq<Delivery>, t: seq<Delivery>) {
    forall time :: AtTime(s, time) == AtTime(t, time)
  }

  lemma SameTimesMembers(s: seq<Delivery>, t: seq<Delivery>)
    requires SameTimes(s, t)
    ensures forall d :: d in s <==> d in t
  {
    forall d ensures d in s <==> d in t {
      AtTimeMembers(s, d.createdAt);
      AtTimeMembers(t, d.createdAt);
    }
  }

  lemma SameLast(f: seq<Delivery>, x: Delivery, g: seq<Delivery>, y: Delivery)
    requires SameTimes(f + [x], g + [y]) && OldestFirst(f + [x]) && OldestFirst(g + [y])
    ensures x == y
  {
    SameTimesMembers(f + [x], g + [y]);
    assert x in f + [x] && y in g + [y] && (f + [x])[|f|] == x && (g + [y])[|g|] == y;
    var time := x.createdAt;
    assert y.createdAt == time;
    SnocTime(f, x, time);
    SnocTime(g, y, time);
    LastEqual(AtTime(f, time), x, AtTime(g, time), y);
  }

  lemma SameTimesNonempty(s: seq<Delivery>, t: seq<Delivery>)
    requires SameTimes(s, t) && t != []
    ensures s != []
  {
    SameTimesMembers(s, t);
    assert t[0] in t;
  }

  lemma Pop(s: seq<Delivery>, t: seq<Delivery>)
    requires SameTimes(s, t) && OldestFirst(s) && OldestFirst(t) && s != [] && t != []
    ensures s[|s| - 1] == t[|t| - 1] && SameTimes(s[..|s| - 1], t[..|t| - 1])
  {
    var f, x, g, y := s[..|s| - 1], s[|s| - 1], t[..|t| - 1], t[|t| - 1];
    assert s == f + [x] && t == g + [y];
    SameLast(f, x, g, y);
    PeelTimes(f, g, x);
  }

  /** Two oldest-first sequences that agree at every moment are equal. */
  lemma {:induction false} StableOrderUnique(s: seq<Delivery>, t: seq<Delivery>)
    requires OldestFirst(s) && OldestFirst(t) && SameTimes(s, t)
    ensures s == t
  {
    if t != [] { SameTimesNonempty(s, t); }
    if s != [] {
      SameTimesNonempty(t, s);
      Pop(s, t);
      StableOrderUnique(s[..|s| - 1], t[..|t| - 1]);
      assert s == s[..|s| - 1] + [s[|s| - 1]] && t == t[..|t| - 1] + [t[|t| - 1]];
    }
  }

  lemma PeelTimes(f: seq<Delivery>, g: seq<Delivery>, x: Delivery)
    requires SameTimes(f + [x], g + [x])
    ensures SameTimes(f, g)
  {
    forall time ensures AtTime(f, time) == AtTime(g, time) { PeelTime(f, g, x, time); }
  }

  lemma PeelTime(f: seq<Delivery>, g: seq<Delivery>, x: Delivery, time: int)
    requires AtTime(f + [x], time) == AtTime(g + [x], time)
    ensures AtTime(f, time) == AtTime(g, time)
  {
    SnocTime(f, x, time);
    SnocTime(g, x, time);
    if x.createdAt == time { LastEqual(AtTime(f, time), x, AtTime(g, time), x); }
  }

  lemma LastEqual(s: seq<Delivery>, x: Delivery, t: seq<Delivery>, y: Delivery)
    requires s + [x] == t + [y]
    ensures s == t && x == y
  {
    assert |s| == |t|;
    assert (s + [x])[|s|] == (t + [y])[|t|];
    assert s == (s + [x])[..|s|] && t == (t + [y])[..|t|];
  }

  /** A strictly ascending sequence is determined by its elements. */
  lemma {:induction false} AscendingUnique(a: seq<Endpoint>, b: seq<Endpoint>)
    requires Ascending(a) && Ascending(b) && forall x :: x in a <==> x in b
    ensures a == b
  {
    if a != [] {
      assert a[0] in b && b[0] in a;
      FirstIsLeast(a, b[0]);
      FirstIsLeast(b, a[0]);
      if Before(a[0], b[0]) && Before(b[0], a[0]) { LessTransitive(a[0].id, b[0].id, a[0].id); }
      LessIrreflexive(a[0].id);
      Tail(a);
      Tail(b);
      AscendingUnique(a[1..], b[1..]);
    }
    assert b != [] ==> b[0] in a;
  }

  lemma Tail(a: seq<Endpoint>)
    requires Ascending(a) && a != []
    ensures a == [a[0]] + a[1..] && forall x :: x in a[1..] <==> x in a && x != a[0]
  {
    LessIrreflexive(a[0].id);
    forall x ensures x in a[1..] <==> x in a && x != a[0] {
      assert forall i :: 0 < i < |a| ==> Before(a[0], a[i]) && a[i] == a[1..][i - 1];
    }
  }

  lemma FirstIsLeast(a: seq<Endpoint>, x: Endpoint)
    requires Ascending(a) && x in a
    ensures x == a[0] || Before(a[0], x)
  {
    var i :| 0 <= i < |a| && a[i] == x;
    assert i > 0 ==> Before(a[0], a[i]);
  }

  function Owners(groups: seq<seq<Delivery>>): seq<Endpoint>
    requires forall g :: 0 <= g < |groups| ==> groups[g] != []
  {
    seq(|groups|, g requires 0 <= g < |groups| => Owner(groups[g]))
  }

  lemma OwnersExact(batch: seq<Delivery>, groups: seq<seq<Delivery>>, id: Endpoint)
    requires Grouping(batch, groups)
    ensures id in Owners(groups) <==> exists d :: d in batch && d.webhook == id
  {
    if id in Owners(groups) {
      var g :| 0 <= g < |groups| && Owners(groups)[g] == id;
      var d := groups[g][0];
      AtTimeMembers(groups[g], d.createdAt);
      AtTimeMembers(OfWebhook(batch, id), d.createdAt);
      assert IsGroup(batch, id, groups[g]);
      assert d in AtTime(groups[g], d.createdAt);
      OfWebhookOwns(batch, id);
      assert multiset(batch)[d] > 0 by { assert d in multiset(OfWebhook(batch, id)); }
    }
    if d :| d in batch && d.webhook == id {
      var g :| 0 <= g < |groups| && Owner(groups[g]) == d.webhook;
      assert Owners(groups)[g] == id;
    }
  }

  /** Nothing is left open: whatever the map order or the sorting algorithm, the result is the same. */
  lemma GroupingUnique(batch: seq<Delivery>, one: seq<seq<Delivery>>, two: seq<seq<Delivery>>)
    requires Grouping(batch, one) && Grouping(batch, two)
    ensures one == two
  {
    forall id ensures id in Owners(one) <==> id in Owners(two) {
      OwnersExact(batch, one, id);
      OwnersExact(batch, two, id);
    }
    AscendingUnique(Owners(one), Owners(two));
    assert |one| == |Owners(one)| == |two|;
    forall g | 0 <= g < |one| ensures one[g] == two[g] {
      assert Owners(one)[g] == Owners(two)[g];
      StableOrderUnique(one[g], two[g]);
    }
  }

  // ----- the groups are a partition

  function Flatten(groups: seq<seq<Delivery>>): seq<Delivery> {
    if groups == [] then [] else Flatten(groups[..|groups| - 1]) + groups[|groups| - 1]
  }

  lemma {:induction false} FlattenCounts(batch: seq<Delivery>, groups: seq<seq<Delivery>>, n: nat, d: Delivery)
    requires Grouping(batch, groups) && n <= |groups|
    ensures forall g :: 0 <= g < n && Owner(groups[g]) == d.webhook ==> multiset(Flatten(groups[..n]))[d] == multiset(batch)[d]
    ensures (forall g :: 0 <= g < n ==> Owner(groups[g]) != d.webhook) ==> multiset(Flatten(groups[..n]))[d] == 0
  {
    if n > 0 {
      var group := groups[n - 1];
      FlattenCounts(batch, groups, n - 1, d);
      assert groups[..n][..n - 1] == groups[..n - 1] && groups[..n][n - 1] == group;
      GroupCounts(batch, Owner(group), group, d);
      forall g | 0 <= g < n - 1 ensures Owner(groups[g]) != Owner(group) {
        LessIrreflexive(Owner(group).id);
      }
    }
  }

  lemma GroupCounts(batch: seq<Delivery>, webhook: Endpoint, group: seq<Delivery>, d: Delivery)
    requires IsGroup(batch, webhook, group)
    ensures multiset(group)[d] == if d.webhook == webhook then multiset(batch)[d] else 0
  {
    var own := OfWebhook(batch, webhook);
    forall time ensures AtTime(StableSort(own), time) == AtTime(own, time) { StableSortExact(own, time); }
    StableSortExact(own, 0);
    StableOrderUnique(group, StableSort(own));
    OfWebhookOwns(batch, webhook);
  }

  /** Every delivery of the batch is in exactly the groups' rows, as often as it was claimed. */
  lemma GroupsPartition(batch: seq<Delivery>, groups: seq<seq<Delivery>>)
    requires Grouping(batch, groups)
    ensures multiset(Flatten(groups)) == multiset(batch)
  {
    assert groups[..|groups|] == groups;
    forall d ensures multiset(Flatten(groups))[d] == multiset(batch)[d] {
      FlattenCounts(batch, groups, |groups|, d);
      if multiset(batch)[d] > 0 { assert d in batch; }
    }
  }
}
