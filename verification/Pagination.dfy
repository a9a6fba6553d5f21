/** Keyset pagination over V2 and V1 payments (List and consolidatedSelect in
    internal/adapters/postgres/legacy_payments.go). */
module Pagination {
  import opened Common
  import opened StringOrder

  /** The columns that decide whether and where a payment is listed. */
  datatype Row = Row(created: int, id: string, account: string, merchant: string, origin: string)

  /** The two tables of the union. */
  datatype Table = Table(v2: seq<Row>, v1: seq<Row>)

  datatype Caller = Caller(account: string, merchant: string)

  /** A decoded cursor; encoding and decoding are taken to be inverse. Garbled is text that is no cursor. */
  datatype Cursor = First | After(created: int, id: string) | Garbled

  datatype Page = Page(items: seq<Row>, hasMore: bool, next: Cursor)

  /** time.Time's zero value, which a cursor must not carry. */
  const ZERO_TIME := 0

  /** (creation_date, transaction_id) of r is smaller than the given pair: r comes later in the listing. */
  predicate Below(r: Row, created: int, id: string) {
    r.created < created || (r.created == created && Less(r.id, id))
  }

  predicate Above(r: Row, s: Row) {
    Below(s, r.created, r.id)
  }

  predicate SamePosition(r: Row, s: Row) {
    r.created == s.created && r.id == s.id
  }

  lemma AboveTransitive(r: Row, s: Row, t: Row)
    requires Above(r, s) && Above(s, t)
    ensures Above(r, t)
  {
    if r.created == s.created == t.created { LessTransitive(t.id, s.id, r.id); }
  }

  lemma AboveTotal(r: Row, s: Row)
    ensures Above(r, s) || Above(s, r) || SamePosition(r, s)
    ensures Above(r, s) ==> !Above(s, r) && !SamePosition(r, s)
  {
    LessTotal(r.id, s.id);
    LessIrreflexive(r.id);
    if Less(s.id, r.id) && Less(r.id, s.id) { LessTransitive(r.id, s.id, r.id); }
  }

  predicate Visible(r: Row, c: Caller) {
    if c.merchant != "" then r.merchant == c.merchant else c.account != "" && r.account == c.account
  }

  predicate Past(r: Row, cursor: Cursor) {
    cursor.After? ==> Below(r, cursor.created, cursor.id)
  }

  // ----- the query

  function All(t: Table): seq<Row> {
    t.v2 + t.v1
  }

  function Select(rows: seq<Row>, c: Caller, cursor: Cursor): seq<Row>
    decreases |rows|
  {
    if rows == [] then []
    else if Visible(rows[0], c) && Past(rows[0], cursor) then [rows[0]] + Select(rows[1..], c, cursor)
    else Select(rows[1..], c, cursor)
  }

  function Insert(r: Row, sorted: seq<Row>): seq<Row>
    decreases |sorted|
  {
    if sorted == [] || !Above(sorted[0], r) then [r] + sorted else [sorted[0]] + Insert(r, sorted[1..])
  }

  /** ORDER BY creation_date DESC, transaction_id DESC. */
  function Sort(rows: seq<Row>): seq<Row>
    decreases |rows|
  {
    if rows == [] then [] else Insert(rows[0], Sort(rows[1..]))
  }

  function Matching(t: Table, c: Caller, cursor: Cursor): seq<Row> {
    Sort(Select(All(t), c, cursor))
  }

  function Take(rows: seq<Row>, n: nat): seq<Row> {
    if |rows| <= n then rows else rows[..n]
  }

  function Limit(asked: int): nat {
    if asked <= 0 || asked > 100 then 50 else asked
  }

  predicate Unusable(cursor: Cursor) {
    cursor.Garbled? || (cursor.After? && (cursor.created == ZERO_TIME || cursor.id == ""))
  }

  /** One page, as a function of the tables at that moment. */
  function PageOf(t: Table, c: Caller, asked: int, cursor: Cursor): Result<Page> {
    if Unusable(cursor) then Err(Invalid)
    else
      var rows, limit := Take(Matching(t, c, cursor), Limit(asked) + 1), Limit(asked);
      if |rows| > limit
      then Ok(Page(rows[..limit], true, After(rows[limit - 1].created, rows[limit - 1].id)))
      else Ok(Page(rows, false, First))
  }

  /** The caller may see the row: by merchant if he names one, else by account. */
  predicate Owns(c: Caller, r: Row) {
    (c.merchant != "" ==> r.merchant == c.merchant) && (c.merchant == "" ==> c.account != "" && r.account == c.account)
  }

  /** A page in plain terms: stored rows of the caller past the cursor, and all of them if nothing comes after. */
  ghost predicate PlainRows(p: Page, t: Table, c: Caller, cursor: Cursor) {
    && (forall r :: r in p.items ==> (r in t.v2 || r in t.v1) && Owns(c, r))
    && (forall r :: r in p.items && cursor.After? ==>
          r.created < cursor.created || (r.created == cursor.created && Less(r.id, cursor.id)))
    && (!p.hasMore && cursor.First? ==> forall r :: (r in t.v2 || r in t.v1) && Owns(c, r) ==> r in p.items)
  }

  /** Newest first, and among equals by descending id. */
  predicate PlainOrder(items: seq<Row>) {
    forall i, j :: 0 <= i < j < |items| ==>
      items[i].created >= items[j].created && (items[i].created == items[j].created ==> !Less(items[i].id, items[j].id))
  }

  /** No more than were asked for, or fifty; a full page if there are more, with the cursor at its last row. */
  predicate PlainShape(p: Page, asked: int) {
    && (1 <= asked <= 100 ==> |p.items| <= asked && (p.hasMore ==> |p.items| == asked))
    && (asked <= 0 || asked > 100 ==> |p.items| <= 50 && (p.hasMore ==> |p.items| == 50))
    && (p.hasMore ==> p.items != [] && p.next == After(p.items[|p.items| - 1].created, p.items[|p.items| - 1].id))
    && (!p.hasMore ==> p.next == First)
  }

  ghost predicate PageFacts(p: Page, t: Table, c: Caller, asked: int, cursor: Cursor) {
    PlainRows(p, t, c, cursor) && PlainOrder(p.items) && PlainShape(p, asked)
  }

  lemma OrderIsPlain(m: seq<Row>, n: nat)
    requires WeaklyDescending(m) && n <= |m|
    ensures PlainOrder(m[..n])
  {
    forall i, j | 0 <= i < j < n
      ensures m[i].created >= m[j].created && (m[i].created == m[j].created ==> !Less(m[i].id, m[j].id))
    {
      assert !Above(m[j], m[i]);
    }
  }

  lemma PageIsPlain(t: Table, c: Caller, asked: int, cursor: Cursor)
    requires !Unusable(cursor)
    ensures PageOf(t, c, asked, cursor).Ok? && PageFacts(PageOf(t, c, asked, cursor).value, t, c, asked, cursor)
  {
    var m, limit := Matching(t, c, cursor), Limit(asked);
    var n := if |m| <= limit then |m| else limit;
    PageOfListing(t, c, asked, cursor);
    MatchingExact(t, c, cursor);
    OrderIsPlain(m, n);
    assert m[..|m|] == m;
    var p := if |m| <= limit then Page(m, false, First) else Page(m[..limit], true, CursorAt(m[limit - 1]));
    assert p.items == m[..n];
    RowsArePlain(p, t, c, cursor, m, n);
  }

  lemma RowsArePlain(p: Page, t: Table, c: Caller, cursor: Cursor, m: seq<Row>, n: nat)
    requires n <= |m| && p.items == m[..n] && (!p.hasMore ==> n == |m|)
    requires forall r :: r in m <==> r in All(t) && Visible(r, c) && Past(r, cursor)
    ensures PlainRows(p, t, c, cursor)
  {
    assert forall r :: r in p.items ==> r in m;
    assert forall r :: r in All(t) <==> r in t.v2 || r in t.v1;
    if !p.hasMore { assert p.items == m; }
  }

  /** The loop over the rows of the result. */
  method Scan(rows: seq<Row>) returns (items: seq<Row>, created: seq<int>)
    ensures items == rows && |created| == |rows|
    ensures forall j :: 0 <= j < |rows| ==> created[j] == rows[j].created
  {
    items, created := [], [];
    for i := 0 to |rows|
      invariant items == rows[..i] && |created| == i
      invariant forall j :: 0 <= j < i ==> created[j] == rows[j].created
    {
      items, created := items + [rows[i]], created + [rows[i].created];
    }
  }

  /** List: one row more than the page is fetched to learn whether there is a next page. */
  method List(t: Table, c: Caller, asked: int, cursor: Cursor) returns (r: Result<Page>)
    ensures r == PageOf(t, c, asked, cursor)
    ensures r == Err(Invalid) <==> cursor == Garbled || (cursor.After? && (cursor.created == ZERO_TIME || cursor.id == ""))
    ensures r.Ok? ==> PageFacts(r.value, t, c, asked, cursor)
  {
    var limit := asked;
    if limit <= 0 || limit > 100 {
      limit := 50;
    }
    if cursor.Garbled? || (cursor.After? && (cursor.created == ZERO_TIME || cursor.id == "")) {
      return Err(Invalid);
    }
    var rows := Take(Matching(t, c, cursor), limit + 1);
    var items, created := Scan(rows);
    var hasMore := |items| > limit;
    if hasMore {
      items, created := items[..limit], created[..limit];
    }
    var next := First;
    if hasMore && |items| > 0 {
      next := After(created[|created| - 1], items[|items| - 1].id);
    }
    PageIsPlain(t, c, asked, cursor);
    return Ok(Page(items, hasMore, next));
  }

  // ----- what the query returns

  predicate Descending(rows: seq<Row>) {
    forall i, j :: 0 <= i < j < |rows| ==> Above(rows[i], rows[j])
  }

  /** No two rows share creation date and id. */
  predicate Distinct(rows: seq<Row>) {
    forall i, j :: 0 <= i < j < |rows| ==> !SamePosition(rows[i], rows[j])
  }

  /** Distinct, asked only of the rows the caller may see. */
  predicate Keyed(rows: seq<Row>, c: Caller) {
    forall i, j :: 0 <= i < j < |rows| && Visible(rows[i], c) && Visible(rows[j], c) ==> !SamePosition(rows[i], rows[j])
  }

  lemma {:induction false} SelectExact(rows: seq<Row>, c: Caller, cursor: Cursor)
    ensures forall r :: r in Select(rows, c, cursor) <==> r in rows && Visible(r, c) && Past(r, cursor)
    ensures Keyed(rows, c) ==> Distinct(Select(rows, c, cursor))
    decreases |rows|
  {
    if rows != [] {
      var rest := Select(rows[1..], c, cursor);
      SelectExact(rows[1..], c, cursor);
      assert rows == [rows[0]] + rows[1..];
      if Keyed(rows, c) {
        forall r | r in rest ensures Visible(rows[0], c) ==> !SamePosition(rows[0], r) {
          var i :| 0 <= i < |rows[1..]| && rows[1..][i] == r;
          assert rows[i + 1] == r;
        }
        assert Keyed(rows[1..], c);
      }
    }
  }

  lemma {:induction false} InsertExact(r: Row, sorted: seq<Row>)
    requires Descending(sorted) && forall s :: s in sorted ==> !SamePosition(r, s)
    ensures Descending(Insert(r, sorted))
    ensures forall s :: s in Insert(r, sorted) <==> s == r || s in sorted
    decreases |sorted|
  {
    if sorted != [] {
      assert sorted == [sorted[0]] + sorted[1..];
      AboveTotal(r, sorted[0]);
      if Above(sorted[0], r) {
        assert Descending(sorted[1..]);
        InsertExact(r, sorted[1..]);
        FrontAbove(sorted[0], Insert(r, sorted[1..]));
      } else {
        forall s | s in sorted ensures Above(r, s) {
          var i :| 0 <= i < |sorted| && sorted[i] == s;
          if i > 0 { AboveTransitive(r, sorted[0], s); }
        }
        FrontAbove(r, sorted);
      }
    }
  }

  /** Putting a row in front of lower ones keeps them descending. */
  lemma FrontAbove(r: Row, rows: seq<Row>)
    requires Descending(rows) && forall s :: s in rows ==> Above(r, s)
    ensures Descending([r] + rows)
  {
    var all := [r] + rows;
    forall i, j | 0 <= i < j < |all| ensures Above(all[i], all[j]) {
      if i == 0 { assert all[j] == rows[j - 1] && rows[j - 1] in rows; } else { assert all[i] == rows[i - 1] && all[j] == rows[j - 1]; }
    }
  }

  lemma {:induction false} SortExact(rows: seq<Row>)
    requires Distinct(rows)
    ensures Descending(Sort(rows))
    ensures forall r :: r in Sort(rows) <==> r in rows
    decreases |rows|
  {
    if rows != [] {
      assert rows == [rows[0]] + rows[1..];
      assert Distinct(rows[1..]);
      SortExact(rows[1..]);
      forall s | s in Sort(rows[1..]) ensures !SamePosition(rows[0], s) {
        var i :| 0 <= i < |rows[1..]| && rows[1..][i] == s;
        assert rows[i + 1] == s;
      }
      InsertExact(rows[0], Sort(rows[1..]));
    }
  }

  // ----- with equal keys

  /** No row stands below one that it should stand above; rows with one key are in some order. */
  predicate WeaklyDescending(rows: seq<Row>) {
    forall i, j :: 0 <= i < j < |rows| ==> !Above(rows[j], rows[i])
  }

  lemma NotAboveTransitive(r: Row, s: Row, t: Row)
    requires !Above(r, s) && !Above(s, t)
    ensures !Above(r, t)
  {
    AboveTotal(r, s);
    AboveTotal(s, t);
    if Above(s, r) && Above(t, s) { AboveTransitive(t, s, r); AboveTotal(t, r); }
  }

  lemma {:induction false} InsertWeak(r: Row, sorted: seq<Row>)
    requires WeaklyDescending(sorted)
    ensures WeaklyDescending(Insert(r, sorted)) && multiset(Insert(r, sorted)) == multiset{r} + multiset(sorted)
    decreases |sorted|
  {
    if sorted == [] {
      assert Insert(r, sorted) == [r];
    } else {
      assert sorted == [sorted[0]] + sorted[1..];
      if Above(sorted[0], r) {
        InsertWeak(r, sorted[1..]);
        AboveTotal(sorted[0], r);
        forall s | s in Insert(r, sorted[1..]) ensures !Above(s, sorted[0]) { assert s in multiset{r} + multiset(sorted[1..]); }
        FrontWeak(sorted[0], Insert(r, sorted[1..]));
      } else {
        forall s | s in sorted ensures !Above(s, r) {
          var i :| 0 <= i < |sorted| && sorted[i] == s;
          if i > 0 { NotAboveTransitive(s, sorted[0], r); }
        }
        FrontWeak(r, sorted);
      }
    }
  }

  lemma FrontWeak(r: Row, rows: seq<Row>)
    requires WeaklyDescending(rows) && forall s :: s in rows ==> !Above(s, r)
    ensures WeaklyDescending([r] + rows)
  {
    var all := [r] + rows;
    forall i, j | 0 <= i < j < |all| ensures !Above(all[j], all[i]) {
      assert all[j] == rows[j - 1];
      assert i > 0 ==> all[i] == rows[i - 1];
    }
  }

  lemma {:induction false} SortWeak(rows: seq<Row>)
    ensures WeaklyDescending(Sort(rows)) && multiset(Sort(rows)) == multiset(rows)
    decreases |rows|
  {
    if rows != [] {
      assert rows == [rows[0]] + rows[1..];
      SortWeak(rows[1..]);
      InsertWeak(rows[0], Sort(rows[1..]));
    }
  }

  lemma {:induction false} SelectMembers(rows: seq<Row>, c: Caller, cursor: Cursor)
    ensures forall r :: r in Select(rows, c, cursor) <==> r in rows && Visible(r, c) && Past(r, cursor)
    ensures forall r :: Visible(r, c) && Past(r, cursor) ==> multiset(Select(rows, c, cursor))[r] == multiset(rows)[r]
    decreases |rows|
  {
    if rows != [] {
      SelectMembers(rows[1..], c, cursor);
      assert rows == [rows[0]] + rows[1..];
    }
  }

  /** The query is exact: a row is in the result iff it is in one of the tables, the caller may see it and it lies past
      the cursor, as often as it is stored; the rows descend, strictly so if no two visible ones share their key. */
  lemma MatchingExact(t: Table, c: Caller, cursor: Cursor)
    ensures WeaklyDescending(Matching(t, c, cursor))
    ensures forall r :: r in Matching(t, c, cursor) <==> r in All(t) && Visible(r, c) && Past(r, cursor)
    ensures forall r :: Visible(r, c) && Past(r, cursor) ==> multiset(Matching(t, c, cursor))[r] == multiset(All(t))[r]
    ensures Keyed(All(t), c) ==> Descending(Matching(t, c, cursor))
  {
    var chosen := Select(All(t), c, cursor);
    SelectMembers(All(t), c, cursor);
    SortWeak(chosen);
    forall r ensures r in Sort(chosen) <==> r in chosen {
      assert r in multiset(Sort(chosen)) <==> r in multiset(chosen);
    }
    if Keyed(All(t), c) { MatchingStrict(t, c, cursor); }
  }

  lemma MatchingStrict(t: Table, c: Caller, cursor: Cursor)
    requires Keyed(All(t), c)
    ensures Descending(Matching(t, c, cursor))
    ensures forall r :: r in Matching(t, c, cursor) <==> r in All(t) && Visible(r, c) && Past(r, cursor)
  {
    SelectExact(All(t), c, cursor);
    SortExact(Select(All(t), c, cursor));
  }

  // ----- following the cursors

  /** Fetch pages until one says there is no more, each from the tables as they are by then. None if the
      snapshots run out first or a page is refused. */
  function Follow(tables: seq<Table>, c: Caller, asked: int, cursor: Cursor): Option<seq<Row>>
    decreases |tables|
  {
    if tables == [] then None
    else
      match PageOf(tables[0], c, asked, cursor)
      case Err(_) => None
      case Ok(page) =>
        if !page.hasMore then Some(page.items)
        else
          match Follow(tables[1..], c, asked, page.next)
          case None => None
          case Some(rest) => Some(page.items + rest)
  }

  predicate Regular(rows: seq<Row>, c: Caller) {
    forall r :: r in rows && Visible(r, c) ==> r.created != ZERO_TIME && r.id != ""
  }

  /** Every listed row has a key of its own and can be a cursor. */
  predicate Pageable(t: Table, c: Caller) {
    Keyed(All(t), c) && Regular(All(t), c)
  }

  /** Rows are only ever added. */
  predicate Growing(tables: seq<Table>, c: Caller) {
    && (forall i :: 0 <= i < |tables| ==> Pageable(tables[i], c))
    && (forall i, j, r :: 0 <= i <= j < |tables| && r in All(tables[i]) ==> r in All(tables[j]))
  }

  /** What one page promises about the rows past the cursor. */
  ghost predicate Exact(p: Page, t: Table, c: Caller, cursor: Cursor) {
    && Descending(p.items)
    && (forall r :: r in p.items ==> r in All(t) && Visible(r, c) && Past(r, cursor))
    && (forall r :: r in All(t) && Visible(r, c) && Past(r, cursor) ==> r in p.items || (p.hasMore && Past(r, p.next)))
    && (p.hasMore ==> p.items != [] && p.next.After? && !Unusable(p.next))
    && (p.hasMore ==> forall r, s :: Past(r, p.next) && s in p.items ==> Above(s, r))
  }

  /** A page is the top of what lies past the cursor, and the next cursor stands at its last row. */
  lemma PageExact(t: Table, c: Caller, asked: int, cursor: Cursor)
    requires Pageable(t, c) && !Unusable(cursor)
    ensures PageOf(t, c, asked, cursor).Ok? && Exact(PageOf(t, c, asked, cursor).value, t, c, cursor)
  {
    var m, limit := Matching(t, c, cursor), Limit(asked);
    MatchingStrict(t, c, cursor);
    PageOfListing(t, c, asked, cursor);
    if |m| > limit {
      assert m[limit - 1] in m;
      CutExact(m, limit, CursorAt(m[limit - 1]));
      TopIsExact(m, limit, t, c, cursor);
    }
  }

  lemma TopIsExact(m: seq<Row>, n: nat, t: Table, c: Caller, cursor: Cursor)
    requires 0 < n < |m| && Descending(m[..n]) && m[n - 1].created != ZERO_TIME && m[n - 1].id != ""
    requires forall r :: r in m <==> r in All(t) && Visible(r, c) && Past(r, cursor)
    requires forall r :: r in m ==> r in m[..n] || Past(r, CursorAt(m[n - 1]))
    requires forall r, s :: Past(r, CursorAt(m[n - 1])) && s in m[..n] ==> Above(s, r)
    ensures Exact(Page(m[..n], true, CursorAt(m[n - 1])), t, c, cursor)
  {
    assert forall r :: r in m[..n] ==> r in m;
  }

  /** Cutting a descending sequence at a cursor. */
  lemma CutExact(m: seq<Row>, n: nat, next: Cursor)
    requires Descending(m) && 0 < n <= |m| && next == After(m[n - 1].created, m[n - 1].id)
    ensures forall r :: r in m ==> r in m[..n] || Past(r, next)
    ensures forall r, s :: Past(r, next) && s in m[..n] ==> Above(s, r)
    ensures Descending(m[..n])
  {
    forall r | r in m && !Past(r, next) ensures r in m[..n] {
      var i :| 0 <= i < |m| && m[i] == r;
      assert i >= n ==> Above(m[n - 1], m[i]);
      assert m[..n][i] == r;
    }
    forall r, s | Past(r, next) && s in m[..n] ensures Above(s, r) {
      var i :| 0 <= i < n && m[..n][i] == s;
      assert Above(m[n - 1], r);
      if i < n - 1 { AboveTransitive(s, m[n - 1], r); }
    }
  }

  /** A walk's rows are strictly descending and visible, and none that was there at the start is missing. */
  ghost predicate WalkExact(out: seq<Row>, first: seq<Row>, last: seq<Row>, c: Caller, cursor: Cursor) {
    && Descending(out)
    && (forall r :: r in out ==> Past(r, cursor) && Visible(r, c) && r in last)
    && (forall r :: r in first && Visible(r, c) && Past(r, cursor) ==> r in out)
  }

  lemma LaterGrows(tables: seq<Table>, c: Caller)
    requires Growing(tables, c) && |tables| > 1
    ensures var later := tables[1..];
            Growing(later, c) && later[|later| - 1] == tables[|tables| - 1]
            && forall r :: r in All(tables[0]) ==> r in All(later[0]) && r in All(tables[|tables| - 1])
  {}

  lemma FirstPage(tables: seq<Table>, c: Caller, asked: int, cursor: Cursor) returns (p: Page, rest: seq<Row>)
    requires Follow(tables, c, asked, cursor).Some?
    ensures tables != [] && PageOf(tables[0], c, asked, cursor) == Ok(p)
    ensures if p.hasMore then tables[1..] != [] && Follow(tables[1..], c, asked, p.next) == Some(rest)
            else rest == []
    ensures Follow(tables, c, asked, cursor).value == p.items + rest
  {
    p := PageOf(tables[0], c, asked, cursor).value;
    rest := if p.hasMore then Follow(tables[1..], c, asked, p.next).value else [];
  }

  /** Whatever is inserted between the pages, nothing is skipped or repeated. */
  lemma {:induction false} NothingSkippedOrRepeated(tables: seq<Table>, c: Caller, asked: int, cursor: Cursor)
    requires Growing(tables, c) && Follow(tables, c, asked, cursor).Some?
    ensures WalkExact(Follow(tables, c, asked, cursor).value, All(tables[0]), All(tables[|tables| - 1]), c, cursor)
    decreases |tables|
  {
    var p, rest := FirstPage(tables, c, asked, cursor);
    PageExact(tables[0], c, asked, cursor);
    var last := All(tables[|tables| - 1]);
    if p.hasMore {
      var later := tables[1..];
      LaterGrows(tables, c);
      NothingSkippedOrRepeated(later, c, asked, p.next);
      Joined(p, tables[0], rest, All(later[0]), last, c, cursor);
    } else {
      LastPage(p, tables, c, cursor);
    }
  }

  lemma LastPage(p: Page, tables: seq<Table>, c: Caller, cursor: Cursor)
    requires Growing(tables, c) && tables != [] && Exact(p, tables[0], c, cursor) && !p.hasMore
    ensures WalkExact(p.items + [], All(tables[0]), All(tables[|tables| - 1]), c, cursor)
  {
    assert p.items + [] == p.items;
    assert forall r :: r in All(tables[0]) ==> r in All(tables[|tables| - 1]);
  }

  /** A page followed by the walk from its cursor. */
  lemma Joined(p: Page, t: Table, rest: seq<Row>, first: seq<Row>, last: seq<Row>, c: Caller, cursor: Cursor)
    requires Exact(p, t, c, cursor) && p.hasMore && WalkExact(rest, first, last, c, p.next)
    requires forall r :: r in All(t) ==> r in first && r in last
    ensures WalkExact(p.items + rest, All(t), last, c, cursor)
  {
    var items := p.items;
    var all := items + rest;
    forall i, j | 0 <= i < j < |all| ensures Above(all[i], all[j]) {
      if i < |items| <= j { assert items[i] in items && rest[j - |items|] in rest; }
    }
    NextIsLater(p, t, c, cursor);
  }

  /** What lies past the next cursor lies past the present one; the page's rows do not. */
  lemma NextIsLater(p: Page, t: Table, c: Caller, cursor: Cursor)
    requires Exact(p, t, c, cursor) && p.hasMore
    ensures forall r :: Past(r, p.next) ==> Past(r, cursor)
    ensures forall s :: s in p.items ==> !Past(s, p.next)
  {
    var s := p.items[0];
    forall r | Past(r, p.next) ensures Past(r, cursor) {
      assert Above(s, r) && Past(s, cursor);
      if cursor.After? && r.created == s.created == cursor.created { LessTransitive(r.id, s.id, cursor.id); }
    }
    forall s | s in p.items ensures !Past(s, p.next) {
      AboveTotal(s, s);
    }
  }

  // ----- an unchanging table

  function Still(t: Table, n: nat): seq<Table> {
    seq(n, _ => t)
  }

  /** The rows past a cursor, in their order. */
  function Beneath(rows: seq<Row>, cursor: Cursor): seq<Row>
    decreases |rows|
  {
    if rows == [] then []
    else if Past(rows[0], cursor) then [rows[0]] + Beneath(rows[1..], cursor)
    else Beneath(rows[1..], cursor)
  }

  lemma {:induction false} BeneathMembers(rows: seq<Row>, cursor: Cursor)
    ensures forall r :: r in Beneath(rows, cursor) <==> r in rows && Past(r, cursor)
    ensures |Beneath(rows, cursor)| <= |rows|
    ensures (exists r :: r in rows && !Past(r, cursor)) ==> |Beneath(rows, cursor)| < |rows|
    decreases |rows|
  {
    if rows != [] {
      BeneathMembers(rows[1..], cursor);
      assert rows == [rows[0]] + rows[1..];
    }
  }

  lemma {:induction false} BeneathAll(rows: seq<Row>, cursor: Cursor)
    requires forall r :: r in rows ==> Past(r, cursor)
    ensures Beneath(rows, cursor) == rows
    decreases |rows|
  {
    if rows != [] {
      assert rows[0] in rows;
      BeneathAll(rows[1..], cursor);
      assert rows == [rows[0]] + rows[1..];
    }
  }

  lemma {:induction false} BeneathNone(front: seq<Row>, rows: seq<Row>, cursor: Cursor)
    requires forall r :: r in front ==> !Past(r, cursor)
    ensures Beneath(front + rows, cursor) == Beneath(rows, cursor)
    decreases |front|
  {
    if front == [] {
      assert front + rows == rows;
    } else {
      assert front[0] in front;
      assert (front + rows)[0] == front[0] && (front + rows)[1..] == front[1..] + rows;
      BeneathNone(front[1..], rows, cursor);
    }
  }

  lemma {:induction false} BeneathTwice(rows: seq<Row>, cursor: Cursor, next: Cursor)
    requires forall r :: Past(r, next) ==> Past(r, cursor)
    ensures Beneath(Beneath(rows, cursor), next) == Beneath(rows, next)
    decreases |rows|
  {
    if rows != [] {
      BeneathTwice(rows[1..], cursor, next);
      var rest := Beneath(rows[1..], cursor);
      assert ([rows[0]] + rest)[1..] == rest;
    }
  }

  lemma {:induction false} SelectBeneath(rows: seq<Row>, c: Caller, cursor: Cursor)
    ensures Select(rows, c, cursor) == Beneath(Select(rows, c, First), cursor)
    decreases |rows|
  {
    if rows != [] {
      SelectBeneath(rows[1..], c, cursor);
      var rest := Select(rows[1..], c, First);
      assert ([rows[0]] + rest)[1..] == rest;
    }
  }

  /** Sorting and cutting off commute. */
  lemma {:induction false} InsertBeneath(r: Row, sorted: seq<Row>, cursor: Cursor)
    requires WeaklyDescending(sorted)
    ensures Beneath(Insert(r, sorted), cursor) == if Past(r, cursor) then Insert(r, Beneath(sorted, cursor)) else Beneath(sorted, cursor)
    decreases |sorted|
  {
    if sorted == [] || !Above(sorted[0], r) {
      assert ([r] + sorted)[1..] == sorted;
      BeneathMembers(sorted, cursor);
      var below := Beneath(sorted, cursor);
      if below != [] {
        assert below[0] in sorted;
        var i :| 0 <= i < |sorted| && sorted[i] == below[0];
        if i > 0 { NotAboveTransitive(sorted[i], sorted[0], r); }
      }
    } else {
      var rest := Insert(r, sorted[1..]);
      InsertBeneath(r, sorted[1..], cursor);
      assert ([sorted[0]] + rest)[1..] == rest;
      var below := Beneath(sorted[1..], cursor);
      assert ([sorted[0]] + below)[1..] == below;
    }
  }

  lemma PastBelow(s: Row, r: Row, cursor: Cursor)
    requires Above(s, r) && Past(s, cursor)
    ensures Past(r, cursor)
  {
    if cursor.After? && r.created == s.created == cursor.created { LessTransitive(r.id, s.id, cursor.id); }
  }

  lemma {:induction false} SortBeneath(rows: seq<Row>, cursor: Cursor)
    ensures Sort(Beneath(rows, cursor)) == Beneath(Sort(rows), cursor)
    decreases |rows|
  {
    if rows != [] {
      SortBeneath(rows[1..], cursor);
      SortWeak(rows[1..]);
      InsertBeneath(rows[0], Sort(rows[1..]), cursor);
      var rest := Beneath(rows[1..], cursor);
      assert ([rows[0]] + rest)[1..] == rest;
    }
  }

  /** What lies past a later cursor, cut from what lies past an earlier one. */
  lemma MatchingBeneath(t: Table, c: Caller, cursor: Cursor, next: Cursor)
    requires forall r :: Past(r, next) ==> Past(r, cursor)
    ensures Matching(t, c, next) == Beneath(Matching(t, c, cursor), next)
  {
    var all := Select(All(t), c, First);
    SelectBeneath(All(t), c, cursor);
    SelectBeneath(All(t), c, next);
    BeneathTwice(all, cursor, next);
    SortBeneath(Beneath(all, cursor), next);
  }

  function CursorAt(r: Row): Cursor {
    After(r.created, r.id)
  }

  lemma NotPastItself(r: Row)
    ensures !Past(r, CursorAt(r))
  {
    LessIrreflexive(r.id);
  }

  /** What following the cursors of a listing m yields: a page, and then what lies strictly below its last row. */
  function Chase(m: seq<Row>, limit: nat): seq<Row>
    requires limit > 0
    decreases |m|
  {
    if |m| <= limit then m
    else
      var cursor := CursorAt(m[limit - 1]);
      assert |Beneath(m, cursor)| < |m| by {
        NotPastItself(m[limit - 1]);
        BeneathMembers(m, cursor);
      }
      m[..limit] + Chase(Beneath(m, cursor), limit)
  }

  /** One page, told of the listing past the cursor. */
  lemma PageOfListing(t: Table, c: Caller, asked: int, cursor: Cursor)
    requires !Unusable(cursor)
    ensures var m, limit := Matching(t, c, cursor), Limit(asked);
            PageOf(t, c, asked, cursor) == Ok(if |m| <= limit then Page(m, false, First) else Page(m[..limit], true, CursorAt(m[limit - 1])))
  {
    var m, limit := Matching(t, c, cursor), Limit(asked);
    if |m| > limit { assert m[..limit + 1][..limit] == m[..limit]; }
  }

  /** The cursor a full page hands out. */
  lemma NextCursor(t: Table, c: Caller, cursor: Cursor, limit: nat)
    requires Regular(All(t), c) && 0 < limit < |Matching(t, c, cursor)|
    ensures var m := Matching(t, c, cursor);
            var next := CursorAt(m[limit - 1]);
            !Unusable(next) && Matching(t, c, next) == Beneath(m, next) && |Beneath(m, next)| < |m|
  {
    var m := Matching(t, c, cursor);
    var last := m[limit - 1];
    MatchingExact(t, c, cursor);
    assert last in m;
    forall r | Past(r, CursorAt(last)) ensures Past(r, cursor) { PastBelow(last, r, cursor); }
    MatchingBeneath(t, c, cursor, CursorAt(last));
    NotPastItself(last);
    BeneathMembers(m, CursorAt(last));
  }

  lemma FollowStep(tables: seq<Table>, c: Caller, asked: int, cursor: Cursor, page: Page, rest: seq<Row>)
    requires tables != [] && PageOf(tables[0], c, asked, cursor) == Ok(page)
    requires page.hasMore ==> Follow(tables[1..], c, asked, page.next) == Some(rest)
    ensures Follow(tables, c, asked, cursor) == Some(if page.hasMore then page.items + rest else page.items)
  {
  }

  lemma {:induction false} FollowChases(t: Table, c: Caller, asked: int, cursor: Cursor, n: nat)
    requires Regular(All(t), c) && !Unusable(cursor) && n > |Matching(t, c, cursor)|
    ensures Follow(Still(t, n), c, asked, cursor) == Some(Chase(Matching(t, c, cursor), Limit(asked)))
    decreases n
  {
    var m, limit := Matching(t, c, cursor), Limit(asked);
    assert Still(t, n)[0] == t && Still(t, n)[1..] == Still(t, n - 1);
    PageOfListing(t, c, asked, cursor);
    if |m| > limit {
      var next := CursorAt(m[limit - 1]);
      NextCursor(t, c, cursor, limit);
      FollowChases(t, c, asked, next, n - 1);
      FollowStep(Still(t, n), c, asked, cursor, Page(m[..limit], true, next), Chase(Beneath(m, next), limit));
    } else {
      FollowStep(Still(t, n), c, asked, cursor, Page(m, false, First), []);
    }
  }

  // ----- when nothing is lost

  /** Where the k-th page ends: k times the page size. */
  function Boundary(k: nat, limit: nat): nat {
    if k == 0 then 0 else limit + Boundary(k - 1, limit)
  }

  /** No page boundary falls between two rows with one key. */
  ghost predicate NoSplit(m: seq<Row>, limit: nat)
    requires limit > 0
  {
    forall k: nat :: 0 < Boundary(k, limit) < |m| ==> !SamePosition(m[Boundary(k, limit) - 1], m[Boundary(k, limit)])
  }

  /** Below a page that does not end in a tie lies the rest of the listing. */
  lemma NextPage(m: seq<Row>, limit: nat)
    requires WeaklyDescending(m) && 0 < limit < |m| && !SamePosition(m[limit - 1], m[limit])
    ensures Beneath(m, CursorAt(m[limit - 1])) == m[limit..]
  {
    var last := m[limit - 1];
    var cursor := CursorAt(last);
    forall r | r in m[..limit] ensures !Past(r, cursor) {
      var i :| 0 <= i < limit && m[i] == r;
      if i == limit - 1 { NotPastItself(r); }
    }
    forall r | r in m[limit..] ensures Past(r, cursor) {
      var i :| limit <= i < |m| && m[i] == r;
      AboveTotal(last, m[limit]);
      if i > limit { StrictlyBelow(last, m[limit], m[i]); }
    }
    assert m == m[..limit] + m[limit..];
    BeneathNone(m[..limit], m[limit..], cursor);
    BeneathAll(m[limit..], cursor);
  }

  lemma StrictlyBelow(r: Row, s: Row, t: Row)
    requires Above(r, s) && !Above(t, s)
    ensures Above(r, t)
  {
    AboveTotal(s, t);
    if Above(s, t) { AboveTransitive(r, s, t); }
  }

  /** A page that ends in a tie loses a row. */
  lemma TiedRowIsLost(m: seq<Row>, limit: nat)
    requires WeaklyDescending(m) && 0 < limit < |m| && SamePosition(m[limit - 1], m[limit])
    ensures |Beneath(m, CursorAt(m[limit - 1]))| < |m| - limit
  {
    var cursor := CursorAt(m[limit - 1]);
    forall r | r in m[..limit + 1] ensures !Past(r, cursor) {
      var i :| 0 <= i < limit + 1 && m[i] == r;
      NotPastItself(m[limit - 1]);
      if i < limit - 1 { assert !Above(m[limit - 1], m[i]); }
    }
    assert m == m[..limit + 1] + m[limit + 1..];
    BeneathNone(m[..limit + 1], m[limit + 1..], cursor);
    BeneathMembers(m[limit + 1..], cursor);
  }

  lemma {:induction false} BeneathWeak(m: seq<Row>, cursor: Cursor)
    requires WeaklyDescending(m)
    ensures WeaklyDescending(Beneath(m, cursor))
    decreases |m|
  {
    if m != [] {
      assert m == [m[0]] + m[1..];
      BeneathWeak(m[1..], cursor);
      BeneathMembers(m[1..], cursor);
      if Past(m[0], cursor) { FrontWeak(m[0], Beneath(m[1..], cursor)); }
    }
  }

  lemma {:induction false} ChaseFits(m: seq<Row>, limit: nat)
    requires limit > 0 && WeaklyDescending(m)
    ensures |Chase(m, limit)| <= |m|
    decreases |m|
  {
    if |m| > limit {
      var cursor := CursorAt(m[limit - 1]);
      NotPastItself(m[limit - 1]);
      BeneathMembers(m, cursor);
      BeneathWeak(m, cursor);
      if SamePosition(m[limit - 1], m[limit]) { TiedRowIsLost(m, limit); } else { NextPage(m, limit); }
      ChaseFits(Beneath(m, cursor), limit);
    }
  }

  /** Following the cursors yields the listing exactly if no page ends in a tie, and loses rows otherwise. */
  lemma {:induction false} ChaseExactly(m: seq<Row>, limit: nat)
    requires limit > 0 && WeaklyDescending(m)
    ensures NoSplit(m, limit) ==> Chase(m, limit) == m
    ensures !NoSplit(m, limit) ==> |Chase(m, limit)| < |m|
    decreases |m|
  {
    if |m| <= limit {
      OnePage(m, limit);
    } else if SamePosition(m[limit - 1], m[limit]) {
      FirstTieLoses(m, limit);
    } else {
      NextPage(m, limit);
      SplitsLater(m, limit);
      RestDescends(m, limit);
      ChaseExactly(m[limit..], limit);
      assert m == m[..limit] + m[limit..];
    }
  }

  lemma RestDescends(m: seq<Row>, n: nat)
    requires WeaklyDescending(m) && n <= |m|
    ensures WeaklyDescending(m[n..])
  {
  }

  lemma FirstTieLoses(m: seq<Row>, limit: nat)
    requires WeaklyDescending(m) && 0 < limit < |m| && SamePosition(m[limit - 1], m[limit])
    ensures !NoSplit(m, limit) && |Chase(m, limit)| < |m|
  {
    var cursor := CursorAt(m[limit - 1]);
    TiedRowIsLost(m, limit);
    BeneathWeak(m, cursor);
    ChaseFits(Beneath(m, cursor), limit);
    assert Boundary(0, limit) == 0 && Boundary(1, limit) == limit;
  }

  lemma {:induction false} BoundaryGrows(k: nat, limit: nat)
    requires limit > 0 && k > 0
    ensures Boundary(k, limit) >= limit
  {
  }

  lemma OnePage(m: seq<Row>, limit: nat)
    requires 0 < limit && |m| <= limit
    ensures NoSplit(m, limit)
  {
    forall k: nat | 0 < Boundary(k, limit) ensures Boundary(k, limit) >= |m| { BoundaryGrows(k, limit); }
  }

  lemma SplitsLater(m: seq<Row>, limit: nat)
    requires 0 < limit < |m| && !SamePosition(m[limit - 1], m[limit])
    ensures NoSplit(m, limit) <==> NoSplit(m[limit..], limit)
  {
    var rest := m[limit..];
    if NoSplit(m, limit) {
      forall k: nat | 0 < Boundary(k, limit) < |rest| ensures !SamePosition(rest[Boundary(k, limit) - 1], rest[Boundary(k, limit)]) {
        assert Boundary(k + 1, limit) == limit + Boundary(k, limit);
        assert rest[Boundary(k, limit)] == m[Boundary(k + 1, limit)] && rest[Boundary(k, limit) - 1] == m[Boundary(k + 1, limit) - 1];
      }
    }
    if NoSplit(rest, limit) {
      forall k: nat | 0 < Boundary(k, limit) < |m| ensures !SamePosition(m[Boundary(k, limit) - 1], m[Boundary(k, limit)]) {
        BoundaryGrows(k, limit);
        assert Boundary(k, limit) == limit + Boundary(k - 1, limit);
        if Boundary(k - 1, limit) > 0 {
          assert rest[Boundary(k - 1, limit)] == m[Boundary(k, limit)] && rest[Boundary(k - 1, limit) - 1] == m[Boundary(k, limit) - 1];
        }
      }
    }
  }

  /** Every visible row, as often as it is stored, in descending order. */
  ghost predicate FullListing(out: seq<Row>, t: Table, c: Caller) {
    WeaklyDescending(out) && multiset(out) == multiset(Select(All(t), c, First))
  }

  /** Following the cursors from the start of an unchanging table ends, with every visible payment listed. */
  ghost predicate Complete(t: Table, c: Caller, asked: int, n: nat) {
    Follow(Still(t, n), c, asked, First).Some? && FullListing(Follow(Still(t, n), c, asked, First).value, t, c)
  }

  /** The walk always ends; it lists every visible payment exactly once in descending order if and only if no page
      boundary falls between two payments with one creation date and id. */
  lemma CompleteExactlyWithoutSplitTies(t: Table, c: Caller, asked: int, n: nat)
    requires Regular(All(t), c) && n > |All(t)|
    ensures Follow(Still(t, n), c, asked, First).Some?
    ensures Complete(t, c, asked, n) <==> NoSplit(Matching(t, c, First), Limit(asked))
  {
    var m := Matching(t, c, First);
    MatchingFits(All(t), c, First);
    FollowChases(t, c, asked, First, n);
    SortWeak(Select(All(t), c, First));
    ChaseExactly(m, Limit(asked));
    if !NoSplit(m, Limit(asked)) {
      assert |multiset(Chase(m, Limit(asked)))| < |multiset(m)|;
    }
  }

  lemma AdjacentTies(m: seq<Row>, i: nat, j: nat)
    requires WeaklyDescending(m) && i < j < |m| && SamePosition(m[i], m[j])
    ensures SamePosition(m[j - 1], m[j])
  {
    AboveTotal(m[j - 1], m[j]);
    assert i < j - 1 ==> !Above(m[j - 1], m[i]);
  }

  /** So the walk is complete for every page size if and only if no two visible payments share date and id. */
  lemma CompleteForEveryPageSizeExactly(t: Table, c: Caller, n: nat)
    requires Regular(All(t), c) && n > |All(t)|
    ensures (forall asked: int :: Complete(t, c, asked, n)) <==> Distinct(Matching(t, c, First))
  {
    var m := Matching(t, c, First);
    SortWeak(Select(All(t), c, First));
    forall asked: int ensures Complete(t, c, asked, n) <==> NoSplit(m, Limit(asked)) {
      CompleteExactlyWithoutSplitTies(t, c, asked, n);
    }
    assert Complete(t, c, 1, n) <==> NoSplit(m, Limit(1));
    if NoSplit(m, Limit(1)) { SinglesAreDistinct(m); }
  }

  lemma {:induction false} Ones(k: nat)
    ensures Boundary(k, 1) == k
  {
    if k > 0 { Ones(k - 1); }
  }

  lemma SinglesAreDistinct(m: seq<Row>)
    requires WeaklyDescending(m) && NoSplit(m, 1)
    ensures Distinct(m)
  {
    forall i, j | 0 <= i < j < |m| ensures !SamePosition(m[i], m[j]) {
      Ones(j);
      if SamePosition(m[i], m[j]) { AdjacentTies(m, i, j); }
    }
  }

  lemma {:induction false} InsertLength(r: Row, sorted: seq<Row>)
    ensures |Insert(r, sorted)| == |sorted| + 1
    decreases |sorted|
  {
    if sorted != [] { InsertLength(r, sorted[1..]); }
  }

  lemma {:induction false} MatchingFits(rows: seq<Row>, c: Caller, cursor: Cursor)
    ensures |Sort(Select(rows, c, cursor))| <= |rows|
    decreases |rows|
  {
    if rows != [] {
      MatchingFits(rows[1..], c, cursor);
      var rest := Select(rows[1..], c, cursor);
      assert ([rows[0]] + rest)[1..] == rest;
      InsertLength(rows[0], Sort(rest));
    }
  }

  /** Such a tie is not merely out of order: with pages of one row, the V1 payment is never shown. */
  lemma EqualKeysAreSkipped()
    ensures var v2, v1 := Row(7, "p", "a", "m", "v2"), Row(7, "p", "a", "m", "v1");
            Follow(Still(Table([v2], [v1]), 3), Caller("a", "m"), 1, First) == Some([v2])
  {
    var v2, v1, c := Row(7, "p", "a", "m", "v2"), Row(7, "p", "a", "m", "v1"), Caller("a", "m");
    var t := Table([v2], [v1]);
    var cursor := After(7, "p");
    LessIrreflexive("p");
    assert All(t) == [v2, v1] && [v2, v1][1..] == [v1];
    assert Sort([v1]) == [v1];
    assert Select([v1], c, First) == [v1] && Select([v1], c, cursor) == [];
    assert Select([v2, v1], c, First) == [v2, v1];
    assert Sort([v2, v1]) == [v2, v1];
    assert PageOf(t, c, 1, First) == Ok(Page([v2], true, cursor));
    assert PageOf(t, c, 1, cursor) == Ok(Page([], false, First));
    var s := Still(t, 3);
    assert s[0] == t && s[1..][0] == t;
    assert Follow(s[1..], c, 1, cursor) == Some([]);
    assert PageOf(s[0], c, 1, First) == Ok(Page([v2], true, cursor)) && [v2] + [] == [v2];
  }

  // ----- the in-memory listing

  /** A descending sequence is determined by its rows. */
  lemma {:induction false} DescendingUnique(a: seq<Row>, b: seq<Row>)
    requires Descending(a) && Descending(b) && forall r :: r in a <==> r in b
    ensures a == b
  {
    assert b != [] ==> b[0] in a;
    if a != [] {
      assert a[0] in b && b[0] in a;
      Topmost(a);
      Topmost(b);
      AboveTotal(a[0], b[0]);
      AboveTotal(b[0], a[0]);
      DescendingUnique(a[1..], b[1..]);
      assert a == [a[0]] + a[1..] && b == [b[0]] + b[1..];
    }
  }

  lemma Topmost(a: seq<Row>)
    requires Descending(a) && a != []
    ensures forall r :: r in a ==> r == a[0] || Above(a[0], r)
    ensures forall r :: r in a[1..] <==> r in a && r != a[0]
  {
    AboveTotal(a[0], a[0]);
    assert a == [a[0]] + a[1..];
    assert forall i :: 0 <= i < |a[1..]| ==> a[1..][i] == a[i + 1];
  }

  /** rows lists the values of the map, each once, in some order. */
  ghost predicate Enumerates(rows: seq<Row>, payments: map<string, Row>) {
    && Distinct(rows)
    && forall r :: r in rows <==> r.id in payments && payments[r.id] == r
  }

  /** The visible rows among the ids met so far. */
  ghost predicate Gathered(items: seq<Row>, payments: map<string, Row>, rest: set<string>, c: Caller) {
    && Distinct(items)
    && (forall r :: r in items <==> r.id in payments && r.id !in rest && payments[r.id] == r && Visible(r, c))
  }

  lemma GatherOne(items: seq<Row>, payments: map<string, Row>, rest: set<string>, c: Caller, id: string)
    requires Gathered(items, payments, rest, c) && id in rest && id in payments && payments[id].id == id
    ensures Gathered(if Visible(payments[id], c) then items + [payments[id]] else items, payments, rest - {id}, c)
  {
    var more := items + [payments[id]];
    forall i, j | 0 <= i < j < |more| ensures !SamePosition(more[i], more[j]) {
      assert more[i] in items;
      assert j < |items| ==> more[j] == items[j];
    }
  }

  lemma SortedIsMatching(items: seq<Row>, payments: map<string, Row>, c: Caller, rows: seq<Row>)
    requires Gathered(items, payments, {}, c) && Enumerates(rows, payments)
    ensures Sort(items) == Matching(Table(rows, []), c, First)
  {
    assert All(Table(rows, [])) == rows;
    SortExact(items);
    MatchingStrict(Table(rows, []), c, First);
    DescendingUnique(Sort(items), Matching(Table(rows, []), c, First));
  }

  /** The in-memory List: the first page of the SQL listing of the same payments, whatever order the map is
      walked in, except that it ignores the cursor and hands out none. */
  method ListInMemory(payments: map<string, Row>, c: Caller, asked: int) returns (p: Page)
    requires forall id :: id in payments ==> payments[id].id == id
    ensures p.next == First && Descending(p.items)
    ensures forall r :: r in p.items ==> r.id in payments && payments[r.id] == r && Visible(r, c)
    ensures !p.hasMore ==> forall id :: id in payments && Visible(payments[id], c) ==> payments[id] in p.items
    ensures forall rows :: Enumerates(rows, payments) ==>
              var sql := PageOf(Table(rows, []), c, asked, First).value;
              p.items == sql.items && p.hasMore == sql.hasMore
  {
    var limit := asked;
    if limit <= 0 || limit > 100 {
      limit := 50;
    }
    var items: seq<Row>, rest := [], payments.Keys;
    while rest != {}
      invariant rest <= payments.Keys && Gathered(items, payments, rest, c)
      decreases |rest|
    {
      var id :| id in rest;
      GatherOne(items, payments, rest, c, id);
      if Visible(payments[id], c) {
        items := items + [payments[id]];
      }
      rest := rest - {id};
    }
    SortExact(items);
    forall rows | Enumerates(rows, payments) ensures Sort(items) == Matching(Table(rows, []), c, First) {
      SortedIsMatching(items, payments, c, rows);
    }
    items := Sort(items);
    var hasMore := |items| > limit;
    if hasMore {
      items := items[..limit];
    }
    return Page(items, hasMore, First);
  }
}
