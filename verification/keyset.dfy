/**
 * Keyset pagination (backend/internal/repository/repository.go): one page is the
 * first rows after the cursor in (key, id) order, with a look-ahead row.
 */
module Keyset {
  import opened Basics
  import opened Cursors

  /** A row as the list query sees it: its id and the value of the resolved sort column. */
  datatype Row = Row(id: int, key: int)

  /** The list request once the sort column is resolved. */
  datatype Query = Query(cursor: Cursor, limit: nat, sortCol: string, col: ColumnKind, dir: Dir)

  datatype Meta = Meta(nextCursor: Cursor, hasMore: bool, limit: nat, returned: nat, total: nat)

  datatype Page = Page(rows: seq<Row>, meta: Meta)

  datatype ListError = InvalidCursor | BadSql

  // ---- The order ----------------------------------------------------------

  predicate Past(dir: Dir, key: int, id: int, r: Row) {
    if dir.Desc? then r.key < key || (r.key == key && r.id < id)
    else r.key > key || (r.key == key && r.id > id)
  }

  predicate Before(dir: Dir, a: Row, b: Row) {
    Past(dir, a.key, a.id, b)
  }

  ghost predicate Ordered(dir: Dir, rows: seq<Row>) {
    forall i, j :: 0 <= i < j < |rows| ==> Before(dir, rows[i], rows[j])
  }

  lemma LeastExists(dir: Dir, s: set<Row>)
    requires s != {}
    ensures exists m :: m in s && forall r :: r in s ==> r == m || Before(dir, m, r)
  {
    var x :| x in s;
    if s != {x} {
      var rest := s - {x};
      assert s == rest + {x};
      LeastExists(dir, rest);
      var m :| m in rest && forall r :: r in rest ==> r == m || Before(dir, m, r);
      var least := if Before(dir, x, m) then x else m;
      assert least in s && forall r :: r in s ==> r == least || Before(dir, least, r);
    } else {
      assert forall r :: r in s ==> r == x;
    }
  }

  function Least(dir: Dir, s: set<Row>): (m: Row)
    requires s != {}
    ensures m in s && forall r :: r in s ==> r == m || Before(dir, m, r)
  {
    LeastExists(dir, s);
    var m :| m in s && forall r :: r in s ==> r == m || Before(dir, m, r);
    m
  }

  /** ORDER BY (key, id) LIMIT n. */
  function First(dir: Dir, s: set<Row>, n: nat): seq<Row>
    decreases n
  {
    if n == 0 || s == {} then [] else
      var m := Least(dir, s);
      [m] + First(dir, s - {m}, n - 1)
  }

  function Elements(rows: seq<Row>): set<Row> {
    set i | 0 <= i < |rows| :: rows[i]
  }

  /** The whole table sorted: what paging replaces. */
  function Sorted(dir: Dir, s: set<Row>): seq<Row> {
    First(dir, s, |s|)
  }

  lemma {:induction false} FirstIsOrderedPrefix(dir: Dir, s: set<Row>, n: nat)
    ensures |First(dir, s, n)| == Min(n, |s|)
    ensures Elements(First(dir, s, n)) <= s
    ensures Ordered(dir, First(dir, s, n))
    ensures forall r, x :: r in s && r !in First(dir, s, n) && x in First(dir, s, n) ==> Before(dir, x, r)
    decreases n
  {
    if n > 0 && s != {} {
      var m := Least(dir, s);
      var rest := First(dir, s - {m}, n - 1);
      FirstIsOrderedPrefix(dir, s - {m}, n - 1);
      ElementsCons(m, rest);
      assert forall i :: 0 <= i < |rest| ==> rest[i] in Elements(rest);
      forall i | 0 <= i < |rest| ensures Before(dir, m, rest[i]) {
        assert rest[i] in s - {m};
      }
      forall r, x | r in s && r !in [m] + rest && x in [m] + rest ensures Before(dir, x, r) {
        assert r in s - {m};
      }
    }
  }

  /** In an ascending listing both the key and, within a key, the id ascend; in a descending one both descend. */
  lemma FirstIsSorted(dir: Dir, s: set<Row>, n: nat, i: nat, j: nat)
    requires i < j < |First(dir, s, n)|
    ensures var a, b := First(dir, s, n)[i], First(dir, s, n)[j];
      && (dir == Asc ==> a.key < b.key || (a.key == b.key && a.id < b.id))
      && (dir == Desc ==> a.key > b.key || (a.key == b.key && a.id > b.id))
  {
    FirstIsOrderedPrefix(dir, s, n);
    hide First;
    assert Before(dir, First(dir, s, n)[i], First(dir, s, n)[j]);
  }

  lemma ElementsCons(m: Row, rows: seq<Row>)
    ensures Elements([m] + rows) == {m} + Elements(rows)
  {
    var all := [m] + rows;
    assert all[0] == m;
    assert forall i :: 0 <= i < |rows| ==> all[i + 1] == rows[i];
  }

  lemma {:induction false} FirstSplits(dir: Dir, s: set<Row>, a: nat, b: nat)
    ensures First(dir, s, a + b) == First(dir, s, a) + First(dir, s - Elements(First(dir, s, a)), b)
    decreases a
  {
    hide Before;
    if a == 0 {
      assert s - Elements([]) == s;
    } else if s != {} {
      var m := Least(dir, s);
      hide Least;
      var head := First(dir, s - {m}, a - 1);
      FirstSplits(dir, s - {m}, a - 1, b);
      ElementsCons(m, head);
      assert s - Elements([m] + head) == s - {m} - Elements(head);
    }
  }

  /** A LIMIT query returns a prefix of the sorted table. */
  lemma FirstIsSortedPrefix(dir: Dir, s: set<Row>, n: nat)
    ensures |First(dir, s, n)| == Min(n, |s|) && |Sorted(dir, s)| == |s|
    ensures First(dir, s, n) == Sorted(dir, s)[..Min(n, |s|)]
  {
    FirstIsOrderedPrefix(dir, s, n);
    FirstIsOrderedPrefix(dir, s, |s|);
    var k := Min(n, |s|);
    SplitPrefix(dir, s, k, |s| - k);
    SplitPrefix(dir, s, k, n - k);
  }

  lemma SplitPrefix(dir: Dir, s: set<Row>, k: nat, more: nat)
    requires k <= |s|
    ensures |First(dir, s, k)| == k && |First(dir, s, k + more)| >= k
    ensures First(dir, s, k + more)[..k] == First(dir, s, k)
  {
    FirstSplits(dir, s, k, more);
    FirstIsOrderedPrefix(dir, s, k);
  }

  lemma SortedElements(dir: Dir, s: set<Row>)
    ensures |Sorted(dir, s)| == |s| && Ordered(dir, Sorted(dir, s))
    ensures Elements(Sorted(dir, s)) == s
  {
    var rows := Sorted(dir, s);
    FirstIsOrderedPrefix(dir, s, |s|);
    ElementsSize(dir, rows);
    SubsetOfSameSize(Elements(rows), s);
  }

  lemma {:induction false} ElementsSize(dir: Dir, rows: seq<Row>)
    requires Ordered(dir, rows)
    ensures |Elements(rows)| == |rows|
  {
    if rows != [] {
      var k := |rows| - 1;
      var front := rows[..k];
      ElementsSize(dir, front);
      assert Elements(rows) == Elements(front) + {rows[k]};
      assert rows[k] !in Elements(front);
    }
  }

  lemma SubsetOfSameSize<T>(a: set<T>, b: set<T>)
    requires a <= b && |a| == |b|
    ensures a == b
  {
    assert b == a + (b - a);
    assert |b| == |a| + |b - a|;
  }

  // ---- One page -----------------------------------------------------------

  /** The rows a cursor leaves to be listed. */
  function Remaining(s: set<Row>, q: Query): set<Row> {
    if q.cursor.Token? then set r | r in s && Past(q.dir, Value(q.cursor.cv), q.cursor.cv.id, r) else s
  }

  function NextCursor(q: Query, last: Row): Cursor {
    Token(EncodeCursor(q.col, last.key, last.id))
  }

  /** Cuts the look-ahead row off and says whether it was there. */
  function PageOf(q: Query, rows: seq<Row>, total: nat): Page
    requires q.limit >= 1
  {
    if |rows| > q.limit
    then Page(rows[..q.limit], Meta(NextCursor(q, rows[q.limit - 1]), true, q.limit, q.limit, total))
    else Page(rows, Meta(NoCursor, false, q.limit, |rows|, total))
  }

  /** What one list call answers over the rows s that match its filters. */
  function ListPage(s: set<Row>, q: Query): Result<Page, ListError>
    requires q.limit >= 1
  {
    if q.cursor.Malformed? then Err(InvalidCursor)
    else if q.cursor.Token? && q.sortCol == "id" then Err(BadSql)
    else Ok(PageOf(q, First(q.dir, Remaining(s, q), q.limit + 1), |s|))
  }

  /** Scopes, filters by client key, and the alternatives of the keyword search. */
  datatype Criteria = Criteria(
    scopes: seq<Row -> bool>, filters: seq<(string, Row -> bool)>, search: seq<Row -> bool>)

  predicate Matches(filterMap: set<string>, c: Criteria, r: Row) {
    && (forall i :: 0 <= i < |c.scopes| ==> c.scopes[i](r))
    && (forall i :: 0 <= i < |c.filters| && c.filters[i].0 in filterMap ==> c.filters[i].1(r))
    && (c.search == [] || exists i :: 0 <= i < |c.search| && c.search[i](r))
  }

  function Matching(table: set<Row>, filterMap: set<string>, c: Criteria): set<Row> {
    set r | r in table && Matches(filterMap, c, r)
  }

  class Repo {
    var table: set<Row>
    const sortMap: map<string, string>
    const filterMap: set<string>

    constructor (sortMap: map<string, string>, filterMap: set<string>)
      ensures this.sortMap == sortMap["id" := if "id" in sortMap then sortMap["id"] else "id"]
      ensures this.filterMap == filterMap && table == {}
    {
      this.sortMap := if "id" in sortMap then sortMap else sortMap["id" := "id"];
      this.filterMap := filterMap;
      table := {};
    }

    function ResolveSort(sortBy: string): string {
      if sortBy in sortMap then sortMap[sortBy] else "created_at"
    }

    /** Narrows the query scope by scope, filter by filter, then by the search. */
    method BaseQuery(c: Criteria) returns (tx: set<Row>)
      ensures tx == Matching(table, filterMap, c)
      ensures forall r :: r in tx <==> (
        && r in table && (forall k :: 0 <= k < |c.scopes| ==> c.scopes[k](r))
        && (forall k :: 0 <= k < |c.filters| && c.filters[k].0 in filterMap ==> c.filters[k].1(r))
        && (c.search == [] || exists k :: 0 <= k < |c.search| && c.search[k](r)))
    {
      tx := table;
      for i := 0 to |c.scopes|
        invariant forall r :: r in tx <==> (r in table && forall k :: 0 <= k < i ==> c.scopes[k](r))
      {
        tx := set r | r in tx && c.scopes[i](r);
      }
      for i := 0 to |c.filters|
        invariant forall r :: r in tx <==> (
          && r in table
          && (forall k :: 0 <= k < |c.scopes| ==> c.scopes[k](r))
          && (forall k :: 0 <= k < i && c.filters[k].0 in filterMap ==> c.filters[k].1(r)))
      {
        if c.filters[i].0 !in filterMap {
          continue;
        }
        tx := set r | r in tx && c.filters[i].1(r);
      }
      if |c.search| > 0 {
        var hits: set<Row> := {};
        for i := 0 to |c.search|
          invariant forall r :: r in hits <==> (r in tx && exists k :: 0 <= k < i && c.search[k](r))
        {
          hits := hits + set r | r in tx && c.search[i](r);
        }
        tx := hits;
      }
    }

    method BuildMeta(rows: seq<Row>, q: Query, total: nat) returns (meta: Meta)
      requires q.limit >= 1
      ensures meta.hasMore <==> |rows| > q.limit
      ensures meta.limit == q.limit && meta.total == total && meta.returned == Min(|rows|, q.limit)
      ensures meta.nextCursor == if meta.hasMore then NextCursor(q, rows[q.limit - 1]) else NoCursor
    {
      var hasMore := |rows| > q.limit;
      meta := Meta(NoCursor, false, q.limit, 0, 0);
      if hasMore {
        var last := rows[q.limit - 1];
        meta := meta.(hasMore := true, returned := q.limit, nextCursor := NextCursor(q, last));
      } else {
        meta := meta.(returned := |rows|);
      }
      meta := meta.(total := total);
    }

    method List(cursor: Cursor, limit: nat, sortBy: string, col: ColumnKind, dir: Dir, c: Criteria)
      returns (r: Result<Page, ListError>)
      requires limit >= 1
      ensures r == ListPage(Matching(table, filterMap, c), Query(cursor, limit, ResolveSort(sortBy), col, dir))
      ensures ResolveSort(sortBy) == if sortBy in sortMap then sortMap[sortBy] else "created_at"
      ensures r == Err(InvalidCursor) <==> cursor.Malformed?
      ensures r == Err(BadSql) <==> cursor.Token? && sortBy in sortMap && sortMap[sortBy] == "id"
      ensures r.Ok? ==> r.value.meta.total == |Matching(table, filterMap, c)| && r.value.meta.limit == limit
    {
      var tx := BaseQuery(c);
      var total := |tx|;
      var q := Query(cursor, limit, ResolveSort(sortBy), col, dir);
      match cursor {
        case NoCursor =>
        case Malformed => return Err(InvalidCursor);
        case Token(cv) =>
          if q.sortCol == "id" {
            return Err(BadSql);
          }
          tx := set row | row in tx && Past(dir, Value(cv), cv.id, row);
      }
      var rows := First(dir, tx, limit + 1);
      var meta := BuildMeta(rows, q, total);
      if meta.hasMore {
        rows := rows[..limit];
      }
      r := Ok(Page(rows, meta));
    }
  }

  // ---- Walks over a changing table ----------------------------------------

  /**
   * Follows NextCursor: the i-th page is fetched from the matching rows tables[i],
   * and the walk stops when a page has no more.
   */
  function Walk(tables: seq<set<Row>>, q: Query): seq<Page>
    requires q.limit >= 1 && q.sortCol != "id" && !q.cursor.Malformed?
  {
    if tables == [] then [] else
      var p := ListPage(tables[0], q).value;
      [p] + if p.meta.hasMore then Walk(tables[1..], q.(cursor := p.meta.nextCursor)) else []
  }

  function Rows(pages: seq<Page>): seq<Row> {
    if pages == [] then [] else pages[0].rows + Rows(pages[1..])
  }

  /** Every sort key of every snapshot survives the cursor. */
  ghost predicate ExactKeys(tables: seq<set<Row>>, q: Query) {
    forall i, r :: 0 <= i < |tables| && r in tables[i] ==> Exact(q.col, r.key)
  }

  /** The cursor of this row leaves, of these snapshots, the rows its own sort value would leave. */
  ghost predicate LeavesExactly(tables: seq<set<Row>>, q: Query, last: Row) {
    forall i, r :: 0 <= i < |tables| && r in tables[i] ==>
      (Past(q.dir, Value(EncodeCursor(q.col, last.key, last.id)), last.id, r) <==> Before(q.dir, last, r))
  }

  /** So does the cursor of each page's last row, for the snapshots the walk still comes to. */
  ghost predicate WalkExact(tables: seq<set<Row>>, q: Query)
    requires q.limit >= 1 && q.sortCol != "id" && !q.cursor.Malformed?
    decreases |tables|
  {
    tables != [] ==>
      var p := ListPage(tables[0], q).value;
      p.meta.hasMore ==>
        && LeavesExactly(tables[1..], q, p.rows[q.limit - 1])
        && WalkExact(tables[1..], q.(cursor := p.meta.nextCursor))
  }

  lemma {:induction false} ExactKeysWalkExact(tables: seq<set<Row>>, q: Query)
    requires q.limit >= 1 && q.sortCol != "id" && !q.cursor.Malformed? && ExactKeys(tables, q)
    ensures WalkExact(tables, q)
    decreases |tables|
  {
    if tables != [] {
      var p := ListPage(tables[0], q).value;
      PageShape(tables[0], q);
      if p.meta.hasMore {
        var last := p.rows[q.limit - 1];
        assert last in p.rows;
        CursorRoundTrip(q.col, last.key, last.id);
        ExactKeysWalkExact(tables[1..], q.(cursor := p.meta.nextCursor));
      }
    }
  }

  /** Ids are unique and a row's sort key never changes, across all snapshots. */
  ghost predicate StableIds(tables: seq<set<Row>>) {
    forall i, j, r, s :: 0 <= i < |tables| && 0 <= j < |tables| && r in tables[i] && s in tables[j] && r.id == s.id
      ==> r == s
  }

  ghost predicate PastCursor(q: Query, r: Row) {
    q.cursor.Token? ==> Past(q.dir, Value(q.cursor.cv), q.cursor.cv.id, r)
  }

  /** One page is ordered, comes from past the cursor, and leaves only later rows behind. */
  lemma PageShape(s: set<Row>, q: Query)
    requires q.limit >= 1 && q.sortCol != "id" && !q.cursor.Malformed?
    ensures var p := ListPage(s, q).value;
      && Ordered(q.dir, p.rows)
      && (forall x :: x in p.rows ==> x in s && PastCursor(q, x))
      && (forall x, r :: r in s && PastCursor(q, r) && r !in p.rows && x in p.rows ==> Before(q.dir, x, r))
      && (!p.meta.hasMore ==> forall r :: r in s && PastCursor(q, r) ==> r in p.rows)
      && (p.meta.hasMore ==> |p.rows| == q.limit && p.meta.nextCursor == NextCursor(q, p.rows[q.limit - 1]))
  {
    var rest := Remaining(s, q);
    assert forall r :: r in rest <==> r in s && PastCursor(q, r);
    FirstIsOrderedPrefix(q.dir, rest, q.limit + 1);
    CutShape(q, rest, First(q.dir, rest, q.limit + 1), |s|);
  }

  /** Without its look-ahead row a page still comes before everything it leaves out. */
  lemma CutShape(q: Query, rest: set<Row>, rows: seq<Row>, total: nat)
    requires q.limit >= 1 && Ordered(q.dir, rows) && Elements(rows) <= rest && |rows| == Min(q.limit + 1, |rest|)
    requires forall r, x :: r in rest && r !in rows && x in rows ==> Before(q.dir, x, r)
    ensures var p := PageOf(q, rows, total);
      && Ordered(q.dir, p.rows)
      && (forall x :: x in p.rows ==> x in rest)
      && (forall x, r :: r in rest && r !in p.rows && x in p.rows ==> Before(q.dir, x, r))
      && (!p.meta.hasMore ==> forall r :: r in rest ==> r in p.rows)
      && (p.meta.hasMore ==> |p.rows| == q.limit && p.meta.nextCursor == NextCursor(q, p.rows[q.limit - 1]))
  {
    assert forall x :: x in rows ==> x in Elements(rows);
    if |rows| > q.limit {
      var page := rows[..q.limit];
      forall x, r | r in rest && r !in page && x in page ensures Before(q.dir, x, r) {
        if r in rows {
          var i :| 0 <= i < |rows| && rows[i] == r;
          assert forall k :: 0 <= k < q.limit ==> rows[k] == page[k] && rows[k] in page;
          assert i == q.limit;
        }
      }
    } else {
      ElementsSize(q.dir, rows);
      SubsetOfSameSize(Elements(rows), rest);
    }
  }

  lemma PastOnward(q: Query, a: Row, b: Row)
    requires PastCursor(q, a) && Before(q.dir, a, b)
    ensures PastCursor(q, b)
  {
  }

  lemma OrderedConcat(dir: Dir, a: seq<Row>, b: seq<Row>)
    requires Ordered(dir, a) && Ordered(dir, b) && a != []
    requires forall x :: x in b ==> Before(dir, a[|a| - 1], x)
    ensures Ordered(dir, a + b)
  {
    forall i, j | 0 <= i < j < |a + b| ensures Before(dir, (a + b)[i], (a + b)[j]) {
      if i < |a| <= j {
        assert (a + b)[j] in b;
        assert i == |a| - 1 || Before(dir, a[i], a[|a| - 1]);
      }
    }
  }

  /** A walk lists its first page, then what the walk from that page's cursor lists. */
  lemma WalkSplits(tables: seq<set<Row>>, q: Query)
    requires q.limit >= 1 && q.sortCol != "id" && !q.cursor.Malformed? && tables != []
    ensures ListPage(tables[0], q).Ok?
    ensures var p := ListPage(tables[0], q).value; var next := q.(cursor := p.meta.nextCursor);
      Rows(Walk(tables, q)) == if p.meta.hasMore then p.rows + Rows(Walk(tables[1..], next)) else p.rows
  {
    hide First;
    var p := ListPage(tables[0], q).value;
    var pages := Walk(tables, q);
    var next := q.(cursor := p.meta.nextCursor);
    assert pages[0] == p && pages[1..] == if p.meta.hasMore then Walk(tables[1..], next) else [];
    assert p.rows + [] == p.rows;
  }

  lemma {:induction false} WalkOrdered(tables: seq<set<Row>>, q: Query)
    requires q.limit >= 1 && q.sortCol != "id" && !q.cursor.Malformed?
    requires WalkExact(tables, q)
    ensures Ordered(q.dir, Rows(Walk(tables, q)))
    ensures forall x :: x in Rows(Walk(tables, q)) ==> PastCursor(q, x)
    ensures forall x :: x in Rows(Walk(tables, q)) ==> exists i :: 0 <= i < |tables| && x in tables[i]
    decreases |tables|
  {
    if tables != [] {
      WalkSplits(tables, q);
      PageShape(tables[0], q);
      hide First, Least, Elements, ListPage, Past, Walk, Rows;
      var p := ListPage(tables[0], q).value;
      if p.meta.hasMore {
        var next := q.(cursor := p.meta.nextCursor);
        var last := p.rows[q.limit - 1];
        assert last in p.rows && EncodeCursor(q.col, last.key, last.id).id == last.id;
        WalkOrdered(tables[1..], next);
        var tail := Rows(Walk(tables[1..], next));
        forall x | x in tail
          ensures Before(q.dir, last, x) && PastCursor(q, x) && exists i :: 0 <= i < |tables| && x in tables[i]
        {
          var i :| 0 <= i < |tables[1..]| && x in tables[1..][i];
          assert x in tables[i + 1];
          assert PastCursor(next, x);
          PastOnward(q, last, x);
        }
        OrderedConcat(q.dir, p.rows, tail);
      }
    } else {
      assert Rows(Walk(tables, q)) == [];
    }
  }

  /** Main result: whatever is inserted or deleted between fetches, no id is listed twice. */
  lemma WalkNeverRepeats(tables: seq<set<Row>>, q: Query, i: nat, j: nat)
    requires q.limit >= 1 && q.sortCol != "id" && !q.cursor.Malformed?
    requires WalkExact(tables, q) && StableIds(tables)
    requires i < j < |Rows(Walk(tables, q))|
    ensures Rows(Walk(tables, q))[i].id != Rows(Walk(tables, q))[j].id
  {
    WalkOrdered(tables, q);
    var rows := Rows(Walk(tables, q));
    var a, b := rows[i], rows[j];
    assert a in rows && b in rows;
    assert Before(q.dir, a, b);
    var k :| 0 <= k < |tables| && a in tables[k];
    var l :| 0 <= l < |tables| && b in tables[l];
  }

  /** Main result: a finished walk has listed every row that was there all along. */
  lemma {:induction false} WalkMissesNothing(tables: seq<set<Row>>, q: Query, r: Row)
    requires q.limit >= 1 && q.sortCol != "id" && !q.cursor.Malformed?
    requires WalkExact(tables, q)
    requires var pages := Walk(tables, q); pages != [] && !pages[|pages| - 1].meta.hasMore
    requires forall i :: 0 <= i < |Walk(tables, q)| && i < |tables| ==> r in tables[i]
    requires PastCursor(q, r)
    ensures r in Rows(Walk(tables, q))
    decreases |tables|
  {
    var p := ListPage(tables[0], q).value;
    PageShape(tables[0], q);
    var pages := Walk(tables, q);
    assert r in tables[0];
    if p.meta.hasMore {
      var next := q.(cursor := p.meta.nextCursor);
      assert pages[1..] == Walk(tables[1..], next);
      if r !in p.rows {
        var last := p.rows[q.limit - 1];
        assert last in p.rows && EncodeCursor(q.col, last.key, last.id).id == last.id;
        assert Before(q.dir, last, r);
        assert Walk(tables[1..], next) != [];
        forall i | 0 <= i < |Walk(tables[1..], next)| && i < |tables[1..]| ensures r in tables[1..][i] {
          assert tables[1..][i] == tables[i + 1];
        }
        WalkMissesNothing(tables[1..], next, r);
      }
    } else {
      assert pages[1..] == [];
    }
  }

  // ---- Walks over a frozen table ------------------------------------------

  function CeilDiv(n: nat, limit: nat): nat
    requires limit >= 1
  {
    (n + limit - 1) / limit
  }

  /** Number of pages a table of n rows is cut into. */
  function PageCount(n: nat, limit: nat): (pages: nat)
    requires limit >= 1
    ensures pages >= 1
  {
    Max(1, CeilDiv(n, limit))
  }

  /** The cursor of the page that starts after the first j rows. */
  function CursorAfter(s: set<Row>, q: Query, j: nat): (c: Cursor)
    requires j <= |s|
    ensures (c.NoCursor? <==> j == 0) && !c.Malformed?
  {
    FirstIsSortedPrefix(q.dir, s, 0);
    if j == 0 then NoCursor else NextCursor(q, Sorted(q.dir, s)[j - 1])
  }

  ghost predicate ExactTable(s: set<Row>, q: Query) {
    forall r :: r in s ==> Exact(q.col, r.key)
  }

  /** The cursor of row j - 1 leaves the rows that the row's own sort value would leave. */
  ghost predicate CutsExactly(s: set<Row>, q: Query, j: nat)
    requires j <= |s|
  {
    FirstIsSortedPrefix(q.dir, s, 0);
    j > 0 ==>
      var last := Sorted(q.dir, s)[j - 1];
      forall r :: r in s ==>
        (Past(q.dir, Value(EncodeCursor(q.col, last.key, last.id)), last.id, r) <==> Before(q.dir, last, r))
  }

  /** So does the cursor at every page boundary from row j on. */
  ghost predicate BoundariesExact(s: set<Row>, q: Query, j: nat)
    requires j <= |s| && q.limit >= 1
    decreases |s| - j
  {
    CutsExactly(s, q, j) && (j + q.limit < |s| ==> BoundariesExact(s, q, j + q.limit))
  }

  lemma ExactTableCuts(s: set<Row>, q: Query, j: nat)
    requires j <= |s| && ExactTable(s, q)
    ensures CutsExactly(s, q, j)
  {
    SortedElements(q.dir, s);
    if j > 0 {
      var last := Sorted(q.dir, s)[j - 1];
      assert last in Elements(Sorted(q.dir, s));
      CursorRoundTrip(q.col, last.key, last.id);
    }
  }

  lemma {:induction false} ExactTableBoundaries(s: set<Row>, q: Query, j: nat)
    requires j <= |s| && q.limit >= 1 && ExactTable(s, q)
    ensures BoundariesExact(s, q, j)
    decreases |s| - j
  {
    hide CutsExactly, ExactTable;
    ExactTableCuts(s, q, j);
    if j + q.limit < |s| { ExactTableBoundaries(s, q, j + q.limit); }
  }

  lemma RemainingAfter(s: set<Row>, q: Query, j: nat)
    requires j <= |s| && CutsExactly(s, q, j)
    ensures Remaining(s, q.(cursor := CursorAfter(s, q, j))) == s - Elements(First(q.dir, s, j))
  {
    if j == 0 {
      assert Elements(First(q.dir, s, 0)) == {};
    } else {
      TailSet(s, q.dir, j);
      hide First, Elements, Past;
      var last := Sorted(q.dir, s)[j - 1];
      assert EncodeCursor(q.col, last.key, last.id).id == last.id;
    }
  }

  /** The rows after row j - 1 of the sorted table are those the first j leave. */
  lemma TailSet(s: set<Row>, dir: Dir, j: nat)
    requires 0 < j <= |s|
    ensures |Sorted(dir, s)| == |s|
    ensures (set r | r in s && Before(dir, Sorted(dir, s)[j - 1], r)) == s - Elements(First(dir, s, j))
  {
    SortedElements(dir, s);
    FirstIsSortedPrefix(dir, s, j);
    hide First, Past;
    var rows := Sorted(dir, s);
    forall r | r in s ensures Before(dir, rows[j - 1], r) <==> r !in Elements(rows[..j]) {
      PastIsTail(dir, rows, j, r);
    }
  }

  lemma PastIsTail(dir: Dir, rows: seq<Row>, j: nat, r: Row)
    requires Ordered(dir, rows) && 0 < j <= |rows| && r in Elements(rows)
    ensures Before(dir, rows[j - 1], r) <==> r !in Elements(rows[..j])
  {
    var i :| 0 <= i < |rows| && rows[i] == r;
    if i < j {
      assert rows[..j][i] == r;
      assert i == j - 1 || Before(dir, r, rows[j - 1]);
    } else {
      assert Before(dir, rows[j - 1], r);
      assert forall k :: 0 <= k < j ==> Before(dir, rows[k], rows[i]);
    }
  }

  /** Main result: the page after the first j rows is exactly the next slice of the sorted table. */
  lemma PageIsSlice(s: set<Row>, q: Query, j: nat)
    requires q.limit >= 1 && q.sortCol != "id" && j <= |s| && CutsExactly(s, q, j)
    ensures |Sorted(q.dir, s)| == |s|
    ensures var end := Min(j + q.limit, |s|);
      ListPage(s, q.(cursor := CursorAfter(s, q, j))) == Ok(Page(Sorted(q.dir, s)[j..end], Meta(
        if j + q.limit < |s| then CursorAfter(s, q, end) else NoCursor, j + q.limit < |s|, q.limit, end - j, |s|)))
  {
    hide First, Elements, Remaining, CutsExactly;
    RemainingAfter(s, q, j);
    FirstIsSortedPrefix(q.dir, s, 0);
    NextRows(s, q.dir, j, q.limit + 1);
    CutSlice(q.(cursor := CursorAfter(s, q, j)), Sorted(q.dir, s), j);
  }

  lemma CutSlice(q: Query, rows: seq<Row>, j: nat)
    requires q.limit >= 1 && j <= |rows|
    ensures var end := Min(j + q.limit, |rows|);
      PageOf(q, rows[j..Min(j + q.limit + 1, |rows|)], |rows|) == Page(rows[j..end], Meta(
        if j + q.limit < |rows| then NextCursor(q, rows[end - 1]) else NoCursor,
        j + q.limit < |rows|, q.limit, end - j, |rows|))
  {
    if j + q.limit < |rows| {
      assert rows[j..j + q.limit + 1][..q.limit] == rows[j..j + q.limit];
    }
  }

  lemma NextRows(s: set<Row>, dir: Dir, j: nat, n: nat)
    requires j <= |s|
    ensures |Sorted(dir, s)| == |s|
    ensures First(dir, s - Elements(First(dir, s, j)), n) == Sorted(dir, s)[j..Min(j + n, |s|)]
  {
    FirstIsSortedPrefix(dir, s, j);
    FirstIsSortedPrefix(dir, s, j + n);
    FirstSplits(dir, s, j, n);
    var page := First(dir, s - Elements(First(dir, s, j)), n);
    assert page == First(dir, s, j + n)[j..];
  }

  function Frozen(s: set<Row>, m: nat): seq<set<Row>> {
    seq(m, _ => s)
  }

  function Returned(pages: seq<Page>): nat {
    if pages == [] then 0 else pages[0].meta.returned + Returned(pages[1..])
  }

  /** The pages cut the sorted table from row j on, all with the same total. */
  ghost predicate Cuts(s: set<Row>, dir: Dir, limit: nat, j: nat, pages: seq<Page>)
    requires limit >= 1 && j <= |s|
  {
    && |pages| == PageCount(|s| - j, limit)
    && |Sorted(dir, s)| == |s| && Rows(pages) == Sorted(dir, s)[j..]
    && Returned(pages) == |s| - j
    && (forall i :: 0 <= i < |pages| ==> pages[i].meta.total == |s|)
    && (forall i :: 0 <= i < |pages| ==> (pages[i].meta.hasMore <==> i < |pages| - 1))
  }

  lemma {:induction false} FrozenWalkFrom(s: set<Row>, q: Query, j: nat, m: nat)
    requires q.limit >= 1 && q.sortCol != "id" && j <= |s| && BoundariesExact(s, q, j)
    requires q.cursor == CursorAfter(s, q, j) && m >= PageCount(|s| - j, q.limit)
    ensures Cuts(s, q.dir, q.limit, j, Walk(Frozen(s, m), q))
    decreases m
  {
    hide First, Walk, CursorAfter, PageCount, Cuts, CutsExactly;
    var p := NextSlice(s, q, j);
    if j + q.limit < |s| {
      var next := q.(cursor := p.meta.nextCursor);
      FewerPages(|s| - j, q.limit);
      SameBoundaries(s, q, next, j + q.limit);
      FrozenWalkFrom(s, next, j + q.limit, m - 1);
      CutsPrepend(s, q.dir, q.limit, j, p, Walk(Frozen(s, m - 1), next));
    } else {
      CutsLast(s, q.dir, q.limit, j, p);
      assert [p] + [] == [p];
    }
    FrozenWalkStep(s, q, m);
  }

  /** Where the walk stands does not matter to its boundaries. */
  lemma {:induction false} SameBoundaries(s: set<Row>, q: Query, next: Query, j: nat)
    requires j <= |s| && q.limit >= 1 && next == q.(cursor := next.cursor)
    ensures CutsExactly(s, q, j) == CutsExactly(s, next, j)
    ensures BoundariesExact(s, q, j) == BoundariesExact(s, next, j)
    decreases |s| - j
  {
    if j + q.limit < |s| { SameBoundaries(s, q, next, j + q.limit); }
  }

  lemma NextSlice(s: set<Row>, q: Query, j: nat) returns (p: Page)
    requires q.limit >= 1 && q.sortCol != "id" && j <= |s| && CutsExactly(s, q, j) && q.cursor == CursorAfter(s, q, j)
    ensures ListPage(s, q) == Ok(p) && |Sorted(q.dir, s)| == |s|
    ensures p.rows == Sorted(q.dir, s)[j..Min(j + q.limit, |s|)] && p.meta.total == |s| && p.meta.returned == |p.rows|
    ensures p.meta.hasMore <==> j + q.limit < |s|
    ensures var next := q.(cursor := p.meta.nextCursor);
      p.meta.hasMore ==> !next.cursor.Malformed? && next.cursor == CursorAfter(s, next, j + q.limit)
  {
    PageIsSlice(s, q, j);
    p := ListPage(s, q).value;
    assert q.(cursor := CursorAfter(s, q, j)) == q;
  }

  lemma CutsLast(s: set<Row>, dir: Dir, limit: nat, j: nat, p: Page)
    requires limit >= 1 && j <= |s| <= j + limit && |Sorted(dir, s)| == |s|
    requires p.rows == Sorted(dir, s)[j..|s|]
    requires !p.meta.hasMore && p.meta.total == |s| && p.meta.returned == |s| - j
    ensures Cuts(s, dir, limit, j, [p])
  {
    LastPage(|s| - j, limit);
    assert Rows([p]) == p.rows + Rows([]) == p.rows;
    assert Returned([p]) == p.meta.returned + Returned([]);
  }

  lemma CutsPrepend(s: set<Row>, dir: Dir, limit: nat, j: nat, p: Page, rest: seq<Page>)
    requires limit >= 1 && j + limit < |s| && Cuts(s, dir, limit, j + limit, rest)
    requires p.rows == Sorted(dir, s)[j..j + limit]
    requires p.meta.hasMore && p.meta.total == |s| && p.meta.returned == limit
    ensures Cuts(s, dir, limit, j, [p] + rest)
  {
    FewerPages(|s| - j, limit);
    assert ([p] + rest)[1..] == rest;
    assert Sorted(dir, s)[j..] == Sorted(dir, s)[j..j + limit] + Sorted(dir, s)[j + limit..];
  }

  lemma FrozenWalkStep(s: set<Row>, q: Query, m: nat)
    requires q.limit >= 1 && q.sortCol != "id" && !q.cursor.Malformed? && m >= 1
    ensures var p := ListPage(s, q).value; var pages := Walk(Frozen(s, m), q);
      pages == [p] + if p.meta.hasMore then Walk(Frozen(s, m - 1), q.(cursor := p.meta.nextCursor)) else []
  {
    var tables := Frozen(s, m);
    assert tables[0] == s && tables[1..] == Frozen(s, m - 1);
  }

  lemma FewerPages(n: nat, limit: nat)
    requires limit >= 1 && n > limit
    ensures PageCount(n, limit) == 1 + PageCount(n - limit, limit)
  {
    DivStep(n - 1, limit);
    DivStep(n - 1 - limit, limit);
  }

  lemma DivStep(n: nat, limit: nat)
    requires limit >= 1
    ensures (n + limit) / limit == n / limit + 1
  {
    DivUnique(n + limit, limit, n / limit + 1, n % limit);
  }

  lemma DivUnique(x: nat, d: nat, q: nat, r: nat)
    requires d >= 1 && r < d && x == q * d + r
    ensures x / d == q
  {
    var k := x / d - q;
    assert k * d == (x / d) * d - q * d == r - x % d;
    if k >= 1 {
      MulGrows(k, d);
    } else if k <= -1 {
      MulGrows(-k, d);
    }
  }

  lemma MulGrows(k: int, d: int)
    requires k >= 1 && d >= 0
    ensures k * d >= d && (-k) * d <= -d
  {
  }

  lemma LastPage(n: nat, limit: nat)
    requires limit >= 1 && n <= limit
    ensures PageCount(n, limit) == 1
  {
  }

  /**
   * Main result: over an unchanging table the walk from no cursor ends after
   * max(1, ceil(n/limit)) pages, and its pages concatenate to the sorted table.
   */
  lemma FrozenWalk(s: set<Row>, q: Query, m: nat)
    requires q.limit >= 1 && q.sortCol != "id" && ExactTable(s, q) && q.cursor == NoCursor
    requires m >= PageCount(|s|, q.limit)
    ensures var pages := Walk(Frozen(s, m), q);
      && |pages| == PageCount(|s|, q.limit)
      && Rows(pages) == Sorted(q.dir, s) && Elements(Rows(pages)) == s && Ordered(q.dir, Rows(pages))
      && Returned(pages) == |s|
      && (forall i :: 0 <= i < |pages| ==> pages[i].meta.total == |s|)
      && (forall i :: 0 <= i < |pages| ==> (pages[i].meta.hasMore <==> i < |pages| - 1))
  {
    assert CursorAfter(s, q, 0) == NoCursor;
    ExactTableBoundaries(s, q, 0);
    FrozenWalkFrom(s, q, 0, m);
    SortedElements(q.dir, s);
  }

  /** Two cursors that leave the same least row leave the same rows. */
  lemma SameLeastSameRest(s: set<Row>, dir: Dir, k1: int, i1: int, k2: int, i2: int)
    requires var a, b := set r | r in s && Past(dir, k1, i1, r), set r | r in s && Past(dir, k2, i2, r);
      a != {} && b != {} && Least(dir, a) == Least(dir, b)
    ensures (set r | r in s && Past(dir, k1, i1, r)) == (set r | r in s && Past(dir, k2, i2, r))
  {
    var a, b := set r | r in s && Past(dir, k1, i1, r), set r | r in s && Past(dir, k2, i2, r);
    var least := Least(dir, a);
    assert least in a && least in b;
    forall r ensures r in a <==> r in b {
      if r in a { assert r == least || Before(dir, least, r); }
      if r in b { assert r == least || Before(dir, least, r); }
    }
  }

  /** The rows after row j - 1 of the sorted table start with row j. */
  lemma ExactTail(s: set<Row>, dir: Dir, j: nat)
    requires 0 < j < |s|
    ensures |Sorted(dir, s)| == |s|
    ensures var last := Sorted(dir, s)[j - 1]; var tail := set r | r in s && Before(dir, last, r);
      tail != {} && Least(dir, tail) == Sorted(dir, s)[j]
  {
    TailSet(s, dir, j);
    var rows := Sorted(dir, s);
    var tail := set r | r in s && Before(dir, rows[j - 1], r);
    NextRows(s, dir, j, 1);
    StartsWithLeast(dir, tail, 0);
    hide First, Elements, Least, Past;
    assert First(dir, tail, 1) == rows[j..j + 1];
  }

  lemma WrongCutWrongLeast(s: set<Row>, q: Query, j: nat)
    requires 0 < j < |s| && !CutsExactly(s, q, j) && q.cursor == CursorAfter(s, q, j)
    ensures |Sorted(q.dir, s)| == |s|
    ensures Remaining(s, q) == {} || Least(q.dir, Remaining(s, q)) != Sorted(q.dir, s)[j]
  {
    ExactTail(s, q.dir, j);
    hide First, Least;
    var last := Sorted(q.dir, s)[j - 1];
    var tail := set r | r in s && Before(q.dir, last, r);
    var left, cv := Remaining(s, q), q.cursor.cv;
    assert cv == EncodeCursor(q.col, last.key, last.id) && cv.id == last.id;
    assert left == set r | r in s && Past(q.dir, Value(cv), cv.id, r);
    var r :| r in s && !(Past(q.dir, Value(cv), cv.id, r) <==> Before(q.dir, last, r));
    assert r in left <==> r !in tail;
    if left != {} && Least(q.dir, left) == Least(q.dir, tail) {
      SameLeastSameRest(s, q.dir, Value(cv), cv.id, last.key, last.id);
    }
  }

  /** A cursor that does not cut exactly is followed by a page that starts with another row, or none. */
  lemma WrongCutWrongRow(s: set<Row>, q: Query, j: nat, m: nat)
    requires q.limit >= 1 && q.sortCol != "id" && 0 < j < |s| && !CutsExactly(s, q, j) && m >= 1
    requires q.cursor == CursorAfter(s, q, j)
    ensures |Sorted(q.dir, s)| == |s| && Rows(Walk(Frozen(s, m), q)) != Sorted(q.dir, s)[j..]
  {
    hide First, Least, Walk, CutsExactly, Remaining;
    WrongCutWrongLeast(s, q, j);
    WalkStarts(s, q, m);
  }

  lemma StartsWithLeast(dir: Dir, s: set<Row>, n: nat)
    ensures s == {} ==> First(dir, s, n + 1) == []
    ensures s != {} ==> First(dir, s, n + 1) != [] && First(dir, s, n + 1)[0] == Least(dir, s)
  {
  }

  /** A walk starts with the least row its cursor leaves. */
  lemma WalkStarts(s: set<Row>, q: Query, m: nat)
    requires q.limit >= 1 && q.sortCol != "id" && !q.cursor.Malformed? && m >= 1
    ensures var rows, left := Rows(Walk(Frozen(s, m), q)), Remaining(s, q);
      if left == {} then rows == [] else rows != [] && rows[0] == Least(q.dir, left)
  {
    hide First, Least, Remaining;
    var left := Remaining(s, q);
    FrozenWalkStep(s, q, m);
    StartsWithLeast(q.dir, left, q.limit);
    var p := ListPage(s, q).value;
    var pages := Walk(Frozen(s, m), q);
    assert pages[0] == p && Rows(pages) == p.rows + Rows(pages[1..]);
    if left == {} {
      assert p.rows == [] && !p.meta.hasMore && pages[1..] == [];
    } else {
      assert p.rows != [] && p.rows[0] == First(q.dir, left, q.limit + 1)[0];
    }
  }

  /** From a good cursor on, a walk past a boundary that does not cut exactly goes wrong. */
  lemma {:induction false} BrokenWalk(s: set<Row>, q: Query, j: nat, m: nat)
    requires q.limit >= 1 && q.sortCol != "id" && j <= |s| && q.cursor == CursorAfter(s, q, j)
    requires CutsExactly(s, q, j) && !BoundariesExact(s, q, j) && m >= PageCount(|s| - j, q.limit)
    ensures |Sorted(q.dir, s)| == |s| && Rows(Walk(Frozen(s, m), q)) != Sorted(q.dir, s)[j..]
    decreases m
  {
    hide First, Walk, CursorAfter, PageCount, CutsExactly;
    var p := NextSlice(s, q, j);
    var k, next := j + q.limit, q.(cursor := p.meta.nextCursor);
    FewerPages(|s| - j, q.limit);
    SameBoundaries(s, q, next, k);
    if CutsExactly(s, q, k) {
      BrokenWalk(s, next, k, m - 1);
    } else {
      WrongCutWrongRow(s, next, k, m - 1);
    }
    FrozenWalkStep(s, q, m);
    var rest := Walk(Frozen(s, m - 1), next);
    var rows := Sorted(q.dir, s);
    assert ([p] + rest)[1..] == rest && Rows([p] + rest) == p.rows + Rows(rest);
    assert rows[j..][..q.limit] == rows[j..k] && rows[j..][q.limit..] == rows[k..];
    assert (p.rows + Rows(rest))[q.limit..] == Rows(rest);
  }

  /**
   * Main result: over any unchanging table and page size the walk lists the sorted table exactly
   * when every page boundary's cursor leaves the rows its exact sort value would leave.
   */
  lemma FrozenWalkExactly(s: set<Row>, q: Query, m: nat)
    requires q.limit >= 1 && q.sortCol != "id" && q.cursor == NoCursor && m >= PageCount(|s|, q.limit)
    ensures Rows(Walk(Frozen(s, m), q)) == Sorted(q.dir, s) <==> BoundariesExact(s, q, 0)
  {
    hide First, Walk;
    assert CursorAfter(s, q, 0) == NoCursor && CutsExactly(s, q, 0);
    if BoundariesExact(s, q, 0) {
      FrozenWalkFrom(s, q, 0, m);
    } else {
      BrokenWalk(s, q, 0, m);
    }
    FirstIsSortedPrefix(q.dir, s, 0);
    assert Sorted(q.dir, s)[0..] == Sorted(q.dir, s);
  }

  // ---- Where the walk fails -----------------------------------------------

  /**
   * A number key beyond 2^53 that float64 cannot hold breaks paging: a walk over two
   * rows sharing the key lists both, in either direction, exactly when the key is exact.
   */
  lemma TiedRowsWalk(key: int, dir: Dir, q: Query)
    requires q == Query(NoCursor, 1, "size_bytes", NumberColumn, dir)
    ensures Elements(Rows(Walk(Frozen({Row(1, key), Row(2, key)}, 2), q))) == {Row(1, key), Row(2, key)}
       <==> Representable(key)
  {
    hide First, Least, Sorted;
    var first := if dir == Asc then Row(1, key) else Row(2, key);
    var second := if dir == Asc then Row(2, key) else Row(1, key);
    var s := {Row(1, key), Row(2, key)};
    assert s == {first, second} && |s| == 2;
    TwoRows(dir, first, second);
    if Representable(key) {
      FrozenWalk(s, q, 2);
    } else {
      Float64Exact(key);
      var p := ListPage(s, q).value;
      assert Remaining(s, q) == s && p.rows == [first];
      var next := q.(cursor := p.meta.nextCursor);
      assert Remaining(s, next) == s || Remaining(s, next) == {};
      var p2 := ListPage(s, next).value;
      assert p2.rows == [first] || p2.rows == [];
      TwoPages(s, q, p, p2);
      assert Rows([p, p2]) == p.rows + Rows([p, p2][1..]) == p.rows + (p2.rows + Rows([p2][1..]));
      assert second !in Elements(Rows([p, p2]));
    }
  }

  lemma TwoRows(dir: Dir, a: Row, b: Row)
    requires Before(dir, a, b)
    ensures First(dir, {a, b}, 2) == [a, b] && First(dir, {}, 2) == []
  {
    assert Least(dir, {a, b}) == a;
    assert {a, b} - {a} == {b};
    assert Least(dir, {b}) == b;
    assert {b} - {b} == {};
    assert First(dir, {b}, 1) == [b] + First(dir, {}, 0);
  }

  lemma TwoPages(s: set<Row>, q: Query, p: Page, p2: Page)
    requires q.limit >= 1 && q.sortCol != "id" && !q.cursor.Malformed?
    requires ListPage(s, q) == Ok(p) && p.meta.hasMore && ListPage(s, q.(cursor := p.meta.nextCursor)) == Ok(p2)
    ensures Walk(Frozen(s, 2), q) == [p, p2]
  {
    FrozenWalkStep(s, q, 2);
    var next := q.(cursor := p.meta.nextCursor);
    FrozenWalkStep(s, next, 1);
    assert Frozen(s, 0) == [];
    assert Walk(Frozen(s, 1), next) == [p2];
  }

  /** Sorting by id, the second page is never reachable: listing needs more than one page exactly when it fails. */
  lemma IdSortStopsAfterOnePage(s: set<Row>, q: Query)
    requires q.limit >= 1 && q.sortCol == "id" && q.cursor == NoCursor
    ensures var p := ListPage(s, q).value;
      && (p.meta.hasMore <==> |s| > q.limit)
      && (p.meta.hasMore <==> ListPage(s, q.(cursor := p.meta.nextCursor)) == Err(BadSql))
      && (!p.meta.hasMore ==> p.rows == Sorted(q.dir, s))
  {
    FirstIsSortedPrefix(q.dir, s, q.limit + 1);
  }
}
