/** Keyset pagination: `list` of payments.service.ts and payments.controller.ts. The table is in the
    order of its index, strictly descending by id. */
module Pagination {
  import opened Options
  import opened Names
  import opened Statuses

  datatype Row = Row(id: Id, status: Status)

  ghost predicate Descending(table: seq<Row>) {
    forall i, j | 0 <= i < j < |table| :: table[i].id > table[j].id
  }

  /** `where status = ... and id < cursor`, either part optional. */
  predicate Selected(status: Option<Status>, cursor: Option<Id>, r: Row) {
    (status.Some? ==> r.status == status.value) && (cursor.Some? ==> r.id < cursor.value)
  }

  function Filter(table: seq<Row>, status: Option<Status>, cursor: Option<Id>): seq<Row> {
    if |table| == 0 then [] else
    (if Selected(status, cursor, table[0]) then [table[0]] else []) + Filter(table[1..], status, cursor)
  }

  function Take(rows: seq<Row>, n: nat): seq<Row> {
    if |rows| <= n then rows else rows[..n]
  }

  /** The service's query: at most one row more than a page. */
  function List(table: seq<Row>, status: Option<Status>, cursor: Option<Id>, limit: nat): seq<Row> {
    Take(Filter(table, status, cursor), limit + 1)
  }

  datatype Page = Page(data: seq<Row>, nextCursor: Option<Id>)

  /** One page of the filtered table. */
  function PageOf(table: seq<Row>, status: Option<Status>, cursor: Option<Id>, limit: nat): Page
    requires limit >= 1
  {
    var rows := Filter(table, status, cursor);
    if |rows| > limit then Page(rows[..limit], Some(rows[limit - 1].id)) else Page(rows, None)
  }

  /** The controller: a full extra row means there is a next page, which starts after the last row
      shown. */
  method ListPage(table: seq<Row>, status: Option<Status>, cursor: Option<Id>, limit: nat) returns (page: Page)
    requires limit >= 1
    ensures page == PageOf(table, status, cursor, limit)
    ensures page.data == Take(Filter(table, status, cursor), limit)
    ensures page.nextCursor.Some? <==> |Filter(table, status, cursor)| > limit
    ensures page.nextCursor.Some? ==> page.data != [] && page.nextCursor.value == page.data[|page.data| - 1].id
  {
    var rows := List(table, status, cursor, limit);
    var nextCursor: Option<Id> := None;
    var data := rows;
    if |rows| == limit + 1 {
      nextCursor := Some(rows[|rows| - 2].id);
      data := rows[..limit];
    }
    page := Page(data, nextCursor);
  }

  // ------------------------------------------------------------ the filter

  lemma {:induction false} FilterSelects(table: seq<Row>, status: Option<Status>, cursor: Option<Id>)
    requires Descending(table)
    ensures Descending(Filter(table, status, cursor))
    ensures forall r :: r in Filter(table, status, cursor) <==> r in table && Selected(status, cursor, r)
  {
    if |table| > 0 {
      var rest := table[1..];
      FilterSelects(rest, status, cursor);
      assert table == [table[0]] + rest;
      var f := Filter(table, status, cursor);
      forall i, j | 0 <= i < j < |f| ensures f[i].id > f[j].id {
        if Selected(status, cursor, table[0]) {
          assert f[j] in Filter(rest, status, cursor);
          assert f[j] in rest;
        }
      }
    }
  }

  /** A filtered table has exactly the rows of the requested status, if one is requested, whose ids are below
      the cursor, if there is one. */
  lemma {:induction false} FilterMeans(table: seq<Row>, status: Option<Status>, cursor: Option<Id>)
    requires Descending(table)
    ensures forall r :: r in Filter(table, status, cursor) <==>
              r in table && (status == None || status == Some(r.status)) && (cursor == None || r.id < cursor.value)
  {
    hide Filter, Descending;
    FilterSelects(table, status, cursor);
  }

  /** A tighter bound may be applied to the result of a looser one. */
  lemma {:induction false} FilterCompose(table: seq<Row>, status: Option<Status>, cursor: Option<Id>, id: Id)
    requires cursor.Some? ==> id <= cursor.value
    ensures Filter(table, status, Some(id)) == Filter(Filter(table, status, cursor), None, Some(id))
  {
    if |table| > 0 {
      FilterCompose(table[1..], status, cursor, id);
      var rest := Filter(table[1..], status, cursor);
      if Selected(status, cursor, table[0]) {
        assert ([table[0]] + rest)[1..] == rest;
      } else {
        assert [] + rest == rest;
      }
    }
  }

  lemma {:induction false} FilterAll(rows: seq<Row>, id: Id)
    requires forall r | r in rows :: r.id < id
    ensures Filter(rows, None, Some(id)) == rows
  {
    if |rows| > 0 {
      assert rows == [rows[0]] + rows[1..];
      FilterAll(rows[1..], id);
    }
  }

  lemma {:induction false} FilterDescending(rows: seq<Row>, k: nat)
    requires Descending(rows) && k < |rows|
    ensures Filter(rows, None, Some(rows[k].id)) == rows[k + 1..]
  {
    if k == 0 {
      FilterAll(rows[1..], rows[0].id);
    } else {
      FilterDescending(rows[1..], k - 1);
      assert rows[1..][k..] == rows[k + 1..];
    }
  }

  /** Skipping to a cursor that is a row of the result continues right after that row. */
  lemma {:induction false} FilterAfterCursor(table: seq<Row>, status: Option<Status>, cursor: Option<Id>, k: nat)
    requires Descending(table) && k < |Filter(table, status, cursor)|
    ensures Filter(table, status, Some(Filter(table, status, cursor)[k].id)) == Filter(table, status, cursor)[k + 1..]
  {
    hide Filter;
    FilterSelects(table, status, cursor);
    var f := Filter(table, status, cursor);
    assert f[k] in f;
    FilterCompose(table, status, cursor, f[k].id);
    FilterDescending(f, k);
  }

  // -------------------------------------------------------------- the walk

  /** All pages from a cursor on, following nextCursor while the table stays as it is. */
  function Walk(table: seq<Row>, status: Option<Status>, cursor: Option<Id>, limit: nat, fuel: nat): Option<seq<Row>>
    requires limit >= 1
    decreases fuel
  {
    if fuel == 0 then None else
    var page := PageOf(table, status, cursor, limit);
    if page.nextCursor.None? then Some(page.data) else
    var more := Walk(table, status, page.nextCursor, limit, fuel - 1);
    if more.None? then None else Some(page.data + more.value)
  }

  lemma {:induction false} WalkIsFilter(table: seq<Row>, status: Option<Status>, cursor: Option<Id>,
      limit: nat, fuel: nat)
    requires limit >= 1 && Descending(table) && fuel > |Filter(table, status, cursor)|
    ensures Walk(table, status, cursor, limit, fuel) == Some(Filter(table, status, cursor))
    decreases fuel
  {
    hide Filter, Descending, Selected;
    var f := Filter(table, status, cursor);
    if |f| > limit {
      FilterAfterCursor(table, status, cursor, limit - 1);
      WalkIsFilter(table, status, Some(f[limit - 1].id), limit, fuel - 1);
      assert f == f[..limit] + f[limit..];
    }
  }

  /** Following nextCursor ends, within one page for each row and one more, and shows exactly the rows of the
      requested status below the cursor, in descending order, each row once. */
  lemma {:induction false} WalkShowsEverythingOnce(table: seq<Row>, status: Option<Status>, cursor: Option<Id>,
      limit: nat, fuel: nat)
    requires limit >= 1 && Descending(table) && fuel > |Filter(table, status, cursor)|
    ensures Walk(table, status, cursor, limit, fuel).Some?
    ensures var shown := Walk(table, status, cursor, limit, fuel).value;
            && Descending(shown)
            && forall r :: r in shown <==>
                 r in table && (status == None || status == Some(r.status)) && (cursor == None || r.id < cursor.value)
  {
    hide Filter, Descending, Selected, Walk;
    WalkIsFilter(table, status, cursor, limit, fuel);
    FilterSelects(table, status, cursor);
    FilterMeans(table, status, cursor);
  }

  /** Unfiltered, the table may grow by newer ids before every page: `tables[i]` is what page i sees. */
  function GrowingWalk(tables: seq<seq<Row>>, cursor: Option<Id>, limit: nat): Option<seq<Row>>
    requires limit >= 1
  {
    if |tables| == 0 then None else
    var page := PageOf(tables[0], None, cursor, limit);
    if page.nextCursor.None? then Some(page.data) else
    var more := GrowingWalk(tables[1..], page.nextCursor, limit);
    if more.None? then None else Some(page.data + more.value)
  }

  /** Each table is the one before with rows of larger ids put in front. */
  ghost predicate Grows(tables: seq<seq<Row>>) {
    && (forall i | 0 <= i < |tables| :: Descending(tables[i]))
    && (forall i | 0 < i < |tables| ::
          |tables[i - 1]| <= |tables[i]| && tables[i][|tables[i]| - |tables[i - 1]|..] == tables[i - 1])
  }

  lemma {:induction false} NewerRowsAreSkipped(older: seq<Row>, newer: seq<Row>, id: Id)
    requires Descending(newer + older) && (exists r :: r in older && r.id == id)
    ensures Filter(newer + older, None, Some(id)) == Filter(older, None, Some(id))
  {
    if |newer| == 0 {
      assert newer + older == older;
    } else {
      var all := newer + older;
      assert all[1..] == newer[1..] + older;
      var r :| r in older && r.id == id;
      assert r in all[1..];
      var j :| 0 <= j < |all[1..]| && all[1..][j] == r;
      assert all[0].id > all[j + 1].id;
      NewerRowsAreSkipped(older, newer[1..], id);
    }
  }

  ghost predicate IsSuffix(older: seq<Row>, table: seq<Row>) {
    |older| <= |table| && table[|table| - |older|..] == older
  }

  /** In the grown table, a walk that started in the old one sees what it would have seen there. */
  lemma SameRest(table: seq<Row>, start: seq<Row>, cursor: Option<Id>)
    requires Descending(table) && IsSuffix(start, table)
    requires if cursor.None? then table == start else exists r :: r in start && r.id == cursor.value
    ensures Filter(table, None, cursor) == Filter(start, None, cursor)
  {
    if cursor.Some? {
      var newer := table[..|table| - |start|];
      assert table == newer + start;
      NewerRowsAreSkipped(start, newer, cursor.value);
    }
  }

  lemma SuffixOfNext(tables: seq<seq<Row>>, start: seq<Row>)
    requires Grows(tables) && |tables| > 1 && IsSuffix(start, tables[0])
    ensures IsSuffix(start, tables[1])
  {
    var t := tables[1];
    assert t[|t| - |tables[1 - 1]|..] == tables[1 - 1];
    assert t[|t| - |start|..] == t[|t| - |tables[0]|..][|tables[0]| - |start|..];
  }

  /** Inserts while walking neither hide nor repeat a row that was there at the start: the walk
      shows exactly the rows of the first table. */
  lemma {:induction false} GrowthDisturbsNothing(tables: seq<seq<Row>>, start: seq<Row>, cursor: Option<Id>, limit: nat)
    requires limit >= 1 && |tables| > 0 && Grows(tables) && Descending(start) && IsSuffix(start, tables[0])
    requires if cursor.None? then tables[0] == start else exists r :: r in start && r.id == cursor.value
    requires |tables| > |Filter(start, None, cursor)|
    ensures GrowingWalk(tables, cursor, limit) == Some(Filter(start, None, cursor))
    decreases |tables|
  {
    hide Filter, Grows, IsSuffix, Descending, Selected;
    assert Descending(tables[0]) by { FirstDescends(tables); }
    SameRest(tables[0], start, cursor);
    var f := Filter(start, None, cursor);
    if |f| > limit {
      FilterSelects(start, None, cursor);
      FilterAfterCursor(start, None, cursor, limit - 1);
      var last := f[limit - 1];
      assert last in f && last in start;
      GrowsTail(tables);
      SuffixOfNext(tables, start);
      GrowthDisturbsNothing(tables[1..], start, Some(last.id), limit);
      assert f == f[..limit] + f[limit..];
    }
  }

  lemma FirstDescends(tables: seq<seq<Row>>)
    requires Grows(tables) && |tables| > 0
    ensures Descending(tables[0])
  {
  }

  lemma GrowsTail(tables: seq<seq<Row>>)
    requires Grows(tables) && |tables| > 0
    ensures Grows(tables[1..])
  {
    var rest := tables[1..];
    forall i | 0 < i < |rest|
      ensures |rest[i - 1]| <= |rest[i]| && rest[i][|rest[i]| - |rest[i - 1]|..] == rest[i - 1]
    {
      assert rest[i] == tables[i + 1] && rest[i - 1] == tables[i];
      assert tables[i + 1][|tables[i + 1]| - |tables[i + 1 - 1]|..] == tables[i + 1 - 1];
    }
  }

  // -------------------------------------------- a filter and moving statuses

  ghost predicate HasId(table: seq<Row>, id: Id) {
    exists r :: r in table && r.id == id
  }

  /** No row went away, and those that came are newer than all that were there. Statuses may differ. */
  ghost predicate Moved(older: seq<Row>, newer: seq<Row>) {
    && (forall id: Id | HasId(older, id) :: HasId(newer, id))
    && (forall r | r in newer :: HasId(older, r.id) || forall q | q in older :: q.id < r.id)
  }

  ghost predicate Moving(tables: seq<seq<Row>>) {
    && (forall i | 0 <= i < |tables| :: Descending(tables[i]))
    && (forall i | 0 < i < |tables| :: Moved(tables[i - 1], tables[i]))
  }

  /** All pages from a cursor on; page i sees `tables[i]`. */
  function MovingWalk(tables: seq<seq<Row>>, status: Option<Status>, cursor: Option<Id>, limit: nat): Option<seq<Row>>
    requires limit >= 1
  {
    if |tables| == 0 then None else
    var page := PageOf(tables[0], status, cursor, limit);
    if page.nextCursor.None? then Some(page.data) else
    var more := MovingWalk(tables[1..], status, page.nextCursor, limit);
    if more.None? then None else Some(page.data + more.value)
  }

  function Below(table: seq<Row>, cursor: Option<Id>): set<Id> {
    set r | r in table && (cursor.Some? ==> r.id < cursor.value) :: r.id
  }

  ghost predicate Matches(table: seq<Row>, status: Option<Status>, id: Id) {
    exists r :: r in table && r.id == id && (status.Some? ==> r.status == status.value)
  }

  lemma SubsetIsSmaller(a: set<Id>, b: set<Id>, x: Id)
    requires a <= b && x in b && x !in a
    ensures |a| < |b|
  {
    assert b == (b - {x}) + {x};
    assert a <= b - {x};
    SubsetIsNoLarger(a, b - {x});
  }

  lemma {:induction false} SubsetIsNoLarger(a: set<Id>, b: set<Id>)
    requires a <= b
    ensures |a| <= |b|
    decreases a
  {
    if a != {} {
      var x :| x in a;
      SubsetIsNoLarger(a - {x}, b - {x});
    }
  }

  /** Behind the cursor there are fewer rows left, and no new ones. */
  lemma BelowShrinks(older: seq<Row>, newer: seq<Row>, status: Option<Status>, cursor: Option<Id>, last: Row)
    requires Descending(older) && Moved(older, newer) && last in older && Selected(status, cursor, last)
    ensures |Below(newer, Some(last.id))| < |Below(older, cursor)|
  {
    var a, b := Below(newer, Some(last.id)), Below(older, cursor);
    forall id: Id | id in a ensures id in b {
      var r :| r in newer && r.id == id && r.id < last.id;
      assert HasId(older, r.id);
    }
    assert last.id in b;
    SubsetIsSmaller(a, b, last.id);
  }

  lemma MovingTail(tables: seq<seq<Row>>)
    requires Moving(tables) && |tables| > 0
    ensures Moving(tables[1..]) && Descending(tables[0])
  {
    var rest := tables[1..];
    forall i | 0 < i < |rest| ensures Moved(rest[i - 1], rest[i]) {
      assert Moved(tables[i + 1 - 1], tables[i + 1]);
    }
  }

  lemma FirstMoved(tables: seq<seq<Row>>)
    requires Moving(tables) && |tables| > 1
    ensures Moved(tables[0], tables[1])
  {
    assert Moved(tables[1 - 1], tables[1]);
  }

  /** What a walk under a filter shows although statuses change while it goes on. */
  ghost predicate ShowsMatching(tables: seq<seq<Row>>, status: Option<Status>, cursor: Option<Id>, shown: seq<Row>) {
    && Descending(shown)
    && (forall r | r in shown :: Selected(status, cursor, r) && exists i :: 0 <= i < |tables| && r in tables[i])
    && (forall id: Id | |tables| > 0 && HasId(tables[0], id) && (cursor.Some? ==> id < cursor.value)
          && (forall i | 0 <= i < |tables| :: Matches(tables[i], status, id)) :: HasId(shown, id))
  }

  /** The walk ends; no row is shown twice, each as it was on some page, and every row that matches
      the filter all the time is shown. */
  lemma {:induction false} MovingWalkShowsMatching(tables: seq<seq<Row>>, status: Option<Status>, cursor: Option<Id>,
      limit: nat)
    requires limit >= 1 && |tables| > 0 && Moving(tables)
    requires |tables| > |Below(tables[0], cursor)|
    ensures MovingWalk(tables, status, cursor, limit).Some?
    ensures ShowsMatching(tables, status, cursor, MovingWalk(tables, status, cursor, limit).value)
    decreases |tables|
  {
    hide ShowsMatching, Filter, Below, Moving, Moved;
    MovingTail(tables);
    var f := Filter(tables[0], status, cursor);
    FilterSelects(tables[0], status, cursor);
    if |f| <= limit {
      LastPageShows(tables, status, cursor);
    } else {
      var last := f[limit - 1];
      assert last in f;
      FewerBelow(tables, status, cursor, last);
      MovingWalkShowsMatching(tables[1..], status, Some(last.id), limit);
      var more := MovingWalk(tables[1..], status, Some(last.id), limit).value;
      PageAndRestShow(tables, status, cursor, limit, more);
    }
  }

  lemma FewerBelow(tables: seq<seq<Row>>, status: Option<Status>, cursor: Option<Id>, last: Row)
    requires |tables| > 0 && Moving(tables) && |tables| > |Below(tables[0], cursor)|
    requires last in tables[0] && Selected(status, cursor, last)
    ensures |tables| > 1 && |tables[1..]| > |Below(tables[1], Some(last.id))|
  {
    assert last.id in Below(tables[0], cursor);
    if |tables| > 1 {
      FirstMoved(tables);
      BelowShrinks(tables[0], tables[1], status, cursor, last);
    }
  }

  lemma LastPageShows(tables: seq<seq<Row>>, status: Option<Status>, cursor: Option<Id>)
    requires |tables| > 0 && Descending(tables[0])
    ensures ShowsMatching(tables, status, cursor, Filter(tables[0], status, cursor))
  {
    hide Filter;
    var f := Filter(tables[0], status, cursor);
    FilterSelects(tables[0], status, cursor);
    forall id: Id | HasId(tables[0], id) && (cursor.Some? ==> id < cursor.value) && Matches(tables[0], status, id)
      ensures HasId(f, id)
    {
      var r :| r in tables[0] && r.id == id && (status.Some? ==> r.status == status.value);
      assert Selected(status, cursor, r);
    }
  }

  lemma PageAndRestShow(tables: seq<seq<Row>>, status: Option<Status>, cursor: Option<Id>, limit: nat, more: seq<Row>)
    requires |tables| > 1 && Moving(tables) && limit >= 1 && |Filter(tables[0], status, cursor)| > limit
    requires var f := Filter(tables[0], status, cursor);
             ShowsMatching(tables[1..], status, Some(f[limit - 1].id), more)
    ensures ShowsMatching(tables, status, cursor, Filter(tables[0], status, cursor)[..limit] + more)
  {
    hide Filter, Moving;
    MovingTail(tables);
    FirstMoved(tables);
    var f := Filter(tables[0], status, cursor);
    FilterSelects(tables[0], status, cursor);
    var last := f[limit - 1];
    var shown := f[..limit] + more;
    PageThenRestDescends(f, limit, more);
    forall r | r in shown ensures Selected(status, cursor, r) && exists i :: 0 <= i < |tables| && r in tables[i] {
      if r in f[..limit] {
        assert r in f && r in tables[0];
      } else {
        assert last in f;
        var i :| 0 <= i < |tables[1..]| && r in tables[1..][i];
        assert r in tables[i + 1];
      }
    }
    forall id: Id | HasId(tables[0], id) && (cursor.Some? ==> id < cursor.value)
        && (forall i | 0 <= i < |tables| :: Matches(tables[i], status, id))
      ensures HasId(shown, id)
    {
      MatchingIsShown(tables, status, cursor, limit, more, id);
    }
  }

  lemma MatchingIsShown(tables: seq<seq<Row>>, status: Option<Status>, cursor: Option<Id>, limit: nat,
      more: seq<Row>, id: Id)
    requires |tables| > 1 && Descending(tables[0]) && Moved(tables[0], tables[1])
    requires limit >= 1 && |Filter(tables[0], status, cursor)| > limit
    requires var f := Filter(tables[0], status, cursor);
             ShowsMatching(tables[1..], status, Some(f[limit - 1].id), more)
    requires HasId(tables[0], id) && (cursor.Some? ==> id < cursor.value)
    requires forall i | 0 <= i < |tables| :: Matches(tables[i], status, id)
    ensures HasId(Filter(tables[0], status, cursor)[..limit] + more, id)
  {
    hide Filter;
    var f := Filter(tables[0], status, cursor);
    FilterSelects(tables[0], status, cursor);
    var shown := f[..limit] + more;
    if id < f[limit - 1].id {
      hide Matches;
      assert HasId(tables[1..][0], id);
      assert forall i | 0 <= i < |tables[1..]| :: tables[1..][i] == tables[i + 1];
      var r :| r in more && r.id == id;
      assert r in shown;
    } else {
      assert Matches(tables[0], status, id);
      var r :| r in tables[0] && r.id == id && (status.Some? ==> r.status == status.value);
      assert Selected(status, cursor, r) && r in f;
      var j :| 0 <= j < |f| && f[j] == r;
      assert shown[j] == r && r in shown;
    }
  }

  lemma PageThenRestDescends(f: seq<Row>, limit: nat, more: seq<Row>)
    requires Descending(f) && 1 <= limit <= |f| && Descending(more)
    requires forall r | r in more :: r.id < f[limit - 1].id
    ensures Descending(f[..limit] + more)
  {
    var shown := f[..limit] + more;
    forall i, j | 0 <= i < j < |shown| ensures shown[i].id > shown[j].id {
      if i < limit <= j {
        assert more[j - limit] in more;
        assert f[i].id >= f[limit - 1].id;
      }
    }
  }
}
