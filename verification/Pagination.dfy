// Keyset pagination: pages in descending (createdAt, id), continued from a cursor made of the last row.
module Pagination {
  import opened Types

  // createdAt in microseconds, as the database stores it. Ids are unique and ordered.
  datatype Row = Row(createdAt: int, id: nat)

  // A JavaScript date holds whole milliseconds.
  datatype Cursor = Cursor(millis: int, id: nat)

  function CursorOf(row: Row): Cursor { Cursor(row.createdAt / 1000, row.id) }

  // createdAtIdDescWhere
  predicate Where(row: Row, cursor: Option<Cursor>) {
    match cursor
    case None => true
    case Some(c) => row.createdAt < c.millis * 1000 || (row.createdAt == c.millis * 1000 && row.id < c.id)
  }

  predicate Above(a: Row, b: Row) {
    a.createdAt > b.createdAt || (a.createdAt == b.createdAt && a.id > b.id)
  }

  // A table in the order of the query: newest first, no two rows alike.
  predicate Ordered(table: seq<Row>) {
    forall i, j :: 0 <= i < j < |table| ==> Above(table[i], table[j])
  }

  // The rows the query selects, in order.
  function Select(table: seq<Row>, cursor: Option<Cursor>): seq<Row> {
    if |table| == 0 then []
    else if Where(table[0], cursor) then [table[0]] + Select(table[1..], cursor)
    else Select(table[1..], cursor)
  }

  datatype Page = Page(items: seq<Row>, next: Option<Cursor>, hasMore: bool)

  // pageInfo over the limit + 1 rows the query took
  function PageInfo(rows: seq<Row>, limit: nat): Page {
    var items := if |rows| <= limit then rows else rows[..limit];
    Page(items, if |rows| > limit && |items| > 0 then Some(CursorOf(items[|items| - 1])) else None, |rows| > limit)
  }

  function Take(rows: seq<Row>, n: nat): seq<Row> { if |rows| <= n then rows else rows[..n] }

  function Fetch(table: seq<Row>, cursor: Option<Cursor>, limit: nat): Page {
    PageInfo(Take(Select(table, cursor), limit + 1), limit)
  }

  // ---------------------------------------------------------------- a cursor cuts the table in two

  lemma WhereCarriesDown(upper: Row, lower: Row, cursor: Option<Cursor>)
    requires Above(upper, lower) && Where(upper, cursor)
    ensures Where(lower, cursor)
  {
  }

  // Where holds from some row on and not before it.
  lemma {:induction false} SelectIsSuffix(table: seq<Row>, cursor: Option<Cursor>) returns (k: nat)
    requires Ordered(table)
    ensures k <= |table| && Select(table, cursor) == table[k..]
    ensures forall i :: 0 <= i < k ==> !Where(table[i], cursor)
    ensures forall i :: k <= i < |table| ==> Where(table[i], cursor)
  {
    if |table| == 0 {
      k := 0;
    } else if Where(table[0], cursor) {
      forall i | 0 <= i < |table| ensures Where(table[i], cursor) {
        if i > 0 { WhereCarriesDown(table[0], table[i], cursor); }
      }
      AllSelected(table, cursor);
      k := 0;
    } else {
      SuffixIsOrdered(table, 1);
      var m := SelectIsSuffix(table[1..], cursor);
      k := m + 1;
      forall i | 0 < i < |table| ensures table[i] == table[1..][i - 1] {}
    }
  }

  lemma {:induction false} AllSelected(table: seq<Row>, cursor: Option<Cursor>)
    requires forall i :: 0 <= i < |table| ==> Where(table[i], cursor)
    ensures Select(table, cursor) == table
  {
    if |table| > 0 { AllSelected(table[1..], cursor); }
  }

  lemma SuffixIsOrdered(table: seq<Row>, k: nat)
    requires Ordered(table) && k <= |table|
    ensures Ordered(table[k..])
  {
  }

  // The next page starts strictly below the last row shown.
  lemma NextPageIsShorter(table: seq<Row>, cursor: Option<Cursor>, limit: nat)
    requires Ordered(table) && limit >= 1 && Fetch(table, cursor, limit).next.Some?
    ensures |Select(table, Fetch(table, cursor, limit).next)| < |Select(table, cursor)|
  {
    var k := SelectIsSuffix(table, cursor);
    var next := Fetch(table, cursor, limit).next;
    var m := SelectIsSuffix(table, next);
    var last := table[k + limit - 1];
    assert next == Some(CursorOf(last));
    assert !Where(last, next);
  }

  // ---------------------------------------------------------------- walking the pages

  // Following nextCursor to the end.
  function Walk(table: seq<Row>, cursor: Option<Cursor>, limit: nat): seq<Row>
    requires Ordered(table) && limit >= 1
    decreases |Select(table, cursor)|
  {
    var page := Fetch(table, cursor, limit);
    if page.next.None? then page.items
    else
      NextPageIsShorter(table, cursor, limit);
      page.items + Walk(table, page.next, limit)
  }

  // What a cursor made of the last row of a page leaves: the rows from some later one on.
  lemma SelectIsBelow(rows: seq<Row>, limit: nat) returns (k: nat)
    requires Ordered(rows) && 1 <= limit < |rows|
    ensures limit <= k <= |rows| && Select(rows, Some(CursorOf(rows[limit - 1]))) == rows[k..] && Ordered(rows[k..])
    ensures k == limit <==> Resolves(rows, limit)
  {
    var cursor := Some(CursorOf(rows[limit - 1]));
    k := SelectIsSuffix(rows, cursor);
    SuffixIsOrdered(rows, k);
    assert !Where(rows[limit - 1], cursor);
  }

  lemma SelectShrinks(rows: seq<Row>, limit: nat)
    requires Ordered(rows) && 1 <= limit < |rows|
    ensures |Select(rows, Some(CursorOf(rows[limit - 1])))| < |rows| && Ordered(Select(rows, Some(CursorOf(rows[limit - 1]))))
  {
    var k := SelectIsBelow(rows, limit);
  }

  // The row after a page break can be told from the last row of the page by the cursor.
  predicate Resolves(rows: seq<Row>, i: nat)
    requires 0 < i < |rows|
  {
    Where(rows[i], Some(CursorOf(rows[i - 1])))
  }

  // The same walk on the rows that are left: a page, and then whatever lies below its last row.
  function Pages(rows: seq<Row>, limit: nat): seq<Row>
    requires Ordered(rows) && limit >= 1
    decreases |rows|
  {
    if |rows| <= limit then rows
    else
      SelectShrinks(rows, limit);
      rows[..limit] + Pages(Select(rows, Some(CursorOf(rows[limit - 1]))), limit)
  }

  // Narrowing twice is narrowing once, when the second cursor comes from a row of the first.
  lemma SelectTwice(table: seq<Row>, cursor: Option<Cursor>, n: nat)
    requires Ordered(table) && n < |Select(table, cursor)|
    ensures Ordered(Select(table, cursor))
    ensures var next := Some(CursorOf(Select(table, cursor)[n]));
            Select(table, next) == Select(Select(table, cursor), next)
  {
    var k := SelectIsSuffix(table, cursor);
    var rows := table[k..];
    SuffixIsOrdered(table, k);
    var next := Some(CursorOf(rows[n]));
    var m := SelectIsSuffix(table, next);
    var l := SelectIsSuffix(rows, next);
    assert !Where(table[k + n], next);
    assert m >= k + n;
    assert forall i :: 0 <= i < |rows| ==> rows[i] == table[k + i];
    assert l < |rows| ==> Where(table[k + l], next);
    assert m < |table| ==> Where(rows[m - k], next);
    assert l == m - k;
    assert rows[l..] == table[m..];
  }

  // pageInfo says there is more exactly when there is, and shows the first rows that qualify.
  lemma PageIsHonest(table: seq<Row>, cursor: Option<Cursor>, limit: nat)
    requires limit >= 1
    ensures var page := Fetch(table, cursor, limit);
            var rows := Select(table, cursor);
            && page.items == Take(rows, limit)
            && (page.hasMore <==> |rows| > limit)
            && (page.next.Some? <==> page.hasMore)
            && (page.hasMore ==> page.next == Some(CursorOf(rows[limit - 1])))
  {
  }

  lemma WalkUnfolds(table: seq<Row>, cursor: Option<Cursor>, limit: nat)
    requires Ordered(table) && limit >= 1
    ensures var rows := Select(table, cursor);
            Walk(table, cursor, limit) ==
              if |rows| <= limit then rows else rows[..limit] + Walk(table, Some(CursorOf(rows[limit - 1])), limit)
  {
    PageIsHonest(table, cursor, limit);
  }

  lemma {:induction false} WalkIsPages(table: seq<Row>, cursor: Option<Cursor>, rows: seq<Row>, limit: nat)
    requires Ordered(table) && limit >= 1 && rows == Select(table, cursor) && Ordered(rows)
    ensures Walk(table, cursor, limit) == Pages(rows, limit)
    decreases |rows|
  {
    WalkUnfolds(table, cursor, limit);
    if |rows| > limit {
      var next := Some(CursorOf(rows[limit - 1]));
      SelectTwice(table, cursor, limit - 1);
      SelectShrinks(rows, limit);
      WalkIsPages(table, next, Select(rows, next), limit);
    }
  }

  lemma {:induction false} PagesAreFewer(rows: seq<Row>, limit: nat)
    requires Ordered(rows) && limit >= 1
    ensures |Pages(rows, limit)| <= |rows|
    decreases |rows|
  {
    if |rows| > limit {
      var k := SelectIsBelow(rows, limit);
      PagesAreFewer(rows[k..], limit);
    }
  }

  lemma {:induction false} PagesAreRows(rows: seq<Row>, limit: nat)
    requires Ordered(rows) && limit >= 1
    ensures forall i :: 0 <= i < |Pages(rows, limit)| ==> Pages(rows, limit)[i] in rows
    decreases |rows|
  {
    if |rows| > limit {
      var k := SelectIsBelow(rows, limit);
      PagesAreRows(rows[k..], limit);
      var tail := Pages(rows[k..], limit);
      forall i | 0 <= i < |tail| ensures tail[i] in rows {
        var m :| 0 <= m < |rows[k..]| && rows[k..][m] == tail[i];
        assert rows[k + m] == tail[i];
      }
    }
  }

  lemma AboveTheRest(rows: seq<Row>, limit: nat, k: nat, row: Row)
    requires Ordered(rows) && limit <= k <= |rows| && row in rows[k..]
    ensures forall i :: 0 <= i < limit ==> Above(rows[i], row)
  {
    var m :| 0 <= m < |rows[k..]| && rows[k..][m] == row;
    assert rows[k + m] == row;
  }

  lemma JoinedIsOrdered(first: seq<Row>, second: seq<Row>)
    requires Ordered(first) && Ordered(second)
    requires forall i, j :: 0 <= i < |first| && 0 <= j < |second| ==> Above(first[i], second[j])
    ensures Ordered(first + second)
  {
  }

  lemma {:induction false} PagesAreOrdered(rows: seq<Row>, limit: nat)
    requires Ordered(rows) && limit >= 1
    ensures Ordered(Pages(rows, limit))
    decreases |rows|
  {
    if |rows| > limit {
      var k := SelectIsBelow(rows, limit);
      PagesAreOrdered(rows[k..], limit);
      PagesAreRows(rows[k..], limit);
      var first, tail := rows[..limit], Pages(rows[k..], limit);
      forall i, j | 0 <= i < limit && 0 <= j < |tail| ensures Above(first[i], tail[j]) {
        AboveTheRest(rows, limit, k, tail[j]);
      }
      JoinedIsOrdered(first, tail);
    }
  }

  // Where page k ends when no row is lost.
  function Break(k: nat, limit: nat): nat {
    if k == 0 then 0 else Break(k - 1, limit) + limit
  }

  ghost predicate BreaksResolve(rows: seq<Row>, limit: nat)
    requires limit >= 1
  {
    forall k: nat :: k >= 1 && Break(k, limit) < |rows| ==> BreakResolves(rows, k, limit)
  }

  ghost predicate BreakResolves(rows: seq<Row>, k: nat, limit: nat)
    requires k >= 1 && limit >= 1 && Break(k, limit) < |rows|
  {
    Resolves(rows, Break(k, limit))
  }

  // Pages shows every row exactly when each page break falls between rows the cursor can tell apart.
  lemma {:induction false} PagesAreCompleteIff(rows: seq<Row>, limit: nat)
    requires Ordered(rows) && limit >= 1
    ensures Pages(rows, limit) == rows <==> BreaksResolve(rows, limit)
    decreases |rows|
  {
    if |rows| <= limit {
      forall k: nat | k >= 1 ensures Break(k, limit) >= |rows| {}
    } else {
      var k := SelectIsBelow(rows, limit);
      var below := rows[k..];
      if k == limit {
        PagesAreCompleteIff(below, limit);
        assert rows == rows[..limit] + below;
        BreaksShift(rows, below, limit);
        assert Pages(rows, limit)[limit..] == Pages(below, limit);
      } else {
        PagesAreFewer(below, limit);
        assert |Pages(rows, limit)| < |rows|;
        assert Break(1, limit) == limit && !BreakResolves(rows, 1, limit);
      }
    }
  }

  lemma BreaksShift(rows: seq<Row>, below: seq<Row>, limit: nat)
    requires 1 <= limit < |rows| && below == rows[limit..] && Resolves(rows, limit)
    ensures BreaksResolve(rows, limit) <==> BreaksResolve(below, limit)
  {
    if BreaksResolve(rows, limit) {
      forall k: nat | k >= 1 && Break(k, limit) < |below| ensures BreakResolves(below, k, limit) {
        assert Break(k + 1, limit) == Break(k, limit) + limit;
        assert BreakResolves(rows, k + 1, limit);
      }
    }
    if BreaksResolve(below, limit) {
      forall k: nat | k >= 1 && Break(k, limit) < |rows| ensures BreakResolves(rows, k, limit) {
        if k > 1 {
          assert Break(k, limit) == Break(k - 1, limit) + limit;
          assert BreakResolves(below, k - 1, limit);
        }
      }
    }
  }

  // A walk never repeats a row and never leaves the order, whatever the limit; and it shows the whole
  // table exactly when every page break can be resolved.
  lemma WalkShowsEverythingIff(table: seq<Row>, limit: nat)
    requires Ordered(table) && limit >= 1
    ensures Ordered(Walk(table, None, limit))
    ensures forall i :: 0 <= i < |Walk(table, None, limit)| ==> Walk(table, None, limit)[i] in table
    ensures Walk(table, None, limit) == table <==> BreaksResolve(table, limit)
  {
    var k := SelectIsSuffix(table, None);
    assert Select(table, None) == table;
    WalkIsPages(table, None, table, limit);
    PagesAreRows(table, limit);
    PagesAreOrdered(table, limit);
    PagesAreCompleteIff(table, limit);
  }

  lemma {:induction false} BreakIsMultiple(k: nat, limit: nat)
    ensures Break(k, limit) == k * limit
  {
    if k > 0 { BreakIsMultiple(k - 1, limit); }
  }

  ghost predicate AllResolve(table: seq<Row>) {
    forall i :: 0 < i < |table| ==> Resolves(table, i)
  }

  lemma LimitOneNeedsAll(table: seq<Row>)
    ensures BreaksResolve(table, 1) <==> AllResolve(table)
  {
    if BreaksResolve(table, 1) {
      forall i | 0 < i < |table| ensures Resolves(table, i) {
        BreakIsMultiple(i, 1);
        assert BreakResolves(table, i, 1);
      }
    }
  }

  ghost predicate ShowsEverything(table: seq<Row>, limit: nat)
    requires Ordered(table) && limit >= 1
  {
    Walk(table, None, limit) == table
  }

  // Every limit works exactly when all neighbours can be told apart.
  lemma EveryLimitWorksIff(table: seq<Row>)
    requires Ordered(table)
    ensures (forall limit: nat :: limit >= 1 ==> ShowsEverything(table, limit)) <==> AllResolve(table)
  {
    LimitOneNeedsAll(table);
    WalkShowsEverythingIff(table, 1);
    if AllResolve(table) {
      forall limit: nat | limit >= 1 ensures ShowsEverything(table, limit) { WalkShowsEverythingIff(table, limit); }
    }
    if forall limit: nat :: limit >= 1 ==> ShowsEverything(table, limit) {
      assert ShowsEverything(table, 1);
    }
  }

  // Neighbours can be told apart exactly when the lower one is older than the upper one's millisecond, or
  // sits exactly on it with a smaller id. With timestamps of whole milliseconds that is always so.
  lemma NeighboursResolveIff(table: seq<Row>, i: nat)
    requires Ordered(table) && 0 < i < |table|
    ensures var start := table[i - 1].createdAt / 1000 * 1000;
            Resolves(table, i) <==> table[i].createdAt < start || (table[i].createdAt == start && table[i].id < table[i - 1].id)
    ensures table[i - 1].createdAt % 1000 == 0 ==> Resolves(table, i)
  {
    assert Above(table[i - 1], table[i]);
  }

  lemma WholeMillisecondsShowEverything(table: seq<Row>, limit: nat)
    requires Ordered(table) && limit >= 1
    requires forall i :: 0 <= i < |table| ==> table[i].createdAt % 1000 == 0
    ensures Walk(table, None, limit) == table
  {
    WalkShowsEverythingIff(table, limit);
    forall i | 0 < i < |table| ensures Resolves(table, i) { NeighboursResolveIff(table, i); }
  }

  // Two rows written in the same millisecond: the second one is on no page.
  lemma SameMillisecondIsSkipped()
    ensures var table := [Row(1500, 1), Row(1200, 2)];
            Ordered(table) && Walk(table, None, 1) == [Row(1500, 1)]
  {
    var table := [Row(1500, 1), Row(1200, 2)];
    var page := Fetch(table, None, 1);
    assert Select(table, None) == table by { var _ := SelectIsSuffix(table, None); }
    assert page.next == Some(Cursor(1, 1));
    assert Select(table[1..], page.next) == [];
    assert Select(table, page.next) == [];
  }

  // ---------------------------------------------------------------- rows that arrive during the walk

  lemma {:induction false} SelectIgnoresAbove(upper: seq<Row>, lower: seq<Row>, row: Row, cursor: Option<Cursor>)
    requires !Where(row, cursor)
    ensures Select(upper + [row] + lower, cursor) == Select(upper + lower, cursor)
  {
    if |upper| == 0 {
      assert upper + [row] + lower == [row] + lower && upper + lower == lower;
      assert ([row] + lower)[1..] == lower;
    } else {
      assert (upper + [row] + lower)[1..] == upper[1..] + [row] + lower;
      assert (upper + lower)[1..] == upper[1..] + lower;
      SelectIgnoresAbove(upper[1..], lower, row, cursor);
    }
  }

  // A row inserted above the cursor changes nothing of the rest of the walk.
  lemma InsertionsAboveDoNotMatter(upper: seq<Row>, lower: seq<Row>, row: Row, cursor: Option<Cursor>, limit: nat)
    requires Ordered(upper + lower) && Ordered(upper + [row] + lower) && limit >= 1 && !Where(row, cursor)
    ensures Walk(upper + [row] + lower, cursor, limit) == Walk(upper + lower, cursor, limit)
  {
    SelectIgnoresAbove(upper, lower, row, cursor);
    var k := SelectIsSuffix(upper + lower, cursor);
    SuffixIsOrdered(upper + lower, k);
    WalkIsPages(upper + [row] + lower, cursor, Select(upper + lower, cursor), limit);
    WalkIsPages(upper + lower, cursor, Select(upper + lower, cursor), limit);
  }

  // Rows newer than the last one shown are above its cursor.
  lemma NewerRowsAreAbove(last: Row, row: Row)
    requires row.createdAt > last.createdAt || row.createdAt >= last.createdAt / 1000 * 1000 + 1
    ensures !Where(row, Some(CursorOf(last)))
  {
  }
}
