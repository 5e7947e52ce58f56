/** Keyset paging over a table that keeps growing, against one sorted read. */
module Paging {

  /** A row, by what the read endpoints filter and order on. */
  datatype Row = Row(resource: string, at: int, id: nat)

  /** The position after which the next page starts. */
  datatype Cursor = Top | After(at: int, id: nat)

  datatype Bounds = Bounds(resource: string, since: int, until: int)

  predicate Matches(row: Row, bounds: Bounds) {
    row.resource == bounds.resource && bounds.since <= row.at <= bounds.until
  }

  /** The row comparison (emitted_at, intent_id) < (at, id). */
  predicate Below(row: Row, cursor: Cursor) {
    cursor.Top? || row.at < cursor.at || (row.at == cursor.at && row.id < cursor.id)
  }

  function CursorOf(row: Row): Cursor {
    After(row.at, row.id)
  }

  /** Newest first, ties by identifier. */
  ghost predicate Descending(rows: seq<Row>) {
    forall i, j | 0 <= i < j < |rows| :: Below(rows[j], CursorOf(rows[i]))
  }

  /** What the query returns on one version of the table. */
  ghost predicate IsRead(rows: seq<Row>, table: set<Row>, bounds: Bounds, cursor: Cursor, limit: nat) {
    && Descending(rows) && |rows| <= limit
    && (forall i | 0 <= i < |rows| :: rows[i] in table && Matches(rows[i], bounds) && Below(rows[i], cursor))
    && (forall row | row in table && Matches(row, bounds) && Below(row, cursor) && row !in rows ::
          |rows| == limit && forall i | 0 <= i < |rows| :: Below(row, CursorOf(rows[i])))
  }

  datatype Page = Page(rows: seq<Row>, hasMore: bool, next: Cursor)

  /** One row more than the page is read; if it is there, the page is cut and its
      last row becomes the cursor. */
  function Paginate(rows: seq<Row>, limit: nat): (page: Page)
    requires limit >= 1
  {
    if |rows| <= limit then Page(rows, false, Top)
    else
      var cut := rows[..limit];
      Page(cut, true, CursorOf(cut[|cut| - 1]))
  }

  ghost predicate IsPage(page: Page, table: set<Row>, bounds: Bounds, cursor: Cursor, limit: nat) {
    limit >= 1 && exists rows :: IsRead(rows, table, bounds, cursor, limit + 1) && page == Paginate(rows, limit)
  }

  /** What a page promises about the table it was read from. */
  lemma PageMeaning(page: Page, table: set<Row>, bounds: Bounds, cursor: Cursor, limit: nat)
    requires IsPage(page, table, bounds, cursor, limit)
    ensures Descending(page.rows)
    ensures forall row | row in page.rows :: row in table && Matches(row, bounds) && Below(row, cursor)
    ensures page.hasMore ==> |page.rows| == limit && page.next == CursorOf(page.rows[limit - 1])
    ensures page.hasMore ==> forall row | row in page.rows :: !Below(row, page.next)
    ensures forall row | row in table && Matches(row, bounds) && Below(row, cursor) ::
              row in page.rows || (page.hasMore && Below(row, page.next))
  {
    var rows :| IsRead(rows, table, bounds, cursor, limit + 1) && page == Paginate(rows, limit);
    if page.hasMore {
      assert rows == page.rows + [rows[limit]];
      forall row | row in table && Matches(row, bounds) && Below(row, cursor) && row !in page.rows
        ensures Below(row, page.next)
      {
        RowPastTheCut(rows, table, bounds, cursor, limit, row);
      }
      CutIsLowest(page.rows);
    }
  }

  lemma RowPastTheCut(rows: seq<Row>, table: set<Row>, bounds: Bounds, cursor: Cursor, limit: nat, row: Row)
    requires limit >= 1 && IsRead(rows, table, bounds, cursor, limit + 1) && |rows| == limit + 1
    requires row in table && Matches(row, bounds) && Below(row, cursor) && row !in rows[..limit]
    ensures Below(row, CursorOf(rows[limit - 1]))
  {
    assert Below(rows[limit], CursorOf(rows[limit - 1]));
    if row != rows[limit] {
      assert rows == rows[..limit] + [rows[limit]];
      assert row !in rows;
    }
  }

  lemma CutIsLowest(rows: seq<Row>)
    requires Descending(rows) && rows != []
    ensures forall row | row in rows :: !Below(row, CursorOf(rows[|rows| - 1]))
  {
    forall i | 0 <= i < |rows| ensures !Below(rows[i], CursorOf(rows[|rows| - 1])) {
      assert i < |rows| - 1 ==> Below(rows[|rows| - 1], CursorOf(rows[i]));
    }
  }

  // ---------------------------------------------------------------------
  // Following the cursor
  // ---------------------------------------------------------------------

  /** Pages read one after the other, each from the table as it is then. */
  ghost predicate IsWalk(pages: seq<Page>, tables: seq<set<Row>>, bounds: Bounds, cursor: Cursor, limit: nat) {
    && |pages| == |tables| && |pages| >= 1
    && IsPage(pages[0], tables[0], bounds, cursor, limit)
    && (|pages| > 1 ==> pages[0].hasMore && IsWalk(pages[1..], tables[1..], bounds, pages[0].next, limit))
  }

  ghost predicate Finished(pages: seq<Page>) {
    |pages| >= 1 && !pages[|pages| - 1].hasMore
  }

  function Gathered(pages: seq<Page>): seq<Row> {
    if pages == [] then [] else pages[0].rows + Gathered(pages[1..])
  }

  /** What was read lies below the cursor and comes in one strictly descending
      list: no row is ever repeated, even if rows are inserted between pages. */
  lemma {:induction false} WalkDescends(pages: seq<Page>, tables: seq<set<Row>>, bounds: Bounds, cursor: Cursor, limit: nat)
    requires IsWalk(pages, tables, bounds, cursor, limit)
    ensures Descending(Gathered(pages))
    ensures forall row | row in Gathered(pages) :: Below(row, cursor) && Matches(row, bounds)
    ensures forall row | row in Gathered(pages) :: exists k | 0 <= k < |tables| :: row in tables[k]
    decreases |pages|
  {
    var page, rest := pages[0], pages[1..];
    PageMeaning(page, tables[0], bounds, cursor, limit);
    if |pages| > 1 {
      WalkDescends(rest, tables[1..], bounds, page.next, limit);
      DescendingConcat(page.rows, Gathered(rest), page.next);
      forall row | row in Gathered(pages) ensures exists k | 0 <= k < |tables| :: row in tables[k] {
        if row in Gathered(rest) {
          var k :| 0 <= k < |tables[1..]| && row in tables[1..][k];
          assert row in tables[k + 1];
        }
      }
    } else {
      assert Gathered(pages) == page.rows;
    }
  }

  lemma DescendingConcat(front: seq<Row>, back: seq<Row>, cut: Cursor)
    requires Descending(front) && Descending(back) && front != [] && cut == CursorOf(front[|front| - 1])
    requires forall row | row in back :: Below(row, cut)
    ensures Descending(front + back)
    ensures forall row | row in back :: forall i | 0 <= i < |front| :: Below(row, CursorOf(front[i]))
  {
    forall row | row in back
      ensures forall i | 0 <= i < |front| :: Below(row, CursorOf(front[i]))
    {
      assert Below(row, cut);
    }
    var all := front + back;
    forall i, j | 0 <= i < j < |all| ensures Below(all[j], CursorOf(all[i])) {
      if i < |front| <= j {
        assert all[j] in back;
      }
    }
  }

  /** A finished walk contains every row that was there throughout. */
  lemma {:induction false} WalkIsComplete(pages: seq<Page>, tables: seq<set<Row>>, bounds: Bounds, cursor: Cursor, limit: nat, row: Row)
    requires IsWalk(pages, tables, bounds, cursor, limit) && Finished(pages)
    requires Matches(row, bounds) && Below(row, cursor)
    requires forall k | 0 <= k < |tables| :: row in tables[k]
    ensures row in Gathered(pages)
    decreases |pages|
  {
    PageMeaning(pages[0], tables[0], bounds, cursor, limit);
    if row !in pages[0].rows {
      WalkIsComplete(pages[1..], tables[1..], bounds, pages[0].next, limit, row);
    }
  }

  function Occurrences(rows: seq<Row>, row: Row): nat {
    multiset(rows)[row]
  }

  lemma {:induction false} DescendingOccursOnce(rows: seq<Row>, row: Row)
    requires Descending(rows)
    ensures Occurrences(rows, row) == if row in rows then 1 else 0
  {
    if rows != [] {
      var front, last := rows[..|rows| - 1], rows[|rows| - 1];
      assert rows == front + [last];
      DescendingOccursOnce(front, row);
      forall i | 0 <= i < |front| ensures front[i] != last {
        assert Below(rows[|rows| - 1], CursorOf(rows[i]));
      }
    }
  }

  /** Following the cursor to the end gives every row present throughout exactly
      once, newest first, whatever was inserted between the pages. */
  lemma PagingIsExact(pages: seq<Page>, tables: seq<set<Row>>, bounds: Bounds, limit: nat, row: Row)
    requires IsWalk(pages, tables, bounds, Top, limit) && Finished(pages)
    requires Matches(row, bounds) && forall k | 0 <= k < |tables| :: row in tables[k]
    ensures Descending(Gathered(pages)) && Occurrences(Gathered(pages), row) == 1
  {
    WalkDescends(pages, tables, bounds, Top, limit);
    WalkIsComplete(pages, tables, bounds, Top, limit, row);
    DescendingOccursOnce(Gathered(pages), row);
  }

  /** On a table that does not change, paging with any page size is the single
      sorted read: the list is determined by the table alone. */
  lemma PagingRefinesOneRead(pages: seq<Page>, tables: seq<set<Row>>, table: set<Row>, bounds: Bounds, limit: nat, whole: seq<Row>)
    requires IsWalk(pages, tables, bounds, Top, limit) && Finished(pages)
    requires forall k | 0 <= k < |tables| :: tables[k] == table
    requires Descending(whole) && forall row :: row in whole <==> row in table && Matches(row, bounds)
    ensures Gathered(pages) == whole
  {
    WalkDescends(pages, tables, bounds, Top, limit);
    var got := Gathered(pages);
    forall row ensures row in got <==> row in whole {
      if row in got {
        var k :| 0 <= k < |tables| && row in tables[k];
      }
      if row in whole {
        WalkIsComplete(pages, tables, bounds, Top, limit, row);
      }
    }
    SortedListsAgree(got, whole);
  }

  lemma {:induction false} SortedListsAgree(a: seq<Row>, b: seq<Row>)
    requires Descending(a) && Descending(b) && forall row :: row in a <==> row in b
    ensures a == b
  {
    assert b != [] ==> b[0] in a;
    if a != [] {
      assert a[0] in b && b != [] && b[0] in a;
      HeadsAgree(a, b);
      forall row ensures row in a[1..] <==> row in b[1..] {
        TailMembers(a, row);
        TailMembers(b, row);
      }
      SortedListsAgree(a[1..], b[1..]);
      assert a == [a[0]] + a[1..] && b == [b[0]] + b[1..];
    }
  }

  lemma HeadsAgree(a: seq<Row>, b: seq<Row>)
    requires Descending(a) && Descending(b) && a != [] && b != [] && a[0] in b && b[0] in a
    ensures a[0] == b[0]
  {
    var i :| 0 <= i < |b| && b[i] == a[0];
    var j :| 0 <= j < |a| && a[j] == b[0];
    assert i > 0 ==> Below(b[i], CursorOf(b[0]));
    assert j > 0 ==> Below(a[j], CursorOf(a[0]));
  }

  lemma TailMembers(a: seq<Row>, row: Row)
    requires Descending(a) && a != []
    ensures row in a[1..] <==> row in a && row != a[0]
  {
    if row in a[1..] {
      var i :| 0 <= i < |a[1..]| && a[1..][i] == row;
      assert Below(a[i + 1], CursorOf(a[0]));
    }
    if row in a && row != a[0] {
      var i :| 0 <= i < |a| && a[i] == row;
      assert a[1..][i - 1] == row;
    }
  }

  // ---------------------------------------------------------------------
  // Following the cursor comes to an end
  // ---------------------------------------------------------------------

  /** A strictly descending list fits into any set that holds its rows. */
  lemma {:induction false} DescendingFits(rows: seq<Row>, table: set<Row>)
    requires Descending(rows) && forall i | 0 <= i < |rows| :: rows[i] in table
    ensures |rows| <= |table|
  {
    if rows != [] {
      var front, last := rows[..|rows| - 1], rows[|rows| - 1];
      forall i | 0 <= i < |front| ensures front[i] in table - {last} {
        assert Below(rows[|rows| - 1], CursorOf(rows[i]));
      }
      DescendingFits(front, table - {last});
    }
  }

  lemma {:induction false} FullPages(pages: seq<Page>, tables: seq<set<Row>>, bounds: Bounds, cursor: Cursor, limit: nat)
    requires IsWalk(pages, tables, bounds, cursor, limit)
    ensures |Gathered(pages)| >= (|pages| - 1) * limit
    decreases |pages|
  {
    if |pages| > 1 {
      PageMeaning(pages[0], tables[0], bounds, cursor, limit);
      FullPages(pages[1..], tables[1..], bounds, pages[0].next, limit);
      assert (|pages| - 1) * limit == limit + (|pages[1..]| - 1) * limit;
    }
  }

  /** On a table that does not change there are no more pages than its rows fill, so
      whoever follows the cursor comes to the last one. */
  lemma WalkIsShort(pages: seq<Page>, tables: seq<set<Row>>, table: set<Row>, bounds: Bounds, limit: nat)
    requires IsWalk(pages, tables, bounds, Top, limit)
    requires forall k | 0 <= k < |tables| :: tables[k] == table
    ensures (|pages| - 1) * limit <= |table|
  {
    WalkDescends(pages, tables, bounds, Top, limit);
    var got := Gathered(pages);
    forall i | 0 <= i < |got| ensures got[i] in table {
      assert got[i] in got;
      var k :| 0 <= k < |tables| && got[i] in tables[k];
    }
    DescendingFits(got, table);
    FullPages(pages, tables, bounds, Top, limit);
  }

  lemma {:induction false} Highest(rows: set<Row>, resource: string) returns (top: Row)
    requires rows != {} && forall row | row in rows :: row.resource == resource
    ensures top in rows && forall row | row in rows && row != top :: Below(row, CursorOf(top))
    decreases |rows|
  {
    var first :| first in rows;
    var rest := rows - {first};
    assert forall row | row in rows && row != first :: row in rest;
    if rest == {} {
      top := first;
    } else {
      var other := Highest(rest, resource);
      top := if Below(first, CursorOf(other)) then other else first;
      forall row | row in rows && row != top ensures Below(row, CursorOf(top)) {
        assert row == first || row == other || Below(row, CursorOf(other));
      }
    }
  }

  lemma {:induction false} SortedExists(rows: set<Row>, resource: string) returns (list: seq<Row>)
    requires forall row | row in rows :: row.resource == resource
    ensures Descending(list) && forall row :: row in list <==> row in rows
    decreases |rows|
  {
    if rows == {} {
      list := [];
    } else {
      var top := Highest(rows, resource);
      var rest := SortedExists(rows - {top}, resource);
      list := [top] + rest;
      forall j | 0 < j < |list| ensures Below(list[j], CursorOf(top)) {
        assert list[j] in rest;
      }
    }
  }

  function Beneath(table: set<Row>, bounds: Bounds, cursor: Cursor): set<Row> {
    set row | row in table && Matches(row, bounds) && Below(row, cursor)
  }

  /** The query has an answer on every table. */
  lemma ReadExists(table: set<Row>, bounds: Bounds, cursor: Cursor, limit: nat) returns (rows: seq<Row>)
    ensures IsRead(rows, table, bounds, cursor, limit)
  {
    var list := SortedExists(Beneath(table, bounds, cursor), bounds.resource);
    rows := if |list| <= limit then list else list[..limit];
    forall i | 0 <= i < |rows| ensures rows[i] in table && Matches(rows[i], bounds) && Below(rows[i], cursor) {
      assert rows[i] in list;
    }
    forall row | row in table && Matches(row, bounds) && Below(row, cursor) && row !in rows
      ensures |rows| == limit && forall i | 0 <= i < |rows| :: Below(row, CursorOf(rows[i]))
    {
      assert row in list;
      var k :| 0 <= k < |list| && list[k] == row;
      assert rows <= list;
    }
  }

  ghost predicate AllAre(tables: seq<set<Row>>, table: set<Row>) {
    forall k | 0 <= k < |tables| :: tables[k] == table
  }

  /** And the walk to the last page exists. */
  lemma {:induction false} WalkExists(table: set<Row>, bounds: Bounds, cursor: Cursor, limit: nat)
      returns (pages: seq<Page>, tables: seq<set<Row>>)
    requires limit >= 1
    ensures IsWalk(pages, tables, bounds, cursor, limit) && Finished(pages) && AllAre(tables, table)
    decreases |Beneath(table, bounds, cursor)|
  {
    var rows := ReadExists(table, bounds, cursor, limit + 1);
    var page := Paginate(rows, limit);
    assert IsPage(page, table, bounds, cursor, limit);
    PageMeaning(page, table, bounds, cursor, limit);
    if page.hasMore {
      StepsDown(table, bounds, cursor, page);
      var morePages, moreTables := WalkExists(table, bounds, page.next, limit);
      pages, tables := [page] + morePages, [table] + moreTables;
      assert pages[1..] == morePages && tables[1..] == moreTables;
    } else {
      pages, tables := [page], [table];
    }
  }

  lemma StepsDown(table: set<Row>, bounds: Bounds, cursor: Cursor, page: Page)
    requires page.rows != [] && page.next == CursorOf(page.rows[|page.rows| - 1])
    requires forall row | row in page.rows :: row in table && Matches(row, bounds) && Below(row, cursor)
    ensures |Beneath(table, bounds, page.next)| < |Beneath(table, bounds, cursor)|
  {
    var last := page.rows[|page.rows| - 1];
    var all, less := Beneath(table, bounds, cursor), Beneath(table, bounds, page.next);
    assert last in page.rows && last in all && last !in less;
    assert less <= all - {last};
    SubsetIsSmaller(less, all - {last});
  }

  lemma SubsetIsSmaller(a: set<Row>, b: set<Row>)
    requires a <= b
    ensures |a| <= |b|
  {
    assert b == a + (b - a);
  }
}
