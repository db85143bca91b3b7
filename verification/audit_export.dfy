/** Cursor paging of the audit log (src/db/mod.rs and the handler in src/handlers/auth.rs):
  * following `next_cursor` delivers every row exactly once while rows are being inserted. */
module AuditExport {
  import opened Schema
  import opened CursorText
  import opened TextOrder

  datatype Row = Row(id: string, eventType: Text, micros: int)

  /** `ORDER BY created_at DESC, id DESC`: `a` comes before the position `(micros, id)`. */
  predicate Before(micros: int, id: string, b: Row) {
    b.micros < micros || (b.micros == micros && Less(b.id, id))
  }

  predicate Precedes(a: Row, b: Row) {
    Before(a.micros, a.id, b)
  }

  predicate Descending(rows: seq<Row>) {
    forall i, j | 0 <= i < j < |rows| :: Precedes(rows[i], rows[j])
  }

  /** The table, read in index order. Cursors can name its rows: ids are not empty and hold no
    * colon, and timestamps fit the column. */
  ghost predicate Table(rows: seq<Row>) {
    Descending(rows) && forall r | r in rows :: Nameable(r)
  }

  predicate Nameable(r: Row) {
    r.id != [] && ':' !in r.id && I64_MIN <= r.micros <= I64_MAX
  }

  predicate Wanted(r: Row, eventType: Option<Text>, cursor: Option<Cursor>) {
    && (eventType.Some? ==> r.eventType == eventType.value)
    && (cursor.Some? ==> Before(cursor.value.micros, cursor.value.id, r))
  }

  /** The WHERE clause, in index order. */
  function Select(rows: seq<Row>, eventType: Option<Text>, cursor: Option<Cursor>): seq<Row> {
    if rows == [] then []
    else
      var rest := Select(rows[1..], eventType, cursor);
      if Wanted(rows[0], eventType, cursor) then [rows[0]] + rest else rest
  }

  datatype Page = Page(entries: seq<Row>, nextCursor: Option<string>)

  /** `params.limit.unwrap_or(100).clamp(1, 200)`. */
  function Clamped(limit: Option<int>): (n: int)
    ensures 1 <= n <= 200
  {
    var n := if limit.Some? then limit.value else 100;
    if n < 1 then 1 else if n > 200 then 200 else n
  }

  /** `LIMIT limit + 1` tells whether more follows; the cursor names the last row delivered. */
  function PageOf(selected: seq<Row>, limit: int): Page
    requires limit >= 1
  {
    if |selected| > limit
    then Page(selected[..limit], Some(Print(Cursor(selected[limit - 1].micros, selected[limit - 1].id))))
    else Page(selected, None)
  }

  /** One export request; `None` is the invalid-cursor error. */
  function Export(rows: seq<Row>, limit: int, eventType: Option<Text>, cursor: Option<string>): Option<Page>
    requires limit >= 1
  {
    if cursor.None? then Some(PageOf(Select(rows, eventType, None), limit))
    else
      var position := Parse(cursor.value);
      if position.None? then None else Some(PageOf(Select(rows, eventType, position), limit))
  }

  lemma BeforeTransitive(micros: int, id: string, a: Row, b: Row)
    requires Before(micros, id, a) && Precedes(a, b)
    ensures Before(micros, id, b)
  {
    if micros == a.micros == b.micros {
      LessTransitive(b.id, a.id, id);
    }
  }

  lemma {:induction false} SelectedRows(rows: seq<Row>, eventType: Option<Text>, cursor: Option<Cursor>, r: Row)
    ensures r in Select(rows, eventType, cursor) <==> r in rows && Wanted(r, eventType, cursor)
  {
    if rows != [] {
      SelectedRows(rows[1..], eventType, cursor, r);
      assert r in rows <==> r == rows[0] || r in rows[1..];
    }
  }

  lemma {:induction false} SelectedDescend(rows: seq<Row>, eventType: Option<Text>, cursor: Option<Cursor>)
    requires Descending(rows)
    ensures Descending(Select(rows, eventType, cursor))
  {
    if rows != [] {
      var rest := Select(rows[1..], eventType, cursor);
      SelectedDescend(rows[1..], eventType, cursor);
      forall i | 0 <= i < |rest|
        ensures Precedes(rows[0], rest[i])
      {
        SelectedRows(rows[1..], eventType, cursor, rest[i]);
        var j :| 0 <= j < |rows[1..]| && rows[1..][j] == rest[i];
        assert rows[j + 1] == rest[i];
      }
    }
  }

  /** A client that follows `next_cursor`, one page after another, while rows are inserted
    * anywhere between the pages and none is deleted. */
  ghost predicate Paging(tables: seq<seq<Row>>, pages: seq<Page>, limit: int, eventType: Option<Text>) {
    && limit >= 1
    && |tables| == |pages| > 0
    && (forall k | 0 <= k < |tables| :: Table(tables[k]))
    && Export(tables[0], limit, eventType, None) == Some(pages[0])
    && (forall k | 0 <= k < |pages| - 1 ::
          && pages[k].nextCursor.Some?
          && Grows(tables[k], tables[k + 1])
          && Export(tables[k + 1], limit, eventType, pages[k].nextCursor) == Some(pages[k + 1]))
  }

  ghost predicate Grows(before: seq<Row>, after: seq<Row>) {
    forall r | r in before :: r in after
  }

  function Delivered(pages: seq<Page>): seq<Row> {
    if pages == [] then [] else Delivered(pages[..|pages| - 1]) + pages[|pages| - 1].entries
  }

  function Last(rows: seq<Row>): Row
    requires rows != []
  {
    rows[|rows| - 1]
  }

  /** What one page holds: a run of wanted rows from the cursor on, leaving out only rows behind
    * its own last one. */
  ghost predicate Correct(page: Page, table: seq<Row>, limit: int, eventType: Option<Text>, cursor: Option<Cursor>) {
    && Descending(page.entries)
    && (forall r | r in page.entries :: r in table && Wanted(r, eventType, cursor))
    && (page.nextCursor.None? ==> forall r | r in table && Wanted(r, eventType, cursor) :: r in page.entries)
    && (page.nextCursor.Some? ==>
          && |page.entries| == limit
          && page.entries != []
          && Parse(page.nextCursor.value) == Some(Cursor(Last(page.entries).micros, Last(page.entries).id))
          && forall r | r in table && Wanted(r, eventType, cursor) ::
               r in page.entries || Precedes(Last(page.entries), r))
  }

  lemma PageIsCorrect(table: seq<Row>, limit: int, eventType: Option<Text>, cursor: Option<Cursor>)
    requires limit >= 1 && Table(table)
    ensures Correct(PageOf(Select(table, eventType, cursor), limit), table, limit, eventType, cursor)
  {
    hide Select, Wanted, Parse, Print;
    var selected := Select(table, eventType, cursor);
    SelectedDescend(table, eventType, cursor);
    forall r
      ensures r in selected <==> r in table && Wanted(r, eventType, cursor)
    {
      SelectedRows(table, eventType, cursor, r);
    }
    if |selected| > limit {
      var last := selected[limit - 1];
      assert last in selected && Nameable(last);
      CursorRoundTrip(Cursor(last.micros, last.id));
      forall r | r in selected
        ensures r in selected[..limit] || Precedes(last, r)
      {
        var i :| 0 <= i < |selected| && selected[i] == r;
        if i < limit {
          assert selected[..limit][i] == r;
        }
      }
    }
  }

  /** The cursor that a page of the run was asked for with. */
  ghost function Position(pages: seq<Page>, k: nat): Option<Cursor>
    requires k < |pages|
  {
    if k == 0 || pages[k - 1].nextCursor.None? then None else Parse(pages[k - 1].nextCursor.value)
  }

  lemma PagingIsCorrect(tables: seq<seq<Row>>, pages: seq<Page>, limit: int, eventType: Option<Text>, k: nat)
    requires Paging(tables, pages, limit, eventType) && k < |pages|
    ensures Correct(pages[k], tables[k], limit, eventType, Position(pages, k))
  {
    hide Correct, Select, PageOf, Parse;
    PageIsCorrect(tables[k], limit, eventType, Position(pages, k));
  }

  lemma PagingPrefix(tables: seq<seq<Row>>, pages: seq<Page>, limit: int, eventType: Option<Text>)
    requires Paging(tables, pages, limit, eventType) && |pages| > 1
    ensures Paging(tables[..|tables| - 1], pages[..|pages| - 1], limit, eventType)
  {
    hide Export, Table, Grows;
  }

  /** A cursor that the export handed out is accepted, whatever the table has become. */
  lemma NextPageExists(tables: seq<seq<Row>>, pages: seq<Page>, limit: int, eventType: Option<Text>, table: seq<Row>)
    requires Paging(tables, pages, limit, eventType) && pages[|pages| - 1].nextCursor.Some?
    ensures Export(table, limit, eventType, pages[|pages| - 1].nextCursor).Some?
  {
    hide Select, PageOf, Parse;
    PagingIsCorrect(tables, pages, limit, eventType, |pages| - 1);
  }

  lemma AppendDescends(rows: seq<Row>, more: seq<Row>)
    requires Descending(rows) && Descending(more) && rows != []
    requires forall r | r in more :: Precedes(Last(rows), r)
    ensures Descending(rows + more)
  {
    var all := rows + more;
    forall i, j | 0 <= i < j < |all|
      ensures Precedes(all[i], all[j])
    {
      if i < |rows| <= j {
        assert all[j] == more[j - |rows|] && all[j] in more;
        if i < |rows| - 1 {
          BeforeTransitive(rows[i].micros, rows[i].id, Last(rows), all[j]);
        }
      }
    }
  }

  /** What has been delivered ends with the row that the next cursor names. */
  lemma EndsAtCursor(tables: seq<seq<Row>>, pages: seq<Page>, limit: int, eventType: Option<Text>)
    requires Paging(tables, pages, limit, eventType) && pages[|pages| - 1].nextCursor.Some?
    ensures |pages[|pages| - 1].entries| == limit
    ensures Delivered(pages) != [] && pages[|pages| - 1].entries != []
    ensures Last(Delivered(pages)) == Last(pages[|pages| - 1].entries)
    ensures Parse(pages[|pages| - 1].nextCursor.value)
            == Some(Cursor(Last(Delivered(pages)).micros, Last(Delivered(pages)).id))
  {
    hide Export, Parse, Table;
    PagingIsCorrect(tables, pages, limit, eventType, |pages| - 1);
  }

  /** What has been delivered is in descending order and holds only wanted rows of the table. */
  lemma {:induction false} DeliveredInOrder(tables: seq<seq<Row>>, pages: seq<Page>, limit: int,
                                            eventType: Option<Text>)
    requires Paging(tables, pages, limit, eventType)
    ensures Descending(Delivered(pages))
    ensures forall r | r in Delivered(pages) :: r in tables[|tables| - 1] && Wanted(r, eventType, None)
  {
    var n := |pages|;
    var page := pages[n - 1];
    PagingIsCorrect(tables, pages, limit, eventType, n - 1);
    if n == 1 {
      assert Delivered(pages) == Delivered([]) + page.entries == page.entries;
    } else {
      var init := pages[..n - 1];
      PagingPrefix(tables, pages, limit, eventType);
      DeliveredInOrder(tables[..n - 1], init, limit, eventType);
      EndsAtCursor(tables[..n - 1], init, limit, eventType);
      hide Export, Parse, Less, Table, Descending, Before;
      assert pages[n - 2] == init[n - 2] && tables[n - 2] == tables[..n - 1][n - 2];
      AppendDescends(Delivered(init), page.entries);
    }
  }

  lemma {:induction false} DeliveredInFull(tables: seq<seq<Row>>, pages: seq<Page>, limit: int, eventType: Option<Text>)
    requires Paging(tables, pages, limit, eventType) && pages[|pages| - 1].nextCursor.Some?
    ensures |Delivered(pages)| == |pages| * limit
  {
    EndsAtCursor(tables, pages, limit, eventType);
    var n := |pages|;
    if n > 1 {
      PagingPrefix(tables, pages, limit, eventType);
      DeliveredInFull(tables[..n - 1], pages[..n - 1], limit, eventType);
      assert (n - 1) * limit + limit == n * limit;
    }
  }

  /** Every wanted row of the first table is delivered or still ahead of the cursor. */
  lemma {:induction false} NothingSkipped(tables: seq<seq<Row>>, pages: seq<Page>, limit: int,
                                          eventType: Option<Text>, r: Row)
    requires Paging(tables, pages, limit, eventType) && r in tables[0] && Wanted(r, eventType, None)
    ensures r in tables[|tables| - 1]
    ensures r in Delivered(pages)
            || (&& pages[|pages| - 1].nextCursor.Some?
                && pages[|pages| - 1].entries != []
                && Precedes(Last(pages[|pages| - 1].entries), r))
  {
    var n := |pages|;
    PagingIsCorrect(tables, pages, limit, eventType, n - 1);
    if n > 1 {
      PagingPrefix(tables, pages, limit, eventType);
      NothingSkipped(tables[..n - 1], pages[..n - 1], limit, eventType, r);
      PagingIsCorrect(tables, pages, limit, eventType, n - 2);
      hide Export, Parse, Less, Table, Descending;
      assert pages[n - 2] == pages[..n - 1][n - 2] && tables[n - 2] == tables[..n - 1][n - 2];
    }
  }

  /** Following the cursor to the end delivers, in descending order and so without repetition,
    * every wanted row that was there at the start; whatever else it delivers was inserted. */
  lemma ExactlyOnce(tables: seq<seq<Row>>, pages: seq<Page>, limit: int, eventType: Option<Text>)
    requires Paging(tables, pages, limit, eventType) && pages[|pages| - 1].nextCursor.None?
    ensures Descending(Delivered(pages))
    ensures forall i, j | 0 <= i < j < |Delivered(pages)| :: Delivered(pages)[i] != Delivered(pages)[j]
    ensures forall r | r in tables[0] && Wanted(r, eventType, None) :: r in Delivered(pages)
    ensures forall r | r in Delivered(pages) :: r in tables[|tables| - 1] && Wanted(r, eventType, None)
  {
    hide Export, Table, Wanted, Less;
    DeliveredInOrder(tables, pages, limit, eventType);
    DescendingIsDistinct(Delivered(pages));
    forall r | r in tables[0] && Wanted(r, eventType, None)
      ensures r in Delivered(pages)
    {
      NothingSkipped(tables, pages, limit, eventType, r);
    }
  }

  lemma DescendingIsDistinct(rows: seq<Row>)
    requires Descending(rows)
    ensures forall i, j | 0 <= i < j < |rows| :: rows[i] != rows[j]
  {
    forall i, j | 0 <= i < j < |rows|
      ensures rows[i] != rows[j]
    {
      LessIsStrict(rows[i].id, rows[j].id);
    }
  }

  lemma {:induction false} DistinctRowsFit(rows: seq<Row>, table: seq<Row>)
    requires forall i, j | 0 <= i < j < |rows| :: rows[i] != rows[j]
    requires forall r | r in rows :: r in table
    ensures |rows| <= |table|
  {
    if rows != [] {
      var last, init := Last(rows), rows[..|rows| - 1];
      assert last in rows;
      var k :| 0 <= k < |table| && table[k] == last;
      var rest := table[..k] + table[k + 1..];
      forall r | r in init
        ensures r in rest
      {
        var i :| 0 <= i < |init| && init[i] == r;
        assert rows[i] != rows[|rows| - 1];
        assert rows[i] in rows;
        var j :| 0 <= j < |table| && table[j] == r;
        assert r == if j < k then rest[j] else rest[j - 1];
      }
      DistinctRowsFit(init, rest);
    }
  }
}
