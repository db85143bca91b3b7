/** When the paged export of the audit log ends (src/db/mod.rs). */
module ExportEnd {
  import opened Schema
  import opened CursorText
  import opened TextOrder
  import opened AuditExport

  /** The rows of a list that are not in the table. */
  function NotIn(rows: seq<Row>, table: seq<Row>): seq<Row> {
    if rows == [] then []
    else if rows[0] in table then NotIn(rows[1..], table)
    else [rows[0]] + NotIn(rows[1..], table)
  }

  lemma {:induction false} NotInHolds(rows: seq<Row>, table: seq<Row>, r: Row)
    ensures r in NotIn(rows, table) <==> r in rows && r !in table
  {
    if rows != [] {
      NotInHolds(rows[1..], table, r);
      assert r in rows <==> r == rows[0] || r in rows[1..];
    }
  }

  lemma {:induction false} NoneNotIn(rows: seq<Row>, table: seq<Row>)
    requires forall r | r in rows :: r in table
    ensures NotIn(rows, table) == []
  {
    if rows != [] {
      NoneNotIn(rows[1..], table);
    }
  }

  /** The wanted rows that were inserted behind a cursor, between the page that handed it out and
    * the next. */
  ghost function Late(tables: seq<seq<Row>>, pages: seq<Page>, eventType: Option<Text>): seq<Row>
    requires |tables| == |pages|
  {
    var n := |pages|;
    if n <= 1 then []
    else Late(tables[..n - 1], pages[..n - 1], eventType)
         + NotIn(Select(tables[n - 1], eventType, Position(pages, n - 1)), tables[n - 2])
  }

  /** What is behind the cursor was there at the start or came late. */
  lemma {:induction false} BehindCursor(tables: seq<seq<Row>>, pages: seq<Page>, limit: int, eventType: Option<Text>,
                                        r: Row)
    requires Paging(tables, pages, limit, eventType)
    requires r in tables[|tables| - 1] && Wanted(r, eventType, Position(pages, |pages| - 1))
    ensures r in Select(tables[0], eventType, None) || r in Late(tables, pages, eventType)
  {
    var n := |pages|;
    if n == 1 {
      SelectedRows(tables[0], eventType, None, r);
    } else if r in tables[n - 2] {
      PagingPrefix(tables, pages, limit, eventType);
      PagingIsCorrect(tables, pages, limit, eventType, n - 2);
      StillBehind(pages[n - 2], tables[n - 2], limit, eventType, Position(pages, n - 2), r);
      hide Select, Parse, Wanted;
      assert Position(pages[..n - 1], n - 2) == Position(pages, n - 2);
      BehindCursor(tables[..n - 1], pages[..n - 1], limit, eventType, r);
    } else {
      SelectedRows(tables[n - 1], eventType, Position(pages, n - 1), r);
      NotInHolds(Select(tables[n - 1], eventType, Position(pages, n - 1)), tables[n - 2], r);
    }
  }

  /** Whatever is behind the last row of a page is behind the cursor of the page. */
  lemma StillBehind(page: Page, table: seq<Row>, limit: int, eventType: Option<Text>, cursor: Option<Cursor>, r: Row)
    requires Correct(page, table, limit, eventType, cursor) && page.nextCursor.Some?
    requires Wanted(r, eventType, Parse(page.nextCursor.value))
    ensures Wanted(r, eventType, cursor)
  {
    var last := Last(page.entries);
    assert last in page.entries;
    if cursor.Some? {
      BeforeTransitive(cursor.value.micros, cursor.value.id, last, r);
    }
  }

  lemma {:induction false} DeliveredWasThereOrLate(tables: seq<seq<Row>>, pages: seq<Page>, limit: int,
                                                   eventType: Option<Text>, r: Row)
    requires Paging(tables, pages, limit, eventType) && r in Delivered(pages)
    ensures r in Select(tables[0], eventType, None) || r in Late(tables, pages, eventType)
  {
    var n := |pages|;
    PagingIsCorrect(tables, pages, limit, eventType, n - 1);
    if r in pages[n - 1].entries {
      BehindCursor(tables, pages, limit, eventType, r);
    } else if n > 1 {
      PagingPrefix(tables, pages, limit, eventType);
      DeliveredWasThereOrLate(tables[..n - 1], pages[..n - 1], limit, eventType, r);
    }
  }

  /** What the export has to deliver: the wanted rows of the start, then the late ones. */
  ghost function Due(tables: seq<seq<Row>>, pages: seq<Page>, eventType: Option<Text>): seq<Row>
    requires |tables| == |pages| > 0
  {
    Select(tables[0], eventType, None) + Late(tables, pages, eventType)
  }

  ghost predicate Distinct(rows: seq<Row>) {
    forall i, j | 0 <= i < j < |rows| :: rows[i] != rows[j]
  }

  lemma {:induction false} NotInDistinct(rows: seq<Row>, table: seq<Row>)
    requires Distinct(rows)
    ensures Distinct(NotIn(rows, table))
  {
    if rows != [] {
      var rest := NotIn(rows[1..], table);
      NotInDistinct(rows[1..], table);
      forall i | 0 <= i < |rest|
        ensures rows[0] != rest[i]
      {
        NotInHolds(rows[1..], table, rest[i]);
        var j :| 0 <= j < |rows[1..]| && rows[1..][j] == rest[i];
        assert rows[j + 1] == rest[i];
      }
    }
  }

  lemma DisjointDistinct(a: seq<Row>, b: seq<Row>)
    requires Distinct(a) && Distinct(b) && forall r | r in a :: r !in b
    ensures Distinct(a + b)
  {
    var all := a + b;
    forall i, j | 0 <= i < j < |all|
      ensures all[i] != all[j]
    {
      if i < |a| <= j {
        assert all[i] in a && all[j] in b;
      }
    }
  }

  lemma SelectDistinct(rows: seq<Row>, eventType: Option<Text>, cursor: Option<Cursor>)
    requires Table(rows)
    ensures Distinct(Select(rows, eventType, cursor))
  {
    SelectedDescend(rows, eventType, cursor);
    DescendingIsDistinct(Select(rows, eventType, cursor));
  }

  lemma {:induction false} RowsStay(tables: seq<seq<Row>>, pages: seq<Page>, limit: int, eventType: Option<Text>,
                                    r: Row)
    requires Paging(tables, pages, limit, eventType) && r in tables[0]
    ensures r in tables[|tables| - 1]
  {
    var n := |tables|;
    if n > 1 {
      hide Export, Table;
      PagingPrefix(tables, pages, limit, eventType);
      RowsStay(tables[..n - 1], pages[..n - 1], limit, eventType, r);
      assert Grows(tables[n - 2], tables[n - 2 + 1]);
    }
  }

  /** Rows that come late come once, were not there at the start, and stay. */
  lemma {:induction false} LateIsNew(tables: seq<seq<Row>>, pages: seq<Page>, limit: int, eventType: Option<Text>)
    requires Paging(tables, pages, limit, eventType)
    ensures Distinct(Late(tables, pages, eventType))
    ensures forall r | r in Late(tables, pages, eventType) :: r !in tables[0] && r in tables[|tables| - 1]
  {
    var n := |pages|;
    if n > 1 {
      hide Export, Select, Wanted, Distinct, Parse, Table;
      var behind := Select(tables[n - 1], eventType, Position(pages, n - 1));
      var earlier, now := Late(tables[..n - 1], pages[..n - 1], eventType), NotIn(behind, tables[n - 2]);
      PagingPrefix(tables, pages, limit, eventType);
      LateIsNew(tables[..n - 1], pages[..n - 1], limit, eventType);
      SelectDistinct(tables[n - 1], eventType, Position(pages, n - 1));
      NotInDistinct(behind, tables[n - 2]);
      assert Grows(tables[n - 2], tables[n - 2 + 1]);
      forall r | r in now
        ensures r !in tables[n - 2] && r in tables[n - 1] && r !in tables[0]
      {
        NotInHolds(behind, tables[n - 2], r);
        SelectedRows(tables[n - 1], eventType, Position(pages, n - 1), r);
        if r in tables[0] {
          RowsStay(tables[..n - 1], pages[..n - 1], limit, eventType, r);
        }
      }
      DisjointDistinct(earlier, now);
    }
  }

  lemma DueDistinct(tables: seq<seq<Row>>, pages: seq<Page>, limit: int, eventType: Option<Text>)
    requires Paging(tables, pages, limit, eventType)
    ensures Distinct(Due(tables, pages, eventType))
  {
    hide Export, Select, Wanted, Distinct, Late, Table;
    LateIsNew(tables, pages, limit, eventType);
    SelectDistinct(tables[0], eventType, None);
    forall r | r in Select(tables[0], eventType, None)
      ensures r !in Late(tables, pages, eventType)
    {
      SelectedRows(tables[0], eventType, None, r);
    }
    DisjointDistinct(Select(tables[0], eventType, None), Late(tables, pages, eventType));
  }

  /** A late row, too, is delivered or still ahead of the cursor. */
  lemma {:induction false} LateIsNotSkipped(tables: seq<seq<Row>>, pages: seq<Page>, limit: int,
                                            eventType: Option<Text>, r: Row)
    requires Paging(tables, pages, limit, eventType) && r in Late(tables, pages, eventType)
    ensures r in tables[|tables| - 1]
    ensures r in Delivered(pages)
            || (&& pages[|pages| - 1].nextCursor.Some?
                && Wanted(r, eventType, Parse(pages[|pages| - 1].nextCursor.value)))
  {
    var n := |pages|;
    PagingIsCorrect(tables, pages, limit, eventType, n - 1);
    PagingPrefix(tables, pages, limit, eventType);
    var behind := Select(tables[n - 1], eventType, Position(pages, n - 1));
    if r in Late(tables[..n - 1], pages[..n - 1], eventType) {
      LateIsNotSkipped(tables[..n - 1], pages[..n - 1], limit, eventType, r);
      assert Grows(tables[n - 2], tables[n - 2 + 1]);
    } else {
      NotInHolds(behind, tables[n - 2], r);
      SelectedRows(tables[n - 1], eventType, Position(pages, n - 1), r);
    }
    hide Export, Parse, Less, Table, Descending, Select, Late;
    assert pages[n - 2] == pages[..n - 1][n - 2] && tables[n - 2] == tables[..n - 1][n - 2];
  }

  /** An export that has ended has delivered, once each, the wanted rows of the start and the late
    * ones, and nothing else. */
  lemma EndedDeliversDue(tables: seq<seq<Row>>, pages: seq<Page>, limit: int, eventType: Option<Text>)
    requires Paging(tables, pages, limit, eventType) && pages[|pages| - 1].nextCursor.None?
    ensures forall r :: r in Delivered(pages) <==> r in Due(tables, pages, eventType)
    ensures |Delivered(pages)| == |Due(tables, pages, eventType)|
  {
    hide Export, Table, Wanted, Less, Select, Late, Parse, Descending;
    DeliveredInOrder(tables, pages, limit, eventType);
    DescendingIsDistinct(Delivered(pages));
    DueDistinct(tables, pages, limit, eventType);
    forall r
      ensures r in Delivered(pages) <==> r in Due(tables, pages, eventType)
    {
      if r in Delivered(pages) {
        DeliveredWasThereOrLate(tables, pages, limit, eventType, r);
      } else if r in Late(tables, pages, eventType) {
        LateIsNotSkipped(tables, pages, limit, eventType, r);
      } else if r in Select(tables[0], eventType, None) {
        SelectedRows(tables[0], eventType, None, r);
        NothingSkipped(tables, pages, limit, eventType, r);
      }
    }
    DistinctRowsFit(Delivered(pages), Due(tables, pages, eventType));
    DistinctRowsFit(Due(tables, pages, eventType), Delivered(pages));
  }

  lemma LastPageFits(tables: seq<seq<Row>>, pages: seq<Page>, limit: int, eventType: Option<Text>)
    requires Paging(tables, pages, limit, eventType)
    ensures |pages[|pages| - 1].entries| <= limit
  {
    hide Select, Parse, Table, Print;
    var n := |pages|;
    if n > 1 {
      assert Export(tables[n - 2 + 1], limit, eventType, pages[n - 2].nextCursor) == Some(pages[n - 2 + 1]);
    }
  }

  lemma DeliveredAtMost(tables: seq<seq<Row>>, pages: seq<Page>, limit: int, eventType: Option<Text>)
    requires Paging(tables, pages, limit, eventType)
    ensures |Delivered(pages)| <= |pages| * limit
  {
    hide Export, Table;
    var n := |pages|;
    LastPageFits(tables, pages, limit, eventType);
    if n > 1 {
      PagingPrefix(tables, pages, limit, eventType);
      DeliveredInFull(tables[..n - 1], pages[..n - 1], limit, eventType);
      assert (n - 1) * limit + limit == n * limit;
    }
  }

  /** A page hands out a cursor only if the row after it was there. */
  lemma CursorLeavesARow(tables: seq<seq<Row>>, pages: seq<Page>, limit: int, eventType: Option<Text>) returns (r: Row)
    requires Paging(tables, pages, limit, eventType) && pages[|pages| - 1].nextCursor.Some?
    ensures r in tables[|tables| - 1] && Wanted(r, eventType, Position(pages, |pages| - 1))
    ensures pages[|pages| - 1].entries != [] && Precedes(Last(pages[|pages| - 1].entries), r)
  {
    hide Select, Parse, Print, Wanted;
    var n := |pages|;
    var selected := Select(tables[n - 1], eventType, Position(pages, n - 1));
    if n > 1 {
      assert Export(tables[n - 2 + 1], limit, eventType, pages[n - 2].nextCursor) == Some(pages[n - 2 + 1]);
    }
    assert pages[n - 1] == PageOf(selected, limit);
    SelectedDescend(tables[n - 1], eventType, Position(pages, n - 1));
    r := selected[limit];
    SelectedRows(tables[n - 1], eventType, Position(pages, n - 1), r);
  }

  /** Exactly when paging goes on: after any number of pages the export hands out a cursor if and
    * only if those pages could not hold the wanted rows of the start and those that have come late. */
  lemma GoesOnIff(tables: seq<seq<Row>>, pages: seq<Page>, limit: int, eventType: Option<Text>)
    requires Paging(tables, pages, limit, eventType)
    ensures pages[|pages| - 1].nextCursor.Some?
            <==> |pages| * limit < |Select(tables[0], eventType, None)| + |Late(tables, pages, eventType)|
  {
    hide Paging, Select, Late, Delivered, Descending, Wanted;
    PagingIsAligned(tables, pages, limit, eventType);
    if pages[|pages| - 1].nextCursor.Some? {
      DeliveredInFull(tables, pages, limit, eventType);
      OneMoreIsDue(tables, pages, limit, eventType);
    } else {
      EndedDeliversDue(tables, pages, limit, eventType);
      DeliveredAtMost(tables, pages, limit, eventType);
    }
  }

  /** So no export has more pages than the rows of the start and the late ones fill, or one. */
  lemma PagesAreBounded(tables: seq<seq<Row>>, pages: seq<Page>, limit: int, eventType: Option<Text>)
    requires Paging(tables, pages, limit, eventType)
    ensures var due := |Select(tables[0], eventType, None)| + |Late(tables, pages, eventType)|;
            && (pages[|pages| - 1].nextCursor.Some? ==> |pages| * limit < due)
            && (|pages| > 1 ==> (|pages| - 1) * limit < due)
  {
    hide Export, Select, Table;
    GoesOnIff(tables, pages, limit, eventType);
    var n := |pages|;
    if n > 1 {
      PagingPrefix(tables, pages, limit, eventType);
      GoesOnIff(tables[..n - 1], pages[..n - 1], limit, eventType);
      assert pages[n - 2].nextCursor.Some?;
    }
  }

  lemma OneMoreIsDue(tables: seq<seq<Row>>, pages: seq<Page>, limit: int, eventType: Option<Text>)
    requires Paging(tables, pages, limit, eventType) && pages[|pages| - 1].nextCursor.Some?
    ensures |Delivered(pages)| < |Due(tables, pages, eventType)|
  {
    hide Export, Table, Wanted, Select, Late, Parse, Before;
    var r := CursorLeavesARow(tables, pages, limit, eventType);
    EndsAtCursor(tables, pages, limit, eventType);
    DeliveredInOrder(tables, pages, limit, eventType);
    AppendDescends(Delivered(pages), [r]);
    DescendingIsDistinct(Delivered(pages) + [r]);
    BehindCursor(tables, pages, limit, eventType, r);
    forall x | x in Delivered(pages) + [r]
      ensures x in Due(tables, pages, eventType)
    {
      if x in Delivered(pages) {
        DeliveredWasThereOrLate(tables, pages, limit, eventType, x);
      }
    }
    DistinctRowsFit(Delivered(pages) + [r], Due(tables, pages, eventType));
  }

  /** No row becomes visible behind the cursor of the page before it. A row carries the time at which
    * its transaction began, so one can: when that transaction began before the cursor's row and
    * committed after the page. */
  ghost predicate NothingLate(tables: seq<seq<Row>>, pages: seq<Page>, eventType: Option<Text>)
    requires |tables| == |pages|
  {
    forall k | 0 < k < |pages| :: NothingLateAt(tables, pages, eventType, k)
  }

  ghost predicate NothingLateAt(tables: seq<seq<Row>>, pages: seq<Page>, eventType: Option<Text>, k: nat)
    requires 0 < k < |pages| == |tables|
  {
    forall r | r in tables[k] && Wanted(r, eventType, Position(pages, k)) :: r in tables[k - 1]
  }

  lemma {:induction false} NothingLateAdds(tables: seq<seq<Row>>, pages: seq<Page>, eventType: Option<Text>)
    requires |tables| == |pages| && NothingLate(tables, pages, eventType)
    ensures Late(tables, pages, eventType) == []
  {
    var n := |pages|;
    if n > 1 {
      var behind := Select(tables[n - 1], eventType, Position(pages, n - 1));
      assert NothingLateAt(tables, pages, eventType, n - 1);
      forall r | r in behind
        ensures r in tables[n - 2]
      {
        SelectedRows(tables[n - 1], eventType, Position(pages, n - 1), r);
      }
      NoneNotIn(behind, tables[n - 2]);
      PrefixNothingLate(tables, pages, eventType);
      NothingLateAdds(tables[..n - 1], pages[..n - 1], eventType);
    }
  }

  lemma PrefixNothingLate(tables: seq<seq<Row>>, pages: seq<Page>, eventType: Option<Text>)
    requires |tables| == |pages| > 1 && NothingLate(tables, pages, eventType)
    ensures NothingLate(tables[..|tables| - 1], pages[..|pages| - 1], eventType)
  {
    hide Wanted, Parse;
    var n := |pages| - 1;
    forall k | 0 < k < n
      ensures NothingLateAt(tables[..n], pages[..n], eventType, k)
    {
      assert NothingLateAt(tables, pages, eventType, k);
      assert Position(pages[..n], k) == Position(pages, k);
    }
  }

  /** With nothing late, the export hands out a cursor exactly until its pages can hold the rows
    * wanted at the start, so it ends. */
  lemma PagingEnds(tables: seq<seq<Row>>, pages: seq<Page>, limit: int, eventType: Option<Text>)
    requires Paging(tables, pages, limit, eventType)
    requires NothingLate(tables, pages, eventType)
    ensures pages[|pages| - 1].nextCursor.Some? <==> |pages| * limit < |Select(tables[0], eventType, None)|
  {
    hide Paging, Select, Late, NothingLate;
    PagingIsAligned(tables, pages, limit, eventType);
    GoesOnIff(tables, pages, limit, eventType);
    NothingLateAdds(tables, pages, eventType);
  }

  lemma PagingIsAligned(tables: seq<seq<Row>>, pages: seq<Page>, limit: int, eventType: Option<Text>)
    requires Paging(tables, pages, limit, eventType)
    ensures |tables| == |pages| > 0
  {
  }

  /** One row per microsecond, back in time. */
  function Rung(k: nat): Row {
    Row(Digits(k), 0, -(k as int))
  }

  function Ladder(n: nat): seq<Row> {
    seq(n, k requires 0 <= k < n => Rung(k))
  }

  lemma LadderIsTable(n: nat)
    requires n <= I64_MAX
    ensures Table(Ladder(n))
  {
    forall r | r in Ladder(n)
      ensures Nameable(r)
    {
      var k :| 0 <= k < n && Ladder(n)[k] == r;
      DigitsRoundTrip(k);
      assert !IsDigit(':');
    }
  }

  lemma {:induction false} SelectSuffix(rows: seq<Row>, eventType: Option<Text>, cursor: Option<Cursor>, j: nat)
    requires j <= |rows|
    requires forall i | 0 <= i < |rows| :: Wanted(rows[i], eventType, cursor) <==> i >= j
    ensures Select(rows, eventType, cursor) == rows[j..]
  {
    if rows != [] {
      SelectSuffix(rows[1..], eventType, cursor, if j == 0 then 0 else j - 1);
    }
  }

  function RungPage(k: nat): Page {
    Page([Rung(k)], Some(Print(Cursor(-(k as int), Digits(k)))))
  }

  lemma LadderPage(k: nat)
    requires k + 2 <= I64_MAX
    ensures Export(Ladder(k + 2), 1, None, if k == 0 then None else RungPage(k - 1).nextCursor) == Some(RungPage(k))
  {
    hide Print, Parse, Less;
    var rows := Ladder(k + 2);
    var cursor := if k == 0 then None else Some(Cursor(1 - k, Digits(k - 1)));
    if k > 0 {
      DigitsRoundTrip(k - 1);
      assert !IsDigit(':');
      CursorRoundTrip(cursor.value);
      LessIsStrict(Digits(k - 1), Digits(k - 1));
    }
    SelectSuffix(rows, None, cursor, k);
    assert rows[k..][..1] == [Rung(k)];
  }

  /** Otherwise paging need not end: here a row comes late before every page, and for every `n`
    * all of `n` pages hand out a cursor although two rows were there at the start. */
  lemma PagingNeedNotEnd(n: nat)
    requires 1 <= n <= I64_MAX - 1
    ensures exists tables: seq<seq<Row>>, pages: seq<Page> ::
              && Paging(tables, pages, 1, None)
              && |pages| == n
              && |tables[0]| == 2
              && pages[n - 1].nextCursor.Some?
  {
    hide Export, Print;
    var tables := seq(n, k requires 0 <= k < n => Ladder(k + 2));
    var pages := seq(n, k requires 0 <= k < n => RungPage(k));
    forall k | 0 <= k < n
      ensures Table(tables[k])
    {
      LadderIsTable(k + 2);
    }
    LadderPage(0);
    forall k | 0 <= k < n - 1
      ensures pages[k].nextCursor.Some? && Grows(tables[k], tables[k + 1])
      ensures Export(tables[k + 1], 1, None, pages[k].nextCursor) == Some(pages[k + 1])
    {
      LadderGrows(k + 2);
      LadderPage(k + 1);
    }
    assert Paging(tables, pages, 1, None);
  }

  lemma LadderGrows(n: nat)
    ensures Grows(Ladder(n), Ladder(n + 1))
  {
    forall r | r in Ladder(n)
      ensures r in Ladder(n + 1)
    {
      var k :| 0 <= k < n && Ladder(n)[k] == r;
      assert Ladder(n + 1)[k] == r;
    }
  }
}
