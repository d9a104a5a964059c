/** Re-sorting the month sheets (`Processor._sort_all_month_sheets` with
    `_detect_row_highlight` and `_coerce_datetime`). */
module Sorter {
  import opened Wrappers
  import opened Text
  import opened Calendar
  import opened Ledger
  import opened Sorting

  /** What `_detect_row_highlight` reports: `None`, `"YELLOW"` or `"RED"`. */
  datatype Highlight = Plain | Yellow | Red

  /** `p` occurs in `s` starting at index `i`. */
  predicate OccursAt(s: string, p: string, i: int) {
    0 <= i <= |s| - |p| && s[i..i + |p|] == p
  }

  /** `p in s` on strings. */
  predicate Contains(s: string, p: string) {
    exists i :: 0 <= i <= |s| - |p| && OccursAt(s, p, i)
  }

  /** `_detect_row_highlight`: red wins over yellow; any other colour is no highlight. */
  function DetectHighlight(rgb: string): Highlight {
    var u := Upper(rgb);
    if Contains(u, RedRgb) then Red else if Contains(u, YellowRgb) then Yellow else Plain
  }

  /** The colour is read case-blind: red whenever `EF9A9A` occurs in it, yellow when only
      `FFF59D` does, no highlight otherwise. */
  lemma DetectHighlightSpec(rgb: string)
    ensures var h, u := DetectHighlight(rgb), Upper(rgb);
      && (h == Red <==> Contains(u, RedRgb))
      && (h == Yellow <==> !Contains(u, RedRgb) && Contains(u, YellowRgb))
      && (h == Plain <==> !Contains(u, RedRgb) && !Contains(u, YellowRgb))
      && DetectHighlight(u) == h
  {
    UpperHasNoLower(rgb);
    UpperIdentity(Upper(rgb));
  }

  /** The fill a rewritten row receives for its highlight. */
  function HighlightFill(h: Highlight): string {
    match h
    case Plain => ""
    case Yellow => YellowRgb
    case Red => RedRgb
  }

  lemma UpperYellow()
    ensures Upper(YellowRgb) == YellowRgb
  {
    UpperIdentity(YellowRgb);
  }

  lemma UpperRed()
    ensures Upper(RedRgb) == RedRgb
  {
    UpperIdentity(RedRgb);
  }

  /** Each highlight is read back from the fill it writes. */
  lemma HighlightRoundTrip(h: Highlight)
    ensures DetectHighlight(HighlightFill(h)) == h
  {
    match h
    case Plain =>
      assert !Contains("", RedRgb) && !Contains("", YellowRgb);
    case Yellow =>
      UpperYellow();
      assert OccursAt(YellowRgb, YellowRgb, 0);
      assert !OccursAt(YellowRgb, RedRgb, 0) by {
        assert YellowRgb[0..6][0] != RedRgb[0];
      }
    case Red =>
      UpperRed();
      assert OccursAt(RedRgb, RedRgb, 0);
  }

  /** `_coerce_datetime`: a date cell as such; a blank or empty-text cell gives `None`;
      any other cell, text or number, goes through `datetime.fromisoformat(str(value))`,
      which is the parameter `parseCell` (it gives `None` where `ValueError` is raised). */
  function CoerceDatetime(c: Cell, parseCell: Cell -> Option<DateTime>): (r: Option<DateTime>)
    ensures c.Stamp? ==> r == Some(c.at)
    ensures c.Blank? || c == Text("") ==> r == None
    ensures c.Number? || (c.Text? && c.s != "") ==> r == parseCell(c)
  {
    match c
    case Stamp(at) => Some(at)
    case Blank => None
    case Number(_) => parseCell(c)
    case Text(s) => if s == "" then None else parseCell(c)
  }

  /** `str(values[11] or "").lower()` for a text cell; "" for any other. */
  function EmployeeKey(c: Cell): string {
    if c.Text? then Lower(c.s) else ""
  }

  /** The sort key of a row: its employee in lower case, then its date, where a date
      that cannot be read is `datetime.max`, which sorts after every representable date. */
  function RowSortKey(row: Row, parseCell: Cell -> Option<DateTime>): SortKey {
    var d := CoerceDatetime(CellAt(row, 1), parseCell);
    SortKey(EmployeeKey(CellAt(row, 12)), if d.Some? then d.value else MaxDateTime)
  }

  /** One element of `data`: `(empleado, fecha_dt, values, highlight)`. */
  datatype Entry = Entry(employee: string, date: DateTime, values: seq<Cell>, highlight: Highlight)

  function EntryOf(row: Row, parseCell: Cell -> Option<DateTime>): Entry {
    var k := RowSortKey(row, parseCell);
    Entry(k.employee, k.date, row.values, DetectHighlight(row.fill))
  }

  function EntryKey(e: Entry): SortKey {
    SortKey(e.employee, e.date)
  }

  /** A data row as the rewrite leaves it: its values, and its fill reduced to its highlight. */
  function Written(e: Entry): Row {
    Row(e.values, HighlightFill(e.highlight))
  }

  function EntryFn(parseCell: Cell -> Option<DateTime>): Row -> Entry {
    (row: Row) => EntryOf(row, parseCell)
  }

  function KeyFn(parseCell: Cell -> Option<DateTime>): Row -> SortKey {
    (row: Row) => RowSortKey(row, parseCell)
  }

  /** A row with its fill replaced by the fill of its detected highlight. */
  function Repaint(row: Row): Row {
    Row(row.values, HighlightFill(DetectHighlight(row.fill)))
  }

  /** A month sheet with three or more rows: the header stays, the data rows are read,
      sorted by `(employee, date)` and written back with their highlight. */
  function SortSheet(rows: seq<Row>, parseCell: Cell -> Option<DateTime>): seq<Row>
    requires rows != []
  {
    [rows[0]] + MapSeq(Written, StableSort(MapSeq(EntryFn(parseCell), rows[1..]), EntryKey))
  }

  /** The sheets `_sort_all_month_sheets` touches: a name ending in " 2026" and at least
      one data row beyond the first. */
  predicate Sortable(name: string, rows: seq<Row>) {
    EndsWith(name, " 2026") && |rows| >= 3
  }

  function SortedSheet(name: string, rows: seq<Row>, parseCell: Cell -> Option<DateTime>): seq<Row> {
    if Sortable(name, rows) then SortSheet(rows, parseCell) else rows
  }

  /** The workbook after `_sort_all_month_sheets`. */
  function SortBook(b: Book, parseCell: Cell -> Option<DateTime>): (r: Book)
    ensures r.names == b.names && r.sheets.Keys == b.sheets.Keys
    ensures forall n :: n in b.sheets ==> r.sheets[n] == SortedSheet(n, b.sheets[n], parseCell)
  {
    Book(b.names, map n | n in b.sheets :: SortedSheet(n, b.sheets[n], parseCell))
  }

  /** The data rows after sorting are the data rows, repainted, sorted stably by key. */
  lemma SortSheetIsStableSort(rows: seq<Row>, parseCell: Cell -> Option<DateTime>)
    requires rows != []
    ensures SortSheet(rows, parseCell) ==
      [rows[0]] + StableSort(MapSeq(Repaint, rows[1..]), KeyFn(parseCell))
  {
    var data := rows[1..];
    var toEntry, key := EntryFn(parseCell), KeyFn(parseCell);
    assert forall r :: EntryKey(toEntry(r)) == key(r);
    SortMap(toEntry, data, key, EntryKey);
    var sorted := StableSort(data, key);
    assert MapSeq(Written, MapSeq(toEntry, sorted)) == MapSeq(Repaint, sorted);
    assert forall r :: key(Repaint(r)) == key(r);
    SortMap(Repaint, data, key, key);
  }

  /** What sorting a month sheet promises: the header and the number of rows stay; the
      data rows are in `(employee, date)` order, are the old data rows (with their fill
      reduced to their highlight) in some order, and rows with equal keys keep their
      order. */
  lemma SortSheetSpec(rows: seq<Row>, parseCell: Cell -> Option<DateTime>, k: SortKey)
    requires rows != []
    ensures |SortSheet(rows, parseCell)| == |rows| && SortSheet(rows, parseCell)[0] == rows[0]
    ensures SortedBy(SortSheet(rows, parseCell)[1..], KeyFn(parseCell))
    ensures multiset(SortSheet(rows, parseCell)[1..]) == multiset(MapSeq(Repaint, rows[1..]))
    ensures Filter(SortSheet(rows, parseCell)[1..], KeyFn(parseCell), k) == Filter(MapSeq(Repaint, rows[1..]), KeyFn(parseCell), k)
  {
    SortSheetIsStableSort(rows, parseCell);
    var repainted := MapSeq(Repaint, rows[1..]);
    var key := KeyFn(parseCell);
    assert SortSheet(rows, parseCell)[1..] == StableSort(repainted, key);
    SortSorted(repainted, key);
    SortPermutes(repainted, key);
    SortStable(repainted, key, k);
    assert |StableSort(repainted, key)| == |repainted| by {
      assert |multiset(StableSort(repainted, key))| == |multiset(repainted)|;
    }
  }

  lemma RepaintIdempotent(row: Row)
    ensures Repaint(Repaint(row)) == Repaint(row)
  {
    HighlightRoundTrip(DetectHighlight(row.fill));
  }

  /** Rows that are all repaintings are left alone by repainting. */
  lemma RepaintFixed(sorted: seq<Row>, xs: seq<Row>)
    requires multiset(sorted) == multiset(MapSeq(Repaint, xs))
    ensures MapSeq(Repaint, sorted) == sorted
  {
    forall i | 0 <= i < |sorted| ensures Repaint(sorted[i]) == sorted[i] {
      assert sorted[i] in multiset(sorted);
      RepaintedIsFixed(xs, sorted[i]);
    }
  }

  lemma RepaintedIsFixed(xs: seq<Row>, y: Row)
    requires y in multiset(MapSeq(Repaint, xs))
    ensures Repaint(y) == y
  {
    var repainted := MapSeq(Repaint, xs);
    var j :| 0 <= j < |repainted| && repainted[j] == y;
    RepaintIdempotent(xs[j]);
  }

  /** Sorting a sheet a second time changes nothing. */
  lemma SortSheetIdempotent(rows: seq<Row>, parseCell: Cell -> Option<DateTime>)
    requires rows != []
    ensures SortSheet(SortSheet(rows, parseCell), parseCell) == SortSheet(rows, parseCell)
  {
    var key := KeyFn(parseCell);
    var repainted := MapSeq(Repaint, rows[1..]);
    var once := SortSheet(rows, parseCell);
    SortSheetIsStableSort(rows, parseCell);
    SortSheetIsStableSort(once, parseCell);
    var sorted := StableSort(repainted, key);
    assert once[1..] == sorted;
    SortPermutes(repainted, key);
    RepaintFixed(sorted, rows[1..]);
    SortSorted(repainted, key);
    SortOfSorted(sorted, key);
  }

  /** Re-sorting the workbook changes nothing. */
  lemma SortBookIdempotent(b: Book, parseCell: Cell -> Option<DateTime>)
    ensures SortBook(SortBook(b, parseCell), parseCell) == SortBook(b, parseCell)
  {
    var once := SortBook(b, parseCell);
    var twice := SortBook(once, parseCell);
    forall n | n in b.sheets ensures twice.sheets[n] == once.sheets[n] {
      var rows := b.sheets[n];
      if Sortable(n, rows) {
        SortSheetIdempotent(rows, parseCell);
        SortSheetSpec(rows, parseCell, SortKey("", MaxDateTime));
      }
    }
  }

  /** The read loop of `_sort_all_month_sheets`: each data row with its sort key and
      highlight. */
  method ReadEntries(rows: seq<Row>, parseCell: Cell -> Option<DateTime>) returns (data: seq<Entry>)
    requires rows != []
    ensures data == MapSeq(EntryFn(parseCell), rows[1..])
  {
    data := [];
    var r := 2;
    while r <= |rows|
      invariant 2 <= r <= |rows| + 1
      invariant |data| == r - 2
      invariant forall i :: 0 <= i < |data| ==> data[i] == EntryOf(rows[i + 1], parseCell)
    {
      var row := rows[r - 1];
      var highlight := DetectHighlight(row.fill);
      var employee := EmployeeKey(CellAt(row, 12));
      var date := CoerceDatetime(CellAt(row, 1), parseCell);
      var at := if date.Some? then date.value else MaxDateTime;
      data := data + [Entry(employee, at, row.values, highlight)];
      r := r + 1;
    }
  }

  /** The write loop of `_sort_all_month_sheets`: the header, then the sorted rows with
      their highlight. */
  method WriteEntries(header: Row, sorted: seq<Entry>) returns (result: seq<Row>)
    ensures result == [header] + MapSeq(Written, sorted)
  {
    result := [header];
    var idx := 0;
    while idx < |sorted|
      invariant idx <= |sorted|
      invariant |result| == idx + 1 && result[0] == header
      invariant forall i :: 0 <= i < idx ==> result[i + 1] == Written(sorted[i])
    {
      result := result + [Row(sorted[idx].values, HighlightFill(sorted[idx].highlight))];
      idx := idx + 1;
    }
    assert result == [header] + result[1..];
  }

  /** One month sheet of `_sort_all_month_sheets`: read the data rows with their
      highlight, sort them, write them back. */
  method SortSheetRows(rows: seq<Row>, parseCell: Cell -> Option<DateTime>) returns (result: seq<Row>)
    requires |rows| >= 3
    ensures result == SortSheet(rows, parseCell)
  {
    var data := ReadEntries(rows, parseCell);
    var sorted := StableSort(data, EntryKey);
    result := WriteEntries(rows[0], sorted);
  }

  /** Sorting one sheet, as the loop body does it for each sheet name. */
  function SortStep(parseCell: Cell -> Option<DateTime>): (string, seq<Row>) -> seq<Row> {
    (name: string, rows: seq<Row>) => SortedSheet(name, rows, parseCell)
  }

  /** The sheets once `f` has been applied to the sheets of the first `k` names. */
  ghost function VisitedUpTo(b: Book, k: nat, f: (string, seq<Row>) -> seq<Row>): (r: map<string, seq<Row>>)
    requires k <= |b.names|
    ensures r.Keys == b.sheets.Keys
  {
    if k == 0 then b.sheets
    else
      var prev := VisitedUpTo(b, k - 1, f);
      var name := b.names[k - 1];
      if name in b.sheets then prev[name := f(name, b.sheets[name])] else prev
  }

  /** After `k` names, exactly the sheets named among them have been visited. */
  lemma {:induction false} VisitedUpToAt(b: Book, k: nat, f: (string, seq<Row>) -> seq<Row>)
    requires k <= |b.names| && Distinct(b.names)
    ensures forall n :: n in b.sheets ==>
      VisitedUpTo(b, k, f)[n] == (if n in b.names[..k] then f(n, b.sheets[n]) else b.sheets[n])
  {
    if k > 0 {
      VisitedUpToAt(b, k - 1, f);
      assert b.names[..k] == b.names[..k - 1] + [b.names[k - 1]];
    }
  }

  /** Visiting the next name applies `f` to that sheet, which is still untouched. */
  lemma VisitedUpToStep(b: Book, k: nat, f: (string, seq<Row>) -> seq<Row>)
    requires k < |b.names| && WellFormed(b)
    ensures b.names[k] in b.sheets && VisitedUpTo(b, k, f)[b.names[k]] == b.sheets[b.names[k]]
    ensures VisitedUpTo(b, k + 1, f) == VisitedUpTo(b, k, f)[b.names[k] := f(b.names[k], VisitedUpTo(b, k, f)[b.names[k]])]
  {
    VisitedUpToAt(b, k, f);
  }

  /** Once every name is visited, every sheet has gone through `f`. */
  lemma VisitedUpToAll(b: Book, f: (string, seq<Row>) -> seq<Row>)
    requires WellFormed(b)
    ensures VisitedUpTo(b, |b.names|, f) == map n | n in b.sheets :: f(n, b.sheets[n])
  {
    VisitedUpToAt(b, |b.names|, f);
    assert b.names[..|b.names|] == b.names;
  }

  /** Once every name is visited, the workbook is `SortBook`'s. */
  lemma SortBookVisited(b: Book, k: nat, sheets: map<string, seq<Row>>, parseCell: Cell -> Option<DateTime>)
    requires WellFormed(b) && k == |b.names| && sheets == VisitedUpTo(b, k, SortStep(parseCell))
    ensures Book(b.names, sheets) == SortBook(b, parseCell)
  {
    VisitedUpToAll(b, SortStep(parseCell));
  }

  /** One pass of the loop over `wb.sheetnames`: a month sheet with at least two data
      rows is sorted, any other sheet is left as it is. */
  method SortOneSheet(name: string, rows: seq<Row>, parseCell: Cell -> Option<DateTime>) returns (result: seq<Row>)
    ensures result == SortStep(parseCell)(name, rows)
  {
    if EndsWith(name, " 2026") && |rows| >= 3 {
      result := SortSheetRows(rows, parseCell);
    } else {
      result := rows;
    }
  }

  /** The loop of `Processor._sort_all_month_sheets`: visits the sheets in workbook
      order and sorts every month sheet with at least two data rows. */
  method SortSheets(b: Book, parseCell: Cell -> Option<DateTime>) returns (sheets: map<string, seq<Row>>)
    requires WellFormed(b)
    ensures Book(b.names, sheets) == SortBook(b, parseCell)
  {
    ghost var f := SortStep(parseCell);
    sheets := b.sheets;
    var k := 0;
    while k < |b.names|
      invariant k <= |b.names| && sheets == VisitedUpTo(b, k, f)
    {
      VisitedUpToStep(b, k, f);
      var name := b.names[k];
      var rows := SortOneSheet(name, sheets[name], parseCell);
      sheets := sheets[name := rows];
      k := k + 1;
    }
    SortBookVisited(b, k, sheets, parseCell);
  }

  /** `Processor._sort_all_month_sheets`. */
  method SortAllMonthSheets(wb: Workbook, parseCell: Cell -> Option<DateTime>)
    requires WellFormed(wb.View())
    modifies wb
    ensures wb.View() == SortBook(old(wb.View()), parseCell)
  {
    var sheets := SortSheets(wb.View(), parseCell);
    wb.sheets := sheets;
  }
}
