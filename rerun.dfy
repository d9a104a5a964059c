/** Running twice inserts once: a second run over the same folders finds every UUID it
    would insert already in the saved ledger. */
module Rerun {
  import opened Wrappers
  import opened Calendar
  import opened Uuid
  import opened Invoice
  import opened Ledger
  import opened Index
  import opened Duplicates
  import opened Sorting
  import opened Sorter
  import opened Reconcile
  import opened Guarantees

  /** A sheet whose A1 reads "Fecha" carries the whole header row. (`_ensure_headers`
      looks at A1 only, `_collect_uuid_positions` at all twelve headers.) */
  predicate HeadersConsistent(b: Book) {
    forall n :: n in b.sheets && A1(b.sheets[n]) == Text("Fecha") ==> b.sheets[n][0].values == HeaderValues
  }

  /** No accepted file normalises to the empty key, which the index never records. */
  predicate KeyedItems(items: seq<Item>) {
    forall i :: 0 <= i < |items| && Classify(items[i]).Accepted? ==> Classify(items[i]).key != ""
  }

  /** Some data row of a scanned sheet carries `k` in its UUID column. */
  ghost predicate Carries(b: Book, k: string) {
    exists n, i :: n in b.sheets && Indexed(b.sheets[n]) && 1 <= i < |b.sheets[n]| && KeyColumn(b.sheets[n])[i] == k
  }

  // ---------------------------------------------------------------- keys survive

  lemma PreparedKeeps(b: Book, sheet: string, k: string)
    requires Carries(b, k)
    ensures Carries(Prepared(b, sheet), k)
  {
    var n, i :| n in b.sheets && Indexed(b.sheets[n]) && 1 <= i < |b.sheets[n]| && KeyColumn(b.sheets[n])[i] == k;
    if n == sheet {
      assert A1(b.sheets[n]) == Text("Fecha");
    }
    assert Prepared(b, sheet).sheets[n] == b.sheets[n];
  }

  lemma AppendedKeeps(b: Book, sheet: string, row: Row, k: string)
    requires sheet in b.sheets && Carries(b, k)
    ensures Carries(Appended(b, sheet, row), k)
  {
    var n, i :| n in b.sheets && Indexed(b.sheets[n]) && 1 <= i < |b.sheets[n]| && KeyColumn(b.sheets[n])[i] == k;
    var rows := Appended(b, sheet, row).sheets[n];
    assert rows[i] == b.sheets[n][i] && rows[0] == b.sheets[n][0];
    assert KeyColumn(rows)[i] == UuidKey(b.sheets[n][i]) == k;
    assert Indexed(rows);
  }

  lemma FilledKeeps(b: Book, sheet: string, r: nat, rgb: string, k: string)
    requires sheet in b.sheets && 1 <= r <= |b.sheets[sheet]| && Carries(b, k)
    ensures Carries(Filled(b, sheet, r, rgb), k)
  {
    var n, i :| n in b.sheets && Indexed(b.sheets[n]) && 1 <= i < |b.sheets[n]| && KeyColumn(b.sheets[n])[i] == k;
    var rows := Filled(b, sheet, r, rgb).sheets[n];
    assert rows[i].values == b.sheets[n][i].values && rows[0].values == b.sheets[n][0].values;
    assert UuidKey(rows[i]) == UuidKey(b.sheets[n][i]);
    assert KeyColumn(rows)[i] == k;
  }

  /** The target sheet after `Prepared` has the header row, and headers stay consistent. */
  lemma PreparedHeader(b: Book, sheet: string)
    requires HeadersConsistent(b)
    ensures Prepared(b, sheet).sheets[sheet][0].values == HeaderValues
    ensures HeadersConsistent(Prepared(b, sheet))
  {
    if sheet !in b.sheets {
      WithHeadersIdempotent(Created(b, sheet), sheet);
    }
  }

  /** The key of the appended row is the run's key for it. */
  lemma RowOfKey(row: InvoiceRow)
    ensures UuidKey(RowOf(row)) == NormalizeUuid(row.uuid)
  {
    assert CellAt(RowOf(row), 5) == Text(row.uuid);
    TextCellKey(row.uuid);
  }

  /** A row appended below a full header row is a data row of a scanned sheet. */
  lemma AppendedCarriesNew(b: Book, sheet: string, r: Row, key: string)
    requires sheet in b.sheets && b.sheets[sheet] != [] && b.sheets[sheet][0].values == HeaderValues
    requires UuidKey(r) == key
    ensures Carries(Appended(b, sheet, r), key)
  {
    var rows := Appended(b, sheet, r).sheets[sheet];
    var last := |rows| - 1;
    assert rows[last] == r && rows[0] == b.sheets[sheet][0];
    assert KeyColumn(rows)[last] == key;
    assert Indexed(rows);
  }

  /** The new row's key is carried once it is appended. */
  lemma PlaceCarriesKey(s: RunState, row: InvoiceRow, key: string)
    requires HeadersConsistent(s.book) && key == NormalizeUuid(row.uuid)
    ensures Carries(Place(s, row, key, false).book, key)
  {
    var sheet := SheetName(row.date.month);
    PreparedHeader(s.book, sheet);
    var b := Prepared(s.book, sheet);
    RowOfKey(row);
    AppendedCarriesNew(b, sheet, RowOf(row), key);
    var b' := Appended(b, sheet, RowOf(row));
    if Late(row) {
      FilledKeeps(b', sheet, |b'.sheets[sheet]|, YellowRgb, key);
    }
  }

  /** Appending below a non-empty sheet leaves every header row as it was. */
  lemma AppendedKeepsHeaders(b: Book, sheet: string, row: Row)
    requires HeadersConsistent(b) && sheet in b.sheets && b.sheets[sheet] != []
    ensures HeadersConsistent(Appended(b, sheet, row))
  {
    var b' := Appended(b, sheet, row);
    forall n | n in b'.sheets && A1(b'.sheets[n]) == Text("Fecha") ensures b'.sheets[n][0].values == HeaderValues {
      if n == sheet {
        assert b'.sheets[n][0] == b.sheets[n][0];
      } else {
        assert b'.sheets[n] == b.sheets[n];
      }
    }
  }

  /** Filling a row changes no value, so no header row. */
  lemma FilledKeepsHeaders(b: Book, sheet: string, rowNumber: nat, rgb: string)
    requires HeadersConsistent(b) && sheet in b.sheets && 1 <= rowNumber <= |b.sheets[sheet]|
    ensures HeadersConsistent(Filled(b, sheet, rowNumber, rgb))
  {
    var f := Filled(b, sheet, rowNumber, rgb);
    forall n | n in f.sheets && A1(f.sheets[n]) == Text("Fecha") ensures f.sheets[n][0].values == HeaderValues {
      assert f.sheets[n][0].values == b.sheets[n][0].values;
    }
  }

  lemma PlaceKeepsHeaders(s: RunState, row: InvoiceRow, key: string)
    requires HeadersConsistent(s.book)
    ensures HeadersConsistent(Place(s, row, key, false).book)
  {
    var sheet := SheetName(row.date.month);
    PreparedHeader(s.book, sheet);
    var b := Prepared(s.book, sheet);
    AppendedKeepsHeaders(b, sheet, RowOf(row));
    var b' := Appended(b, sheet, RowOf(row));
    if Late(row) {
      FilledKeepsHeaders(b', sheet, |b'.sheets[sheet]|, YellowRgb);
    }
  }

  lemma PlaceKeeps(s: RunState, row: InvoiceRow, key: string, k: string)
    requires Carries(s.book, k)
    ensures Carries(Place(s, row, key, false).book, k)
  {
    var sheet := SheetName(row.date.month);
    var b := Prepared(s.book, sheet);
    PreparedKeeps(s.book, sheet, k);
    AppendedKeeps(b, sheet, RowOf(row), k);
    var b' := Appended(b, sheet, RowOf(row));
    if Late(row) {
      FilledKeeps(b', sheet, |b'.sheets[sheet]|, YellowRgb, k);
    }
  }

  /** What the scan keeps true: the headers are consistent, and every non-empty key
      seen so far is carried by a data row of a scanned sheet. */
  ghost predicate Tracked(s: RunState) {
    HeadersConsistent(s.book) && forall k :: k in s.seen && k != "" ==> Carries(s.book, k)
  }

  lemma PlaceTracked(s: RunState, row: InvoiceRow, key: string)
    requires Tracked(s) && key == NormalizeUuid(row.uuid)
    ensures Tracked(Place(s, row, key, false))
  {
    var r := Place(s, row, key, false);
    PlaceCarriesKey(s, row, key);
    PlaceKeepsHeaders(s, row, key);
    forall k | k in r.seen && k != "" ensures Carries(r.book, k) {
      if k != key {
        PlaceKeeps(s, row, key, k);
      }
    }
  }

  lemma StepTracked(s: RunState, item: Item)
    requires Tracked(s)
    ensures Tracked(Step(s, item, false))
  {
    var v := Classify(item);
    if v.Accepted? && v.key !in s.seen {
      PlaceTracked(s, v.row, v.key);
    }
  }

  lemma {:induction false} ScanTracked(s: RunState, items: seq<Item>)
    requires Tracked(s)
    ensures Tracked(Scan(s, items, false))
  {
    if items != [] {
      ScanTracked(s, items[..|items| - 1]);
      StepTracked(Scan(s, items[..|items| - 1], false), items[|items| - 1]);
    }
  }

  /** A step only adds to the seen keys, and (outside a dry run) adds the key of an
      accepted file. */
  lemma StepSees(s: RunState, item: Item)
    ensures s.seen <= Step(s, item, false).seen
    ensures Classify(item).Accepted? ==> Classify(item).key in Step(s, item, false).seen
  {
    var v := Classify(item);
    if v.Accepted? && v.key !in s.seen {
      assert Step(s, item, false).seen == s.seen + {v.key};
    }
  }

  /** After a scan every accepted file's key is seen. */
  lemma {:induction false} ScanSeesAll(s: RunState, items: seq<Item>, i: int)
    requires 0 <= i < |items| && Classify(items[i]).Accepted?
    ensures Classify(items[i]).key in Scan(s, items, false).seen
  {
    var init, last := items[..|items| - 1], items[|items| - 1];
    StepSees(Scan(s, init, false), last);
    if i < |items| - 1 {
      assert init[i] == items[i];
      ScanSeesAll(s, init, i);
    }
  }

  /** A file whose key is already seen, or that is rejected, only counts its error. */
  lemma StepKnown(s: RunState, item: Item, dryRun: bool)
    requires Classify(item).Accepted? ==> Classify(item).key in s.seen
    ensures Step(s, item, dryRun) ==
      s.(tally := s.tally.(errors := s.tally.errors + (if Classify(item).Rejected? then 1 else 0)))
  {
  }

  /** A scan in which every accepted key is already seen only counts errors. */
  lemma {:induction false} ScanAllKnown(s: RunState, items: seq<Item>, dryRun: bool)
    requires forall i :: 0 <= i < |items| && Classify(items[i]).Accepted? ==> Classify(items[i]).key in s.seen
    ensures Scan(s, items, dryRun) == s.(tally := s.tally.(errors := s.tally.errors + Rejections(items)))
  {
    if items != [] {
      var init, last := items[..|items| - 1], items[|items| - 1];
      assert forall i :: 0 <= i < |init| ==> init[i] == items[i];
      ScanAllKnown(s, init, dryRun);
      StepKnown(Scan(s, init, dryRun), last, dryRun);
    }
  }

  // ---------------------------------------------------------------- the ledger and its index

  /** The keys the index finds are carried by rows. */
  lemma IndexedIsCarried(b: Book, k: string)
    requires WellFormed(b) && k in IndexOf(b)
    ensures Carries(b, k) && k != ""
  {
    IndexKeys(b);
    var n :| n in b.sheets && k in SheetKeys(b.sheets[n]);
    var rows := b.sheets[n];
    var i :| 1 <= i < |rows| && KeyColumn(rows)[i] != "" && KeyColumn(rows)[i] == k;
  }

  /** A carried non-empty key is found by the index. */
  lemma CarriedIsIndexed(b: Book, k: string)
    requires WellFormed(b) && Carries(b, k) && k != ""
    ensures k in IndexOf(b)
  {
    var n, i :| n in b.sheets && Indexed(b.sheets[n]) && 1 <= i < |b.sheets[n]| && KeyColumn(b.sheets[n])[i] == k;
    IndexHasKey(b, n, i);
  }

  lemma StartTracked(b: Book)
    requires WellFormed(b) && HeadersConsistent(b)
    ensures Tracked(Start(b))
  {
    forall k | k in IndexOf(b).Keys && k != "" ensures Carries(b, k) {
      IndexedIsCarried(b, k);
    }
  }

  // ---------------------------------------------------------------- sorting keeps keys

  lemma SortSheetKeeps(rows: seq<Row>, parseCell: Cell -> Option<DateTime>, i: int)
    requires Indexed(rows) && 1 <= i < |rows|
    ensures var sorted := SortSheet(rows, parseCell);
      Indexed(sorted) && exists j :: 1 <= j < |sorted| && KeyColumn(sorted)[j] == KeyColumn(rows)[i]
  {
    SortSheetSpec(rows, parseCell, SortKey("", MaxDateTime));
    RepaintedKeepsKey(rows, SortSheet(rows, parseCell), i);
  }

  /** A header followed by the repainted data rows in any order still holds every
      data row's key. */
  lemma RepaintedKeepsKey(rows: seq<Row>, sorted: seq<Row>, i: int)
    requires |sorted| == |rows| && 1 <= i < |rows|
    requires multiset(sorted[1..]) == multiset(MapSeq(Repaint, rows[1..]))
    ensures exists j :: 1 <= j < |sorted| && KeyColumn(sorted)[j] == KeyColumn(rows)[i]
  {
    var repainted := MapSeq(Repaint, rows[1..]);
    assert repainted[i - 1] == Repaint(rows[i]);
    assert Repaint(rows[i]) in multiset(sorted[1..]);
    var j :| 0 <= j < |sorted[1..]| && sorted[1..][j] == Repaint(rows[i]);
    SameValuesSameKey(sorted[j + 1], rows[i]);
    KeyAt(sorted, j + 1);
    KeyAt(rows, i);
  }

  lemma SameValuesSameKey(a: Row, b: Row)
    requires a.values == b.values
    ensures UuidKey(a) == UuidKey(b)
  {
  }

  lemma KeyAt(rows: seq<Row>, i: int)
    requires 0 <= i < |rows|
    ensures KeyColumn(rows)[i] == UuidKey(rows[i])
  {
  }

  lemma SortBookKeeps(b: Book, parseCell: Cell -> Option<DateTime>, k: string)
    requires Carries(b, k)
    ensures Carries(SortBook(b, parseCell), k)
  {
    var n, i :| n in b.sheets && Indexed(b.sheets[n]) && 1 <= i < |b.sheets[n]| && KeyColumn(b.sheets[n])[i] == k;
    var rows := b.sheets[n];
    var after := SortBook(b, parseCell).sheets[n];
    if Sortable(n, rows) {
      SortSheetKeeps(rows, parseCell, i);
      var j :| 1 <= j < |after| && KeyColumn(after)[j] == KeyColumn(rows)[i];
    } else {
      assert after == rows;
    }
  }

  /** A reordering of rows of the right width has rows of the right width. */
  lemma PermutedWellFormed(ys: seq<Row>, xs: seq<Row>)
    requires multiset(ys) == multiset(xs) && RowsWellFormed(xs)
    ensures RowsWellFormed(ys)
  {
    forall j | 0 <= j < |ys| ensures |ys[j].values| == Width {
      assert ys[j] in multiset(xs);
    }
  }

  lemma SortSheetWellFormed(rows: seq<Row>, parseCell: Cell -> Option<DateTime>)
    requires rows != [] && RowsWellFormed(rows)
    ensures RowsWellFormed(SortSheet(rows, parseCell))
  {
    var repainted := MapSeq(Repaint, rows[1..]);
    var sorted := StableSort(repainted, KeyFn(parseCell));
    SortSheetIsStableSort(rows, parseCell);
    SortPermutes(repainted, KeyFn(parseCell));
    assert RowsWellFormed(repainted);
    PermutedWellFormed(sorted, repainted);
    assert SortSheet(rows, parseCell) == [rows[0]] + sorted;
  }

  lemma SortBookWellFormed(b: Book, parseCell: Cell -> Option<DateTime>)
    requires WellFormed(b)
    ensures WellFormed(SortBook(b, parseCell))
  {
    forall n | n in b.sheets && Sortable(n, b.sheets[n]) ensures RowsWellFormed(SortSheet(b.sheets[n], parseCell)) {
      SortSheetWellFormed(b.sheets[n], parseCell);
    }
  }

  // ---------------------------------------------------------------- the theorem

  /** The saved ledger of a run finds, in its index, every key the run saw. */
  lemma SavedIndexCoversSeen(b: Book, items: seq<Item>, parseCell: Cell -> Option<DateTime>)
    requires WellFormed(b) && HeadersConsistent(b) && KeyedItems(items)
    ensures var s := Scan(Start(b), items, false);
      var saved := SortBook(s.book, parseCell);
      WellFormed(saved)
      && forall i :: 0 <= i < |items| && Classify(items[i]).Accepted? ==> Classify(items[i]).key in IndexOf(saved)
  {
    var s := Scan(Start(b), items, false);
    var saved := SortBook(s.book, parseCell);
    StartTracked(b);
    ScanTracked(Start(b), items);
    SortBookWellFormed(s.book, parseCell);
    ScanSeesEvery(Start(b), items);
    SavedHasSeen(s, parseCell);
  }

  lemma ScanSeesEvery(s: RunState, items: seq<Item>)
    ensures forall i :: 0 <= i < |items| && Classify(items[i]).Accepted? ==>
      Classify(items[i]).key in Scan(s, items, false).seen
  {
    forall i | 0 <= i < |items| && Classify(items[i]).Accepted? ensures Classify(items[i]).key in Scan(s, items, false).seen {
      ScanSeesAll(s, items, i);
    }
  }

  /** Every non-empty key a tracked state has seen is in the index of the sorted workbook. */
  lemma SavedHasSeen(s: RunState, parseCell: Cell -> Option<DateTime>)
    requires WellFormed(s.book) && Tracked(s)
    ensures forall k :: k in s.seen && k != "" ==> k in IndexOf(SortBook(s.book, parseCell))
  {
    SortBookWellFormed(s.book, parseCell);
    forall k | k in s.seen && k != "" ensures k in IndexOf(SortBook(s.book, parseCell)) {
      SortBookKeeps(s.book, parseCell, k);
      CarriedIsIndexed(SortBook(s.book, parseCell), k);
    }
  }

  /** Running `run` a second time over the same folders, on the workbook the first run
      saved, inserts nothing, adds no warning, reports the same errors and saves the
      same workbook. */
  lemma SecondRunChangesNothing(b: Book, items: seq<Item>, parseCell: Cell -> Option<DateTime>)
    requires WellFormed(b) && HeadersConsistent(b) && KeyedItems(items)
    ensures RunOf(b, items, false, parseCell).saved.Some?
    ensures var first := RunOf(b, items, false, parseCell);
      var second := RunOf(first.saved.value, items, false, parseCell);
      second == RunResult(Outcome(0, 0, first.outcome.errors, false), first.saved)
  {
    RunPaintsNoRed(b, items, parseCell);
    var s := Scan(Start(b), items, false);
    var saved := SortBook(s.book, parseCell);
    SavedIndexCoversSeen(b, items, parseCell);
    ScanAllKnown(Start(saved), items, false);
    ErrorsAreRejections(Start(b), items, false);
    var s2 := Scan(Start(saved), items, false);
    assert s2.added == map[] && s2.book == saved;
    assert DuplicatedAmong(IndexOf(saved), s2.added, s2.added.Keys) == {};
    assert RedPositions(IndexOf(saved), s2.added) == {};
    PaintNothing(saved);
    SortBookIdempotent(s.book, parseCell);
  }
}
