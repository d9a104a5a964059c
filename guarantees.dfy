/** What a run promises: rejected files only count as errors, known UUIDs are never
    inserted again, a dry run writes nothing, the only highlights a run paints are the
    yellow ones for files filed under the wrong month, and a second run over the same
    folders inserts nothing and saves the same workbook. */
module Guarantees {
  import opened Wrappers
  import opened Text
  import opened Calendar
  import opened Uuid
  import opened Invoice
  import opened Ledger
  import opened Index
  import opened Duplicates
  import opened Sorting
  import opened Sorter
  import opened Reconcile

  // ---------------------------------------------------------------- one file

  /** A file that fails to parse, is dated outside 2026 or has no UUID only adds an error. */
  lemma RejectedOnlyCountsError(s: RunState, item: Item, dryRun: bool)
    requires var r := InvoiceOf(item.file, item.employee, item.sourceMonth);
      r.Err? || r.value.date.year != TargetYear || r.value.uuid == ""
    ensures Step(s, item, dryRun) == s.(tally := s.tally.(errors := s.tally.errors + 1))
  {
  }

  /** A file whose UUID key is already seen (in the ledger or earlier in the run)
      changes nothing at all. */
  lemma KnownKeySkipped(s: RunState, item: Item, dryRun: bool)
    requires Classify(item).Accepted? && Classify(item).key in s.seen
    ensures Step(s, item, dryRun) == s
  {
  }

  /** The number of files among `items` that the checks reject. */
  function Rejections(items: seq<Item>): (n: nat)
    ensures n <= |items|
  {
    if items == [] then 0
    else Rejections(items[..|items| - 1]) + (if Classify(items[|items| - 1]).Rejected? then 1 else 0)
  }

  /** The error counter counts exactly the rejected files, in either mode. */
  lemma {:induction false} ErrorsAreRejections(s: RunState, items: seq<Item>, dryRun: bool)
    ensures Scan(s, items, dryRun).tally.errors == s.tally.errors + Rejections(items)
  {
    if items != [] {
      ErrorsAreRejections(s, items[..|items| - 1], dryRun);
    }
  }

  /** Each file adds at most one insertion or one error. */
  lemma {:induction false} CountsBounded(s: RunState, items: seq<Item>, dryRun: bool)
    ensures Scan(s, items, dryRun).tally.inserted + Scan(s, items, dryRun).tally.errors <=
      s.tally.inserted + s.tally.errors + |items|
  {
    if items != [] {
      CountsBounded(s, items[..|items| - 1], dryRun);
    }
  }

  // ---------------------------------------------------------------- dry run

  /** In a dry run no file is inserted, highlighted or remembered. */
  lemma {:induction false} DryScanInsertsNothing(s: RunState, items: seq<Item>)
    ensures var r := Scan(s, items, true);
      r.seen == s.seen && r.added == s.added
      && r.tally.inserted == s.tally.inserted && r.tally.warnings == s.tally.warnings
  {
    if items != [] {
      DryScanInsertsNothing(s, items[..|items| - 1]);
    }
  }

  /** `run(dry_run=True)`: zero insertions and warnings, the rejected files as errors,
      and nothing saved. */
  lemma DryRunSavesNothing(b: Book, items: seq<Item>, parseCell: Cell -> Option<DateTime>)
    ensures RunOf(b, items, true, parseCell) == RunResult(Outcome(0, 0, Rejections(items), true), None)
  {
    DryScanInsertsNothing(Start(b), items);
    ErrorsAreRejections(Start(b), items, true);
  }

  // ---------------------------------------------------------------- no red within a run

  /** What the scan keeps true of `new_uuid_positions`: every key in it was unseen when
      it was inserted, so it is not in the ledger, sits in exactly one row, and the
      insertion counter is the number of keys. */
  predicate FreshInsertions(existing: Positions, s: RunState) {
    && existing.Keys <= s.seen
    && s.added.Keys <= s.seen
    && (forall k :: k in s.added ==> k !in existing && |s.added[k]| == 1)
    && s.tally.inserted == |s.added.Keys|
  }

  lemma PlaceKeepsFresh(existing: Positions, s: RunState, row: InvoiceRow, key: string)
    requires FreshInsertions(existing, s) && key !in s.seen
    ensures FreshInsertions(existing, Place(s, row, key, false))
  {
    PlaceRecords(s, row, key);
    var p :| Place(s, row, key, false).added == Record(s.added, key, p);
    RecordKeepsFresh(existing, s, Place(s, row, key, false), key, p);
  }

  /** An insertion marks its key seen, records one position for it, and counts. */
  lemma PlaceRecords(s: RunState, row: InvoiceRow, key: string)
    ensures var r := Place(s, row, key, false);
      r.seen == s.seen + {key} && r.tally.inserted == s.tally.inserted + 1
      && exists p :: r.added == Record(s.added, key, p)
  {
    var sheet := SheetName(row.date.month);
    var b := Appended(Prepared(s.book, sheet), sheet, RowOf(row));
    assert Place(s, row, key, false).added == Record(s.added, key, Position(sheet, |b.sheets[sheet]|));
  }

  lemma RecordKeepsFresh(existing: Positions, s: RunState, r: RunState, key: string, p: Position)
    requires FreshInsertions(existing, s) && key !in s.seen
    requires r.seen == s.seen + {key} && r.added == Record(s.added, key, p)
    requires r.tally.inserted == s.tally.inserted + 1
    ensures FreshInsertions(existing, r)
  {
    assert r.added.Keys == s.added.Keys + {key};
    assert |r.added.Keys| == |s.added.Keys| + 1;
  }

  lemma StepKeepsFresh(existing: Positions, s: RunState, item: Item, dryRun: bool)
    requires FreshInsertions(existing, s)
    ensures FreshInsertions(existing, Step(s, item, dryRun))
  {
    var v := Classify(item);
    if v.Accepted? && v.key !in s.seen && !dryRun {
      PlaceKeepsFresh(existing, s, v.row, v.key);
    }
  }

  lemma {:induction false} ScanKeepsFresh(existing: Positions, s: RunState, items: seq<Item>, dryRun: bool)
    requires FreshInsertions(existing, s)
    ensures FreshInsertions(existing, Scan(s, items, dryRun))
  {
    if items != [] {
      ScanKeepsFresh(existing, s, items[..|items| - 1], dryRun);
      StepKeepsFresh(existing, Scan(s, items[..|items| - 1], dryRun), items[|items| - 1], dryRun);
    }
  }

  /** Since a key already seen is never inserted again, `_apply_duplicates` finds
      nothing to do after a scan: the run counts no duplicate, paints nothing red, and
      saves the scanned workbook sorted. */
  lemma RunPaintsNoRed(b: Book, items: seq<Item>, parseCell: Cell -> Option<DateTime>)
    ensures var s := Scan(Start(b), items, false);
      RunOf(b, items, false, parseCell) ==
        RunResult(Outcome(s.tally.inserted, s.tally.warnings, s.tally.errors, false),
                  Some(SortBook(s.book, parseCell)))
  {
    var existing := IndexOf(b);
    ScanKeepsFresh(existing, Start(b), items, false);
    FinishPaintsNoRed(existing, Scan(Start(b), items, false), parseCell);
  }

  lemma FinishPaintsNoRed(existing: Positions, s: RunState, parseCell: Cell -> Option<DateTime>)
    requires FreshInsertions(existing, s)
    ensures Finish(existing, s, false, parseCell) ==
      RunResult(Outcome(s.tally.inserted, s.tally.warnings, s.tally.errors, false),
                Some(SortBook(s.book, parseCell)))
  {
    NoDuplicatesAmongFresh(existing, s.added);
    PaintNothing(s.book);
  }

  /** The run inserts one row per distinct new key. */
  lemma InsertedAreDistinctKeys(b: Book, items: seq<Item>, parseCell: Cell -> Option<DateTime>)
    ensures var s := Scan(Start(b), items, false);
      RunOf(b, items, false, parseCell).outcome.inserted == |s.added.Keys|
      && (forall k :: k in s.added ==> k !in IndexOf(b) && |s.added[k]| == 1)
  {
    ScanKeepsFresh(IndexOf(b), Start(b), items, false);
  }

  // ---------------------------------------------------------------- yellow

  /** The folder month and the date month differ exactly when `Late` says so. */
  lemma LateIffMonthsDiffer(row: InvoiceRow, folder: Month)
    requires row.sourceMonth == MonthKey(folder)
    ensures Late(row) <==> folder != row.date.month
  {
    SameMonthName(folder, row.date.month);
  }

  /** Inserting a row: it lands last in the month sheet of its date, yellow when late. */
  lemma PlaceAppends(s: RunState, row: InvoiceRow, key: string)
    ensures var sheet := SheetName(row.date.month);
      var r := Place(s, row, key, false);
      var rows := r.book.sheets[sheet];
      && sheet in r.book.sheets && |rows| >= 2
      && rows[|rows| - 1].values == RowOf(row).values
      && rows[|rows| - 1].fill == (if Late(row) then YellowRgb else "")
      && r.tally.warnings == s.tally.warnings + (if Late(row) then 1 else 0)
      && r.tally.inserted == s.tally.inserted + 1 && r.tally.errors == s.tally.errors
      && r.seen == s.seen + {key}
      && r.added == Record(s.added, key, Position(sheet, |rows|))
      && r.book.sheets.Keys == s.book.sheets.Keys + {sheet}
      && rows[..|rows| - 1] == Prepared(s.book, sheet).sheets[sheet]
      && (forall n :: n in s.book.sheets && n != sheet ==> r.book.sheets[n] == s.book.sheets[n])
  {
  }

  /** A file accepted under a key not seen before lands as the last row of the month
      sheet of its date, with the row's values; it is yellow, and counted as a warning,
      exactly when its month folder is not the month of its date. */
  lemma InsertedRowIsYellowWhenLate(s: RunState, item: Item)
    requires FromMonth(item, item.month)
    requires Classify(item).Accepted? && Classify(item).key !in s.seen
    ensures var row, key := Classify(item).row, Classify(item).key;
      var sheet := SheetName(row.date.month);
      var r := Step(s, item, false);
      var rows := r.book.sheets[sheet];
      && sheet in r.book.sheets && |rows| >= 2
      && rows[|rows| - 1].values == RowOf(row).values
      && rows[|rows| - 1].fill == (if item.month != row.date.month then YellowRgb else "")
      && r.tally.warnings == s.tally.warnings + (if item.month != row.date.month then 1 else 0)
      && r.tally.inserted == s.tally.inserted + 1 && r.tally.errors == s.tally.errors
      && r.seen == s.seen + {key}
      && r.added == Record(s.added, key, Position(sheet, |rows|))
      && r.book.sheets.Keys == s.book.sheets.Keys + {sheet}
      && rows[..|rows| - 1] == Prepared(s.book, sheet).sheets[sheet]
      && (forall n :: n in s.book.sheets && n != sheet ==> r.book.sheets[n] == s.book.sheets[n])
  {
    var row, key := Classify(item).row, Classify(item).key;
    AcceptedRowFromItem(item);
    LateIffMonthsDiffer(row, item.month);
    StepPlaces(s, item);
    PlaceAppends(s, row, key);
  }

  /** A row the run appends sorts by its employee and its invoice date, whatever
      `fromisoformat` makes of text, since its column A holds the date itself. */
  lemma InsertedRowSortKey(row: InvoiceRow, parseCell: Cell -> Option<DateTime>)
    ensures RowSortKey(RowOf(row), parseCell) == SortKey(Lower(row.employee), row.date)
  {
  }

  lemma AcceptedRowFromItem(item: Item)
    requires Classify(item).Accepted?
    ensures Classify(item).row.sourceMonth == item.sourceMonth
  {
  }

  lemma StepPlaces(s: RunState, item: Item)
    requires Classify(item).Accepted? && Classify(item).key !in s.seen
    ensures Step(s, item, false) == Place(s, Classify(item).row, Classify(item).key, false)
  {
  }
}
