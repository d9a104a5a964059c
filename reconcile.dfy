/** The main pass of the engine (`Processor.run`): every XML file under the month
    folders is parsed, checked, and appended to the month sheet of its invoice date
    unless its fiscal UUID is already known; then duplicates are painted red and the
    month sheets re-sorted. */
module Reconcile {
  import opened Wrappers
  import opened Text
  import opened Calendar
  import opened Uuid
  import opened Invoice
  import opened Ledger
  import opened Index
  import opened Duplicates
  import opened Sorting
  import opened Sorter

  /** `TARGET_YEAR`: the only year the ledger holds. */
  const TargetYear := 2026

  // ---------------------------------------------------------------- the folder tree

  /** A file inside an employee folder. */
  datatype FileEntry = FileEntry(name: string, content: XmlFile)

  /** An entry of a month folder: a sub-folder (an employee) with its files, or a plain file. */
  datatype FolderEntry = Folder(name: string, files: seq<FileEntry>) | Other(name: string)

  /** The directories directly under `base_2026`, by name, each with its entries. */
  type Tree = map<string, seq<FolderEntry>>

  /** One XML file to process: the `MESES` key of its month folder, the name of its
      employee folder, its file name and its content. */
  datatype Item = Item(month: Month, sourceMonth: string, employee: string, fileName: string, file: XmlFile)

  /** `employee_folder.glob("*.xml")`: the files whose name ends in ".xml". */
  function XmlFiles(files: seq<FileEntry>): (r: seq<FileEntry>)
    ensures forall f :: f in r <==> f in files && EndsWith(f.name, ".xml")
  {
    if files == [] then []
    else (if EndsWith(files[0].name, ".xml") then [files[0]] else []) + XmlFiles(files[1..])
  }

  /** The sub-folders of a month folder. */
  function SubFolders(entries: seq<FolderEntry>): (r: seq<FolderEntry>)
    ensures forall e :: e in r <==> e in entries && e.Folder?
  {
    if entries == [] then []
    else (if entries[0].Folder? then [entries[0]] else []) + SubFolders(entries[1..])
  }

  /** Employee folders sort by their name in lower case. */
  function FolderOrder(e: FolderEntry): SortKey {
    SortKey(Lower(e.name), MaxDateTime)
  }

  /** Paths inside one folder sort by name. */
  function FileOrder(f: FileEntry): SortKey {
    SortKey(f.name, MaxDateTime)
  }

  /** An item of month `m` as the loops build it. */
  predicate FromMonth(it: Item, m: Month) {
    it.month == m && it.sourceMonth == MonthKey(m) && EndsWith(it.fileName, ".xml")
  }

  /** The files of one employee folder, in name order. */
  function FileItems(m: Month, employee: string, files: seq<FileEntry>): (r: seq<Item>)
    requires forall f :: f in files ==> EndsWith(f.name, ".xml")
    ensures |r| == |files|
    ensures forall i :: 0 <= i < |r| ==> r[i] == Item(m, MonthKey(m), employee, files[i].name, files[i].content)
    ensures forall i :: 0 <= i < |r| ==> FromMonth(r[i], m)
  {
    if files == [] then []
    else [Item(m, MonthKey(m), employee, files[0].name, files[0].content)] + FileItems(m, employee, files[1..])
  }

  /** The XML files of an employee folder in the order `sorted(glob("*.xml"))` gives. */
  function SortedXml(files: seq<FileEntry>): (r: seq<FileEntry>)
    ensures forall f :: f in r ==> EndsWith(f.name, ".xml")
  {
    var xs := XmlFiles(files);
    SortPermutes(xs, FileOrder);
    assert forall f :: f in StableSort(xs, FileOrder) ==> f in multiset(xs);
    StableSort(xs, FileOrder)
  }

  /** The employee folders of a month folder, by lower-case name. */
  function SortedFolders(entries: seq<FolderEntry>): (r: seq<FolderEntry>)
    ensures forall e :: e in r ==> e.Folder?
  {
    var fs := SubFolders(entries);
    SortPermutes(fs, FolderOrder);
    assert forall e :: e in StableSort(fs, FolderOrder) ==> e in multiset(fs);
    StableSort(fs, FolderOrder)
  }

  function FolderItems(m: Month, folders: seq<FolderEntry>): (r: seq<Item>)
    requires forall e :: e in folders ==> e.Folder?
    ensures forall i :: 0 <= i < |r| ==> FromMonth(r[i], m)
  {
    if folders == [] then []
    else FileItems(m, folders[0].name, SortedXml(folders[0].files)) + FolderItems(m, folders[1..])
  }

  /** The files of one month folder, employee folder by employee folder; none when the
      folder `MESES_INV` names does not exist. */
  function MonthItems(tree: Tree, m: Month): (r: seq<Item>)
    ensures forall i :: 0 <= i < |r| ==> FromMonth(r[i], m)
  {
    if MonthName(m) in tree then FolderItems(m, SortedFolders(tree[MonthName(m)])) else []
  }

  /** The files of months `m`..12, in that order. */
  function ItemsFrom(tree: Tree, m: nat): (r: seq<Item>)
    requires 1 <= m <= 13
    ensures forall i :: 0 <= i < |r| ==> m <= r[i].month && FromMonth(r[i], r[i].month)
    ensures forall i, j :: 0 <= i < j < |r| ==> r[i].month <= r[j].month
    decreases 13 - m
  {
    if m == 13 then [] else MonthItems(tree, m) + ItemsFrom(tree, m + 1)
  }

  /** The files `run` visits, in the order it visits them: month folders in calendar
      order, then employee folders, then XML files. Each carries its month folder's
      `MESES` key and number, and its name ends in ".xml". */
  function Items(tree: Tree): (r: seq<Item>)
    ensures forall i :: 0 <= i < |r| ==> FromMonth(r[i], r[i].month)
    ensures forall i, j :: 0 <= i < j < |r| ==> r[i].month <= r[j].month
  {
    ItemsFrom(tree, 1)
  }

  // ---------------------------------------------------------------- one file

  /** What the checks of `run` make of one file: rejected (a parse error, a date outside
      `TARGET_YEAR`, an empty UUID), or accepted with the UUID key it is filed under. */
  datatype Verdict = Rejected | Accepted(row: InvoiceRow, key: string)

  function Classify(item: Item): (v: Verdict)
  {
    match InvoiceOf(item.file, item.employee, item.sourceMonth)
    case Err(_) => Rejected
    case Ok(row) =>
      if row.date.year != TargetYear || row.uuid == "" then Rejected
      else Accepted(row, NormalizeUuid(row.uuid))
  }

  /** A file is accepted exactly when it parses, is dated in `TARGET_YEAR` and carries a
      UUID; it is then filed under the normalised UUID of its parsed row. */
  lemma ClassifyChecks(item: Item)
    ensures var parsed, v := InvoiceOf(item.file, item.employee, item.sourceMonth), Classify(item);
      && (v.Accepted? <==> parsed.Ok? && parsed.value.date.year == TargetYear && parsed.value.uuid != "")
      && (v.Accepted? ==> v.row == parsed.value && v.key == NormalizeUuid(v.row.uuid))
  {
  }

  /** The month sheet of a date: `f"{MESES_INV[month]} {TARGET_YEAR}"`. */
  function SheetName(m: Month): string {
    MonthName(m) + " 2026"
  }

  /** The row `ws.append` receives. */
  function RowOf(row: InvoiceRow): (r: Row)
    ensures |r.values| == Width && r.fill == ""
  {
    Row([Stamp(row.date), Text(row.issuerName), Text(row.issuerRfc), Text(row.folio),
         Text(row.uuid), Text(row.concept), Number(row.subtotal), Number(row.vat),
         Number(row.otherTaxes), Number(row.total), Text(row.comments), Text(row.employee)], "")
  }

  /** The target sheet made ready: created (with its headers) when missing, then its
      headers ensured once more. */
  function Prepared(b: Book, sheet: string): (r: Book)
    ensures r.sheets.Keys == b.sheets.Keys + {sheet}
    ensures forall n :: n in b.sheets && n != sheet ==> r.sheets[n] == b.sheets[n]
    ensures r.sheets[sheet] != [] && A1(r.sheets[sheet]) == Text("Fecha")
    ensures DataRows(r.sheets[sheet]) == (if sheet in b.sheets then DataRows(b.sheets[sheet]) else [])
    ensures WellFormed(b) ==> WellFormed(r)
  {
    var b1 := if sheet in b.sheets then b else WithHeaders(Created(b, sheet), sheet);
    WithHeaders(b1, sheet)
  }

  /** The yellow test: the folder's month differs from the month of the invoice date. */
  predicate Late(row: InvoiceRow) {
    Lower(row.sourceMonth) != Lower(MonthName(row.date.month))
  }

  datatype Tally = Tally(inserted: nat, warnings: nat, errors: nat)

  /** What `run` carries from file to file: the workbook, `existing_uuid_set`,
      `new_uuid_positions` and the three counters. */
  datatype RunState = RunState(book: Book, seen: set<string>, added: Positions, tally: Tally)

  /** An accepted file with a key not seen before. */
  function Place(s: RunState, row: InvoiceRow, key: string, dryRun: bool): (r: RunState)
    ensures WellFormed(s.book) ==> WellFormed(r.book)
  {
    var sheet := SheetName(row.date.month);
    var b := Prepared(s.book, sheet);
    if dryRun then s.(book := b)
    else
      var b' := Appended(b, sheet, RowOf(row));
      var n := |b'.sheets[sheet]|;
      var late := Late(row);
      RunState(if late then Filled(b', sheet, n, YellowRgb) else b',
               s.seen + {key},
               Record(s.added, key, Position(sheet, n)),
               Tally(s.tally.inserted + 1, s.tally.warnings + (if late then 1 else 0), s.tally.errors))
  }

  /** In a dry run the target sheet is still created and given its headers, but nothing
      is appended, remembered or counted. */
  lemma PlaceInDryRun(s: RunState, row: InvoiceRow, key: string)
    ensures Place(s, row, key, true) == s.(book := Prepared(s.book, SheetName(row.date.month)))
  {
  }

  /** One pass of the innermost loop of `run`. */
  function Step(s: RunState, item: Item, dryRun: bool): (r: RunState)
    ensures WellFormed(s.book) ==> WellFormed(r.book)
  {
    match Classify(item)
    case Rejected => s.(tally := s.tally.(errors := s.tally.errors + 1))
    case Accepted(row, key) => if key in s.seen then s else Place(s, row, key, dryRun)
  }

  /** The state after the files `items`, in order. */
  function Scan(s: RunState, items: seq<Item>, dryRun: bool): (r: RunState)
    ensures WellFormed(s.book) ==> WellFormed(r.book)
    decreases |items|
  {
    if items == [] then s
    else Step(Scan(s, items[..|items| - 1], dryRun), items[|items| - 1], dryRun)
  }

  lemma ScanOneMore(s: RunState, items: seq<Item>, i: nat, dryRun: bool)
    requires i < |items|
    ensures Scan(s, items[..i + 1], dryRun) == Step(Scan(s, items[..i], dryRun), items[i], dryRun)
  {
    assert items[..i + 1][..i] == items[..i];
  }

  /** The state before the first file: the ledger's own keys are already seen. */
  function Start(b: Book): RunState {
    RunState(b, IndexOf(b).Keys, map[], Tally(0, 0, 0))
  }

  /** The dictionary `run` returns. */
  datatype Outcome = Outcome(inserted: nat, warnings: nat, errors: nat, dryRun: bool)

  /** What `run` returns, and the workbook `wb.save` writes (none in a dry run). */
  datatype RunResult = RunResult(outcome: Outcome, saved: Option<Book>)

  /** Steps 4 and 5 of `run` after the scan `s`: unless `dryRun`, the duplicates among
      the keys inserted now are counted as warnings and painted red, the month sheets
      are sorted, and the workbook is saved. */
  function Finish(existing: Positions, s: RunState, dryRun: bool, parseCell: Cell -> Option<DateTime>): (r: RunResult)
    ensures r.outcome.inserted == s.tally.inserted && r.outcome.errors == s.tally.errors
      && r.outcome.dryRun == dryRun && r.outcome.warnings >= s.tally.warnings
    ensures r.saved.None? <==> dryRun
    ensures dryRun ==> r.outcome.warnings == s.tally.warnings
  {
    if dryRun then RunResult(Outcome(s.tally.inserted, s.tally.warnings, s.tally.errors, true), None)
    else
      var dup := |DuplicatedAmong(existing, s.added, s.added.Keys)|;
      var painted := PaintRed(s.book, RedPositions(existing, s.added));
      RunResult(Outcome(s.tally.inserted, s.tally.warnings + dup, s.tally.errors, false),
                Some(SortBook(painted, parseCell)))
  }

  function RunOf(b: Book, items: seq<Item>, dryRun: bool, parseCell: Cell -> Option<DateTime>): RunResult {
    Finish(IndexOf(b), Scan(Start(b), items, dryRun), dryRun, parseCell)
  }

  // ---------------------------------------------------------------- the methods

  /** The checks of the file loop of `run`: parse, year, empty UUID; then the key. */
  method Admit(item: Item) returns (v: Verdict)
    ensures v == Classify(item)
  {
    var parsed := ParseInvoice(item.file, item.employee, item.sourceMonth);
    if parsed.Err? {
      return Rejected;
    }
    var row := parsed.value;
    if row.date.year != TargetYear || row.uuid == "" {
      return Rejected;
    }
    v := Accepted(row, NormalizeUuid(row.uuid));
  }

  /** The target-sheet steps of `run`: create the sheet with its headers when missing,
      then ensure its headers. */
  method PrepareSheet(wb: Workbook, sheet: string)
    modifies wb
    ensures wb.View() == Prepared(old(wb.View()), sheet)
  {
    if sheet !in wb.sheets {
      wb.CreateSheet(sheet);
      wb.EnsureHeaders(sheet);
    }
    wb.EnsureHeaders(sheet);
  }

  /** The insertion steps of `run`: append the row, then fill it yellow when `late`;
      returns the number of the new row. */
  method InsertRow(wb: Workbook, sheet: string, r: Row, late: bool) returns (n: nat)
    requires sheet in wb.sheets
    modifies wb
    ensures n == |old(wb.sheets[sheet])| + 1
    ensures var a := Appended(old(wb.View()), sheet, r);
      wb.View() == if late then Filled(a, sheet, n, YellowRgb) else a
  {
    n := wb.Append(sheet, r);
    if late {
      wb.FillRow(sheet, n, YellowRgb);
    }
  }

  /** The insertion part of the file loop of `run`, for a key not seen before. */
  method PlaceRow(wb: Workbook, row: InvoiceRow, key: string, dryRun: bool,
                  seen: set<string>, added: Positions, tally: Tally)
    returns (seen': set<string>, added': Positions, tally': Tally)
    modifies wb
    ensures RunState(wb.View(), seen', added', tally') ==
      Place(RunState(old(wb.View()), seen, added, tally), row, key, dryRun)
  {
    ghost var s := RunState(wb.View(), seen, added, tally);
    seen', added', tally' := seen, added, tally;
    var sheet := MonthName(row.date.month) + " 2026";
    PrepareSheet(wb, sheet);
    ghost var prepared := Prepared(s.book, sheet);
    if dryRun {
      return;
    }
    var late := Late(row);
    assert sheet in wb.sheets && wb.View() == prepared;
    var n := InsertRow(wb, sheet, RowOf(row), late);
    ghost var appended := Appended(prepared, sheet, RowOf(row));
    assert n == |appended.sheets[sheet]|;
    added' := Record(added, key, Position(sheet, n));
    seen' := seen + {key};
    tally' := Tally(tally.inserted + 1, tally.warnings + (if late then 1 else 0), tally.errors);
  }

  /** The body of the file loop of `run`. */
  method ProcessItem(wb: Workbook, item: Item, dryRun: bool, seen: set<string>, added: Positions, tally: Tally)
    returns (seen': set<string>, added': Positions, tally': Tally)
    modifies wb
    ensures RunState(wb.View(), seen', added', tally') ==
      Step(RunState(old(wb.View()), seen, added, tally), item, dryRun)
  {
    seen', added', tally' := seen, added, tally;
    var v := Admit(item);
    if v.Rejected? {
      tally' := tally.(errors := tally.errors + 1);
    } else if v.key !in seen {
      seen', added', tally' := PlaceRow(wb, v.row, v.key, dryRun, seen, added, tally);
    }
  }

  /** The loops of step 3 of `run`, over the files in visiting order. */
  method ScanItems(wb: Workbook, items: seq<Item>, dryRun: bool, seen0: set<string>)
    returns (seen: set<string>, added: Positions, tally: Tally)
    modifies wb
    ensures RunState(wb.View(), seen, added, tally) ==
      Scan(RunState(old(wb.View()), seen0, map[], Tally(0, 0, 0)), items, dryRun)
  {
    ghost var s0 := RunState(wb.View(), seen0, map[], Tally(0, 0, 0));
    seen, added, tally := seen0, map[], Tally(0, 0, 0);
    var i := 0;
    while i < |items|
      invariant i <= |items|
      invariant RunState(wb.View(), seen, added, tally) == Scan(s0, items[..i], dryRun)
    {
      ScanOneMore(s0, items, i, dryRun);
      seen, added, tally := ProcessItem(wb, items[i], dryRun, seen, added, tally);
      i := i + 1;
    }
    assert items[..i] == items;
  }

  /** Steps 4 and 5 of `run`, and `wb.save`. */
  method Conclude(wb: Workbook, existing: Positions, seen: set<string>, added: Positions, tally: Tally,
                  dryRun: bool, parseCell: Cell -> Option<DateTime>)
    returns (outcome: Outcome, saved: Option<Book>)
    requires WellFormed(wb.View())
    modifies wb
    ensures RunResult(outcome, saved) ==
      Finish(existing, RunState(old(wb.View()), seen, added, tally), dryRun, parseCell)
  {
    if dryRun {
      saved := None;
      outcome := Outcome(tally.inserted, tally.warnings, tally.errors, true);
    } else {
      var dup := ApplyDuplicates(wb, existing, added);
      PaintRedSpec(old(wb.View()), RedPositions(existing, added));
      SortAllMonthSheets(wb, parseCell);
      saved := Some(wb.View());
      outcome := Outcome(tally.inserted, tally.warnings + dup, tally.errors, false);
    }
  }

  /** `Processor.run(dry_run)` on the open workbook and the folder tree: returns the
      counters and, unless `dryRun`, the workbook as saved. */
  method Run(wb: Workbook, tree: Tree, dryRun: bool, parseCell: Cell -> Option<DateTime>)
    returns (outcome: Outcome, saved: Option<Book>)
    requires WellFormed(wb.View())
    modifies wb
    ensures RunResult(outcome, saved) == RunOf(old(wb.View()), Items(tree), dryRun, parseCell)
  {
    ghost var b := wb.View();
    var existing := CollectUuidPositions(wb);
    var items := Items(tree);
    var seen, added, tally := ScanItems(wb, items, dryRun, existing.Keys);
    outcome, saved := Conclude(wb, existing, seen, added, tally, dryRun, parseCell);
  }
}
