/** Two situations worked through on the model: the ledger row of the repository's
    insert-once test, and a UUID made only of braces and blanks. */
module Scenarios {
  import opened Wrappers
  import opened Text
  import opened Calendar
  import opened Uuid
  import opened Invoice
  import opened Ledger
  import opened Index
  import opened Sorting
  import opened Sorter
  import opened Reconcile
  import opened Guarantees

  /** A document stamped with `Upper(t)` files under the key `Upper(t)`. */
  lemma UpperStampKey(t: string)
    requires '{' !in t && '}' !in t && Trimmed(t)
    ensures StampUuid(Some(Complement(Some(Upper(t))))) == Upper(t)
    ensures NormalizeUuid(StampUuid(Some(Complement(Some(Upper(t)))))) == Upper(t)
  {
    BracesAndCaseIgnored(t);
    NormalStampKey(Upper(t));
  }

  lemma NormalStampKey(u: string)
    requires NormalizeUuid(u) == u
    ensures StampUuid(Some(Complement(Some(u)))) == u
    ensures NormalizeUuid(StampUuid(Some(Complement(Some(u))))) == u
  {
  }

  /** The UUID cell `{t}` of a ledger row has the key `Upper(t)`. */
  lemma BracedCellKey(rows: seq<Row>, t: string)
    requires |rows| >= 2 && CellAt(rows[1], 5) == Text("{" + t + "}")
    requires '{' !in t && '}' !in t && Trimmed(t)
    ensures KeyColumn(rows)[1] == Upper(t)
  {
    var cell := "{" + t + "}";
    assert KeyColumn(rows)[1] == CellKey(Text(cell));
    TextCellKey(cell);
    BracesAndCaseIgnored(t);
  }

  /** The insert-once test: a ledger whose month sheet holds, in row 2, the UUID `{t}`
      in lower case and braces, and one XML file stamped with the same UUID in upper
      case. The run inserts nothing and the sheet keeps its rows. */
  lemma KnownUuidIsNotReinserted(b: Book, sheet: string, t: string, item: Item,
                                 parseCell: Cell -> Option<DateTime>)
    requires WellFormed(b) && sheet in b.sheets && Indexed(b.sheets[sheet])
    requires CellAt(b.sheets[sheet][1], 5) == Text("{" + t + "}")
    requires t != "" && '{' !in t && '}' !in t && Trimmed(t)
    requires item.file.Document? && item.file.root.complement == Some(Complement(Some(Upper(t))))
    ensures var run := RunOf(b, [item], false, parseCell);
      && run.outcome.inserted == 0 && run.outcome.warnings == 0
      && run.saved.Some? && sheet in run.saved.value.sheets
      && |run.saved.value.sheets[sheet]| == |b.sheets[sheet]|
  {
    var rows := b.sheets[sheet];
    BracedCellKey(rows, t);
    UpperStampKey(t);
    IndexHasKey(b, sheet, 1);
    var v := Classify(item);
    if v.Accepted? {
      assert v.row.uuid == StampUuid(item.file.root.complement);
      assert v.key == Upper(t);
      KnownKeySkipped(Start(b), item, false);
    }
    assert [item][..0] == [];
    assert Scan(Start(b), [item], false).book == b;
    RunPaintsNoRed(b, [item], parseCell);
    if Sortable(sheet, rows) {
      SortSheetSpec(rows, parseCell, SortKey("", MaxDateTime));
    }
  }

  /** A stamp `{ }` passes the empty-UUID check (its once-normalised form is a blank)
      but files under the empty key, which the index of a ledger never holds: such a
      file is inserted again on every run. */
  lemma BlankBracedUuidIsAlwaysNew(b: Book, item: Item)
    requires WellFormed(b)
    requires InvoiceOf(item.file, item.employee, item.sourceMonth).Ok?
    requires InvoiceOf(item.file, item.employee, item.sourceMonth).value.date.year == TargetYear
    requires item.file.root.complement == Some(Complement(Some("{ }")))
    ensures Classify(item).Accepted? && Classify(item).key == ""
    ensures "" !in IndexOf(b)
    ensures Step(Start(b), item, false).tally.inserted == 1
  {
    BlankStampAccepted(item);
    EmptyKeyNeverIndexed(b);
    NewKeyInserted(Start(b), item);
  }

  lemma BlankStampAccepted(item: Item)
    requires InvoiceOf(item.file, item.employee, item.sourceMonth).Ok?
    requires InvoiceOf(item.file, item.employee, item.sourceMonth).value.date.year == TargetYear
    requires item.file.root.complement == Some(Complement(Some("{ }")))
    ensures Classify(item).Accepted? && Classify(item).key == ""
  {
    var row := InvoiceOf(item.file, item.employee, item.sourceMonth).value;
    BlankBracedUuid("{ }");
    assert row.uuid == NormalizeUuid("{ }");
  }

  /** Only non-empty keys are indexed. */
  lemma EmptyKeyNeverIndexed(b: Book)
    requires WellFormed(b)
    ensures "" !in IndexOf(b)
  {
    IndexKeys(b);
    assert "" !in BookKeys(b);
  }

  /** An accepted file with an unseen key is inserted. */
  lemma NewKeyInserted(s: RunState, item: Item)
    requires Classify(item).Accepted? && Classify(item).key !in s.seen
    ensures Step(s, item, false).tally.inserted == s.tally.inserted + 1
  {
  }
}
