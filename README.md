# Invoice reconciliation engine, modelled in Dafny

This project models the reconciliation engine of the `maquiprime_facturas` repository:
class `Processor` in `processor.py` and the module-level tables it uses. The engine
keeps an Excel control ledger of the 2026 expense invoices (CFDI 4.0 XML files) of a
company, the recipient `MES2301274X9`. The ledger has one sheet per month, named like
"Enero 2026", and twelve columns.

One `run` does five things:

1. It indexes every fiscal UUID already in the ledger, by its normalised key.
2. It walks the month folders in calendar order, the employee folders by lower-case
   name, and the XML files by name.
3. It parses each file. It rejects, with one error each, unreadable files, files for
   another recipient, files with a non-ISO date, a date outside 2026, an empty UUID or
   an amount `Decimal` refuses. A file whose UUID key is already known is skipped.
   Any other file is appended to the month sheet of its invoice date; it is painted
   yellow, and counted as a warning, when that month is not the month of its folder.
4. Outside a dry run, it paints red every row of a key inserted now that occurs more
   than once, and counts those keys as warnings.
5. It re-sorts every month sheet stably by (employee in lower case, date) and saves
   the workbook.

The model follows the source's own form:

- Pure helpers are functions: UUID normalisation, category mapping, the folio rule,
  highlight detection, date coercion and the month tables.
- The workbook the run updates in place is a class, `Ledger.Workbook`, whose fields
  are the sheet names and a map from sheet name to rows.
- Every loop of the source over files, sheets, rows, keys and tax lines is a method
  with loop invariants, proved equal to a specification function. The loops are:
  - the `run` loop over files, with its seen set, `new_uuid_positions` and counters;
  - the index loops of `_collect_uuid_positions`;
  - the two tax loops;
  - the two loops of `_apply_duplicates`;
  - the loop over sheet names and the read and write loops of `_sort_all_month_sheets`.
  The sort itself, the library call `data.sort`, is the function `Sorting.StableSort`.
- What the source promises is proved separately, as lemmas about those functions.

Modules, one file each:

| file | module | what it holds |
|---|---|---|
| wrappers.dfy | Wrappers | `Option` and `Result`. |
| text.dfy | Text | The Python `str` operations the engine uses. |
| calendar.dfy | Calendar | `datetime` values and the tables `MESES`/`MESES_INV`. |
| uuid.dfy | Uuid | `_normalize_uuid`. |
| category.dfy | Category | `CATEGORY_EXACT`, `CATEGORY_PREFIX` and `_map_category`. |
| invoice.dfy | Invoice | The abstract CFDI document and `_parse_invoice`. |
| ledger.dfy | Ledger | Rows, the workbook value `Book`, the class `Workbook`, `_ensure_headers` and `_fill_row`. |
| index.dfy | Index | `_collect_uuid_positions`. |
| duplicates.dfy | Duplicates | `_apply_duplicates`. |
| sorting.dfy | Sorting | Python's stable `list.sort` on `(employee, date)` keys. |
| sorter.dfy | Sorter | `_detect_row_highlight`, `_coerce_datetime` and `_sort_all_month_sheets`. |
| reconcile.dfy | Reconcile | The folder walk and `run`. |
| guarantees.dfy | Guarantees | What one run promises. |
| rerun.dfy | Rerun | What a second run promises. |
| scenarios.dfy | Scenarios | The repository's insert-once test and the `{ }` UUID. |

Behaviours of the code that the model keeps, with the reading it takes:

- **The UUID is normalised twice.** `_parse_invoice` normalises the stamp's UUID
  (processor.py:394). `run` normalises it again for the key (processor.py:167). The
  empty-UUID check looks at the once-normalised value (processor.py:162). A stamp of
  only braces and blanks, such as `{ }`, passes that check, because stripping happens
  before the braces are removed. Its key is then "". The ledger index never records
  "", so such a file is inserted again on every run (`Scenarios.BlankBracedUuidIsAlwaysNew`).
- **`_normalize_uuid` is not idempotent.** `{ abc }` gives ` ABC `, and normalising
  again gives `ABC` (`Uuid.NotIdempotent`). Normalising twice is stable
  (`Uuid.TwiceIsStable`).
- **A run never paints red.** Every key `run` inserts was unseen, so it is absent from
  the ledger index and is inserted once. `_apply_duplicates` therefore counts 0 and
  paints nothing (`Guarantees.RunPaintsNoRed`). The red paint and the duplicate count
  are modelled all the same, and `Duplicates.ApplyDuplicates` is proved for any
  arguments.
- **Headers are checked in two ways.** `_ensure_headers` looks only at cell A1
  (processor.py:294-297). `_collect_uuid_positions` compares all twelve header cells
  (processor.py:258-260). A sheet whose A1 reads "Fecha" but whose other headers
  differ keeps its rows out of the index. The second-run theorem therefore assumes
  `Rerun.HeadersConsistent` of the starting ledger, and proves that runs keep it.
- **The test's log message is never produced.** The insert-once test expects a log
  line containing "se omite inserción" (tests/test_insert_once.py:69). The source
  logs "OMITIDO UUID ya existente" instead (processor.py:172). Log text is not part
  of the model. The part of the test that is modelled is proved in
  `Scenarios.KnownUuidIsNotReinserted`: zero inserted, and row count unchanged.
- **Dry-run details.** A dry run still creates missing target sheets and ensures their
  headers (processor.py:177-183); only that in-memory workbook changes, and nothing is
  saved. A dry run does not extend the seen set (processor.py:221 lies inside
  `if not dry_run`).
- **Missing amounts.** A missing `SubTotal` or `Total` reads as 0 (processor.py:400-401).
  `Total` is read from the document, not computed.

## Model

| member | source | states |
|---|---|---|
| `Uuid.NormalizeUuid` | processor.py:111-112 | The key contains no `{`, no `}` and no lower-case letter. |
| `Uuid.NormalizeNormalForm` | processor.py:111-112 | On a brace-free string with no lower-case letter, normalising only strips whitespace. |
| `Uuid.BracesAndCaseIgnored` | processor.py:111-112 | A trimmed, brace-free `t` gives key `Upper(t)` whether it arrives as `{t}`, as `t` or as `Upper(t)`, so a braced lower-case UUID and its bare upper-case form share one key. |
| `Uuid.TwiceIsStable` | processor.py:167 | A key computed from the once-normalised UUID normalises to itself. |
| `Uuid.NotIdempotent` | processor.py:112 | `{ abc }` normalises to ` ABC `, and that normalises to `ABC`. |
| `Uuid.BlankBracedUuid` | processor.py:112 | `{ }` normalises to one blank, then to "". |
| `Text.Strip` | processor.py:112 | `str.strip()`: the result has no whitespace at either end, and only whitespace was removed. |
| `Text.StripIdempotent` | processor.py:112 | Stripping twice is stripping once. |
| `Text.Capitalize` | processor.py:32 | `str.capitalize()`: the first character upper-cased, the rest lower-cased. |
| `Text.WithoutCounts` | processor.py:112 | `replace(c, "")` removes every `c` and keeps every other character as often as it occurred. |
| `Calendar.MonthNumber` | processor.py:17-30 | `MESES.get(name)`: a returned month's key is the name looked up. |
| `Calendar.MonthTablesInverse` | processor.py:17-32 | `MESES` maps each key back to its month, and only its key maps to that month. |
| `Calendar.LowerMonthName` | processor.py:32 | `MESES_INV[m]` lower-cases back to the `MESES` key of `m`. |
| `Calendar.SameMonthName` | processor.py:207 | A folder key and a `MESES_INV` name agree, case aside, exactly when the months are equal. |
| `Calendar.BeforeIsStrictTotalOrder` | processor.py:332 | `datetime` ordering is irreflexive, asymmetric, transitive and total. |
| `Calendar.MaxIsLatest` | processor.py:328-329 | Every date a `datetime` can hold is at most `datetime.max`, so a row whose date cannot be read sorts after every dated row of its employee. |
| `Category.PrefixLabel` | processor.py:448-450 | `None` exactly when no rule's prefix starts the code; otherwise the label of the first matching rule, in declared order. |
| `Category.MapCategory` | processor.py:444-452 | "" for an empty code; else the `CATEGORY_EXACT` label; else the label of the first `CATEGORY_PREFIX` entry that is a prefix of the code; else the code itself. |
| `Category.PrefixRuleExample` | processor.py:77-83 | `27115000`, with no exact entry, falls to the prefix rule `2711` and is `HERRAMIENTAS`. |
| `Category.UnmappedExample` | processor.py:452 | An unmapped code such as `99999999` is its own label. |
| `Invoice.FolioOf` | processor.py:396-398 | `serie-folio` when both are non-empty; else `folio` when `serie` is empty; else `serie`. |
| `Invoice.FirstConceptCode` | processor.py:440-442 | The code of the first concept, or "" when there is none. |
| `Invoice.VatPlusOtherIsAll` | processor.py:403-418 | The VAT sum (lines coded `002`) plus the other-tax sum is the sum of every tax line; withholdings are added, not subtracted. |
| `Invoice.AccumulateTaxes` | processor.py:407-418 | The tax loop returns the running sums plus the VAT and other amounts of its lines, or fails when `Decimal` rejects an amount. |
| `Invoice.ReadTaxes` | processor.py:403-418 | Transfers, then withholdings, go into the same two sums; no `Impuestos` element gives (0, 0). |
| `Invoice.InvoiceOf` | processor.py:368-438 | It succeeds exactly when the XML is readable, the date parses, the recipient RFC is `MES2301274X9` (a missing recipient fails) and every amount parses. A wrong RFC yields `InvalidRecipient` with that RFC. On success the row carries the date, the stamp's normalised UUID, the folio rule, the mapped category, `SubTotal` and `Total` (0 when absent), the issuer's `Nombre` and `Rfc` ("" without an issuer), the caller's employee and month, and empty comments. `iva` is the sum of the transfer and withholding lines coded `002`, and `otros` is the sum of all other lines, so together they are all tax lines. |
| `Invoice.ParseInvoice` | processor.py:368-438 | The imperative parse returns exactly `InvoiceOf`, with the same error order. |
| `Ledger.HeaderMatchesColumns` | processor.py:37-50 | The header row written is the twelve `COLUMNS`, in order. |
| `Ledger.WithHeaders` | processor.py:294-297 | After `_ensure_headers`, A1 reads "Fecha". A1 already "Fecha" changes nothing; otherwise row 1 becomes `COLUMNS` (an empty sheet gains it). Data rows and other sheets stay. |
| `Ledger.WithHeadersIdempotent` | processor.py:294-297 | Ensuring headers twice is ensuring them once. |
| `Ledger.Created` | processor.py:179 | `create_sheet` adds an empty sheet last and keeps every other sheet. |
| `Ledger.Appended` | processor.py:186-203 | `ws.append` puts the row after the last row of that sheet only. |
| `Ledger.Filled` | processor.py:290-292 | `_fill_row` colours exactly one row, keeps every value and every other row. |
| `Ledger.Workbook.constructor` | processor.py:119 | `load_workbook`: the object holds the stored workbook. |
| `Ledger.Workbook.CreateSheet` | processor.py:179 | The new state is `Created` of the old. |
| `Ledger.Workbook.EnsureHeaders` | processor.py:294-300 | The new state is `WithHeaders` of the old. |
| `Ledger.Workbook.Append` | processor.py:186-203 | The new state is `Appended` of the old, and the returned `max_row` is the new row's number. |
| `Ledger.Workbook.FillRow` | processor.py:290-292 | The new state is `Filled` of the old. |
| `Index.Record` | processor.py:266 | `setdefault(key, []).append(p)` adds `p` after the key's positions and leaves other keys alone. |
| `Index.IndexSound` | processor.py:250-267 | Every indexed position names a scanned sheet (at least two rows, row 1 equal to `COLUMNS`) and a data row whose non-empty normalised UUID is the key. |
| `Index.IndexComplete` | processor.py:250-267 | Every data row of a scanned sheet with a non-empty key is listed under that key. |
| `Index.IndexKeys` | processor.py:250-267 | The index's keys are exactly the non-empty keys of the scanned sheets' data rows. |
| `Index.IndexAscending` | processor.py:256-266 | Under each key, the rows of any one sheet are listed in increasing row order. |
| `Index.IndexSheetRows` | processor.py:261-266 | The row loop over one sheet yields the specification index of that sheet's rows. |
| `Index.CollectUuidPositions` | processor.py:250-267 | The method returns exactly `IndexOf` of the workbook. |
| `Duplicates.PaintRedSpec` | processor.py:269-284 | Painting keeps the sheet names, sheets, row counts and all values; a row turns red exactly when its position is listed, and all other fills stay. |
| `Duplicates.PaintOneMore` | processor.py:282-283 | Painting one more position of an existing row is `_fill_row` on that row. |
| `Duplicates.PaintOutside` | processor.py:282 | A position that names no sheet, or no existing row, paints nothing. |
| `Duplicates.PaintNothing` | processor.py:269-284 | No positions leave the workbook unchanged. |
| `Duplicates.NoDuplicatesAmongFresh` | processor.py:279-280 | Keys absent from the ledger and inserted once are never duplicated, so nothing is red. |
| `Duplicates.PaintPositions` | processor.py:281-283 | The inner loop paints every listed position that exists. |
| `Duplicates.PaintKey` | processor.py:278-283 | One key paints its old and new positions exactly when it has more than one, and reports whether it did. |
| `Duplicates.ApplyDuplicates` | processor.py:269-284 | It returns the number of new keys with more than one position, old and new together. The new workbook is the old one with exactly those keys' rows painted red. |
| `Sorting.SortSorted` | processor.py:332 | The stable sort yields keys in non-decreasing `(employee, date)` order. |
| `Sorting.SortPermutes` | processor.py:332 | The stable sort is a permutation of its input. |
| `Sorting.SortStable` | processor.py:332 | Elements with equal keys keep their input order. |
| `Sorting.StableSortUnique` | processor.py:332 | Any ordering that is sorted and keeps ties in order is the stable sort. |
| `Sorting.SortOfSorted` | processor.py:332 | Sorting an already sorted sequence leaves it as it is. |
| `Sorting.KeyLessTotal` | processor.py:332 | Distinct `(employee, date)` keys are ordered one way or the other. |
| `Sorter.HighlightRoundTrip` | processor.py:302-311 | Each highlight (none, yellow, red) is read back from the fill the rewrite gives it. |
| `Sorter.DetectHighlightSpec` | processor.py:302-311 | The upper-cased colour reads as red whenever it contains `EF9A9A`, as yellow when it contains `FFF59D` and not `EF9A9A`, and as no highlight when it contains neither; the test is case-blind. |
| `Sorter.CoerceDatetime` | processor.py:348-362 | A date cell is its own date; a blank or "" cell gives none; any other text or number cell goes to `fromisoformat(str(value))`, the parameter `parseCell`. |
| `Guarantees.InsertedRowSortKey` | processor.py:187-202 | A row the run appends sorts by its invoice date and its lower-cased employee, whatever `fromisoformat` does, because its column A is a date cell. |
| `Sorter.SortBook` | processor.py:313-319 | Only sheets named "… 2026" with at least three rows are sorted; every other sheet stays as it is. |
| `Sorter.SortSheetSpec` | processor.py:313-346 | The header row and the row count stay. The data rows come out in `(employee, date)` order, an unreadable date counting as `datetime.max`. They are the old data rows, each keeping its values and its highlight, in some order, and rows with equal keys keep their order. |
| `Sorter.SortSheetIdempotent` | processor.py:313-346 | Sorting a sorted sheet again changes nothing. |
| `Sorter.SortBookIdempotent` | processor.py:313-346 | Sorting the workbook twice is sorting it once. |
| `Sorter.ReadEntries` | processor.py:322-330 | The read loop yields each data row's employee key, date (or `datetime.max`), values and highlight, in row order. |
| `Sorter.WriteEntries` | processor.py:334-346 | The write loop puts the header, then each sorted entry's values with the fill of its highlight. |
| `Sorter.SortSheetRows` | processor.py:321-346 | Reading, sorting and rewriting one sheet yields `SortSheet` of its rows. |
| `Sorter.SortOneSheet` | processor.py:313-346 | One pass of the loop over sheet names: a sheet named "… 2026" with at least three rows is read, sorted and rewritten; any other sheet is returned as it is. |
| `Sorter.SortSheets` | processor.py:313-346 | Visiting the sheet names in workbook order and sorting each gives `SortBook` of the workbook. |
| `Sorter.SortAllMonthSheets` | processor.py:313-346 | The new workbook is `SortBook` of the old. |
| `Reconcile.Items` | processor.py:131-144 | Files are visited month folder by month folder, in calendar order. Each carries its folder's `MESES` key and number, and its name ends in ".xml". |
| `Reconcile.FileItems` | processor.py:144 | One employee folder contributes one item per XML file, in order, with that folder's name as employee. |
| `Reconcile.Prepared` | processor.py:177-183 | The target sheet exists afterwards with A1 "Fecha". Its data rows and all other sheets are unchanged, and a new sheet has no data rows. |
| `Reconcile.ClassifyChecks` | processor.py:146-167 | A file is accepted exactly when it parses, is dated in 2026 and has a non-empty UUID; it is then filed under the normalised UUID of its parsed row. |
| `Reconcile.Place` | processor.py:177-221 | The specification of one insertion: month sheet prepared, row appended, yellow when `Late`, key remembered, position recorded, counters raised. Its contract states that it keeps the workbook well-formed (each sheet listed once, twelve cells per row); its effect is stated by `Guarantees.PlaceAppends` and `Reconcile.PlaceInDryRun`. |
| `Reconcile.PlaceInDryRun` | processor.py:177-186 | In a dry run the month sheet is still created and given headers, and nothing else changes: no row, no key, no position, no count. |
| `Reconcile.Step` | processor.py:146-221 | The specification of one pass of the file loop: a rejected file counts an error, a known key is skipped, any other file is `Place`d. Its contract states that it keeps the workbook well-formed; its cases are stated by `Guarantees.RejectedOnlyCountsError`, `Guarantees.KnownKeySkipped` and `Guarantees.InsertedRowIsYellowWhenLate`. |
| `Reconcile.Finish` | processor.py:224-244 | The returned `inserted`, `errors` and `dry_run` are the scan's; warnings never decrease; a workbook is saved exactly when it is not a dry run; and a dry run adds no warnings. |
| `Reconcile.Admit` | processor.py:146-167 | The checks reject a parse failure, a year other than 2026 and an empty UUID, in that order; otherwise the file is accepted under the normalised key. |
| `Reconcile.PrepareSheet` | processor.py:177-183 | The new state is `Prepared`. |
| `Reconcile.InsertRow` | processor.py:186-209 | After `ws.append` and the optional yellow fill, the returned row number is one past the old `max_row`. |
| `Reconcile.PlaceRow` | processor.py:177-221 | Inserting an accepted file with an unseen key yields exactly the specification state `Place`. |
| `Reconcile.ProcessItem` | processor.py:146-221 | One pass of the file loop yields the specification state `Step`. |
| `Reconcile.ScanItems` | processor.py:131-221 | The nested loops yield `Scan` over the items in visiting order. |
| `Reconcile.Conclude` | processor.py:224-244 | Steps 4 and 5 and the save yield `Finish`: in a dry run nothing is saved and the counters pass through; otherwise duplicates add warnings and the painted, sorted workbook is saved. |
| `Reconcile.Run` | processor.py:118-244 | `run` yields `RunOf` of the stored workbook and the folder tree. |
| `Guarantees.RejectedOnlyCountsError` | processor.py:146-165 | A file that fails to parse, is dated outside 2026 or has an empty UUID only adds 1 to `errors`. |
| `Guarantees.KnownKeySkipped` | processor.py:170-174 | A file whose key is already seen changes nothing. |
| `Guarantees.ErrorsAreRejections` | processor.py:146-165 | `errors` counts exactly the rejected files, in either mode. |
| `Guarantees.CountsBounded` | processor.py:146-204 | Each file adds at most one insertion or one error. |
| `Guarantees.DryScanInsertsNothing` | processor.py:186-221 | A dry scan inserts, highlights and remembers nothing. |
| `Guarantees.DryRunSavesNothing` | processor.py:224-244 | `run(dry_run=True)` reports 0 inserted, 0 warnings and the rejections as errors, and saves nothing. |
| `Guarantees.ScanKeepsFresh` | processor.py:170-221 | Throughout the scan, every inserted key is absent from the ledger and has exactly one position, and `inserted` is the number of keys. |
| `Guarantees.InsertedAreDistinctKeys` | processor.py:170-221 | A run inserts one row per distinct new key, and never a key already in the ledger. |
| `Guarantees.RunPaintsNoRed` | processor.py:224-237 | Within a run `_apply_duplicates` counts no duplicate and paints nothing. The saved workbook is the scanned one, sorted. |
| `Guarantees.PlaceAppends` | processor.py:177-221 | An insertion lands last in the month sheet of the invoice date. It is yellow, and counted as a warning, exactly when `Late`. It marks the key seen and records its position. The earlier rows of that sheet are those of the prepared sheet, no sheet other than that one appears, and every other sheet is unchanged. |
| `Guarantees.LateIffMonthsDiffer` | processor.py:207 | The yellow test holds exactly when the folder's month differs from the invoice date's month. |
| `Guarantees.InsertedRowIsYellowWhenLate` | processor.py:177-221 | An accepted file with a new key becomes the last row of its date's month sheet, with its values. It is yellow, and counted as a warning, exactly when its folder's month is not its date's month. The earlier rows of that sheet are those of the prepared sheet and every other sheet is unchanged. |
| `Rerun.ScanTracked` | processor.py:131-221 | After a scan every seen non-empty key is carried by a data row of a scanned sheet, and headers stay consistent. |
| `Rerun.SortBookKeeps` | processor.py:313-346 | Sorting keeps every carried key carried. |
| `Rerun.SavedIndexCoversSeen` | processor.py:118-244 | The saved ledger's index holds the key of every accepted file of the run, when the starting ledger is well-formed, every sheet whose A1 reads "Fecha" carries the full header row (`HeadersConsistent`), and no accepted file normalises to the empty key (`KeyedItems`). |
| `Rerun.ScanAllKnown` | processor.py:170-174 | A scan in which every accepted key is already known only counts errors. |
| `Rerun.SecondRunChangesNothing` | processor.py:118-244 | A second run over the same folders, on the saved ledger, inserts nothing and adds no warning. It reports the same errors and saves the same workbook. This holds when the starting ledger is well-formed, every sheet whose A1 reads "Fecha" carries the full header row (`HeadersConsistent`), and no accepted file normalises to the empty key (`KeyedItems`); without these the source does insert again. |
| `Scenarios.KnownUuidIsNotReinserted` | tests/test_insert_once.py:34-68 | A ledger row holding `{t}` in braces and lower case, and an XML stamped with `Upper(t)`: the run inserts 0, warns 0 and keeps the sheet's row count. |
| `Scenarios.BlankBracedUuidIsAlwaysNew` | processor.py:162-167 | A `{ }` stamp passes the empty-UUID check, files under the key "" which no index holds, and is inserted. |

## Left out

- I/O is not modelled. Reading the XML (`etree.parse`), `load_workbook` and `wb.save`
  become values. A file is an abstract `Voucher` record, or `Unreadable`, and the
  saved workbook is the `saved` result.
- The file system is not modelled. `exists`, `is_dir`, `iterdir` and `glob` become an
  abstract `Reconcile.Tree`: a map from folder name to entries.
- `Reconcile.Items` does not model the platform sort of `glob` beyond name order. It
  also does not model `glob`'s own case rules; a file is XML when its name ends in
  ".xml".
- The nested month, employee and file loops of `run` are flattened into one item
  sequence in visiting order. The order and every check are kept.
- `datetime.fromisoformat(str(value))` is not modelled. On a cell it is the parameter
  `parseCell`, applied to the cell itself, because `str` of an exact amount cannot be
  rebuilt from the scaled integer of a `Number` cell;
  for a document's `Fecha`, the `Voucher` holds the outcome (`None` when missing or
  not ISO).
- Time zones are not modelled. The `Z` to `+00:00` rewrite is left out, and so are
  aware timestamps and the `TypeError` raised when naive and aware dates are compared.
- `Reconcile.Conclude`: the `except` branch around the sort (processor.py:231-235),
  which adds an error, is not modelled. With dates totally ordered, the sort cannot
  raise.
- Amounts are not modelled as `Decimal`. They are exact integers, for example in
  cents. `float(...)` on writing, and the numeric format of cells, are left out.
- Log messages from the `logger` are not modelled.
- The per-cell loops over the twelve columns are each modelled as one row write. These
  are the fill loop of `_fill_row` (processor.py:290-291), the header loop of
  `_ensure_headers` (processor.py:295-296), and the clear and value-write loops of the
  sort (processor.py:335-338, 341-342). See `Ledger.Filled`, `Ledger.WithHeaders` and
  `Sorter.WriteEntries`.
- `Ledger.Created` keeps the new sheet's title exactly as given. openpyxl renames a
  title that equals an existing one up to case, for example "Enero 2026" next to
  "ENERO 2026". After that rename `wb[target_sheet]` raises `KeyError`, and the model
  does not capture this.
- `Duplicates.PaintRed` ignores a position beyond the last row of its sheet. openpyxl
  would create the cells and paint them. The run only paints positions it collected or
  just appended, and those rows exist.
- Fills are modelled as one start colour (RGB text) per row. openpyxl's per-cell
  `PatternFill` objects, ARGB prefixes and end colours are left out. A fill written by
  the engine always covers all twelve cells. Highlight detection reads column 1,
  which this single colour stands for.
- `Ledger.Workbook.EnsureHeaders` does not model the auto-filter range
  `A1:L1` that `_ensure_headers` also sets (processor.py:298-300).
- `Index.CellKey` gives "" for a number or date cell in the UUID column. The source
  would index `str(value)`. A UUID is always text, so only malformed ledgers differ.
- `Sorter.EmployeeKey` gives "" for a non-text employee cell. The source would use
  `str(value).lower()`.
- Case mapping (`upper`, `lower`, `capitalize`) covers the ASCII letters only.
  Accented letters are left as they are. Whitespace for `strip` follows Python's
  `str.isspace`.
- `discover_month_folders` (processor.py:455-458) is not called by `run` and is not
  modelled.
- app.py (the Tk user interface and its worker thread) is not part of this model.
