/** The control workbook: named sheets of rows, each row twelve cell values in the
    layout of `COLUMNS` plus the fill colour of its cells. Row `r` of a sheet (1-based,
    as in openpyxl) is `rows[r - 1]`, and `max_row` is `|rows|`. */
module Ledger {
  import opened Calendar

  /** A cell value as openpyxl loads it. Amounts are exact numbers. */
  datatype Cell = Blank | Text(s: string) | Number(n: int) | Stamp(at: DateTime)

  /** One worksheet row: the values of columns A..L and the start colour (RGB hex) of
      its fill, "" when the cells carry no fill. */
  datatype Row = Row(values: seq<Cell>, fill: string)

  /** `COLUMNS`, the ledger's header. */
  const Columns: seq<string> := ["Fecha", "Proveedor", "Proveedor RFC", "Folio Factura", "UUID",
    "Concepto", "Importe", "IVA", "Otros Impuestos", "Total", "Comentarios", "Empleado"]

  /** The number of ledger columns, `len(COLUMNS)`. */
  const Width := 12

  /** Row 1 as `_ensure_headers` writes it. */
  const HeaderValues: seq<Cell> := [Text("Fecha"), Text("Proveedor"), Text("Proveedor RFC"),
    Text("Folio Factura"), Text("UUID"), Text("Concepto"), Text("Importe"), Text("IVA"),
    Text("Otros Impuestos"), Text("Total"), Text("Comentarios"), Text("Empleado")]

  /** `YELLOW` and `RED`: the start colours of the two highlight fills. */
  const YellowRgb := "FFF59D"
  const RedRgb := "EF9A9A"

  lemma HeaderMatchesColumns()
    ensures |HeaderValues| == |Columns| == Width
    ensures forall i :: 0 <= i < Width ==> HeaderValues[i] == Text(Columns[i])
  {
  }

  /** The workbook as a value: sheet names in workbook order and each sheet's rows. */
  datatype Book = Book(names: seq<string>, sheets: map<string, seq<Row>>)

  predicate Distinct(names: seq<string>) {
    forall i, j :: 0 <= i < j < |names| ==> names[i] != names[j]
  }

  predicate RowsWellFormed(rows: seq<Row>) {
    forall i :: 0 <= i < |rows| ==> |rows[i].values| == Width
  }

  /** Every sheet is listed once in `names`, and every row spans the twelve columns. */
  ghost predicate WellFormed(b: Book) {
    && Distinct(b.names)
    && (forall n :: n in b.sheets <==> n in b.names)
    && (forall n :: n in b.sheets ==> RowsWellFormed(b.sheets[n]))
  }

  /** The value of cell A1, `ws.cell(1, 1).value`. */
  function A1(rows: seq<Row>): Cell {
    if rows != [] && rows[0].values != [] then rows[0].values[0] else Blank
  }

  /** The value in column `column` (1-based) of a row; blank beyond the row. */
  function CellAt(row: Row, column: nat): Cell {
    if 1 <= column <= |row.values| then row.values[column - 1] else Blank
  }

  /** The rows below the header. */
  function DataRows(rows: seq<Row>): seq<Row> {
    if rows == [] then [] else rows[1..]
  }

  /** `wb.create_sheet(name)`: a new, empty sheet placed last. */
  function Created(b: Book, name: string): (r: Book)
    requires name !in b.sheets
    ensures r.names == b.names + [name]
    ensures name in r.sheets && r.sheets[name] == []
    ensures forall n :: n in b.sheets ==> n in r.sheets && r.sheets[n] == b.sheets[n]
    ensures WellFormed(b) ==> WellFormed(r)
  {
    Book(b.names + [name], b.sheets[name := []])
  }

  /** `_ensure_headers`: unless A1 already reads "Fecha", row 1 takes the twelve headers
      (its fill is kept; an empty sheet gains a header row). Data rows never change. */
  function WithHeaders(b: Book, name: string): (r: Book)
    requires name in b.sheets
    ensures r.names == b.names && r.sheets.Keys == b.sheets.Keys
    ensures forall n :: n in b.sheets && n != name ==> r.sheets[n] == b.sheets[n]
    ensures A1(r.sheets[name]) == Text("Fecha")
    ensures A1(b.sheets[name]) == Text("Fecha") ==> r == b
    ensures A1(b.sheets[name]) != Text("Fecha") ==> r.sheets[name][0].values == HeaderValues
    ensures r.sheets[name] != [] && DataRows(r.sheets[name]) == DataRows(b.sheets[name])
    ensures WellFormed(b) ==> WellFormed(r)
  {
    var rows := b.sheets[name];
    if A1(rows) == Text("Fecha") then b
    else
      var header := if rows == [] then Row(HeaderValues, "") else Row(HeaderValues, rows[0].fill);
      var rows' := [header] + DataRows(rows);
      assert DataRows(rows') == DataRows(rows);
      Book(b.names, b.sheets[name := rows'])
  }

  /** `ws.append(values)`: the row lands below the last one, at row `|rows| + 1`. */
  function Appended(b: Book, name: string, row: Row): (r: Book)
    requires name in b.sheets
    ensures r.names == b.names && r.sheets.Keys == b.sheets.Keys
    ensures forall n :: n in b.sheets && n != name ==> r.sheets[n] == b.sheets[n]
    ensures r.sheets[name] == b.sheets[name] + [row]
    ensures WellFormed(b) && |row.values| == Width ==> WellFormed(r)
  {
    Book(b.names, b.sheets[name := b.sheets[name] + [row]])
  }

  /** `_fill_row(ws, row_number, fill)`: every cell of that row takes the colour; the
      values and every other row stay. */
  function Filled(b: Book, name: string, rowNumber: nat, rgb: string): (r: Book)
    requires name in b.sheets && 1 <= rowNumber <= |b.sheets[name]|
    ensures r.names == b.names && r.sheets.Keys == b.sheets.Keys
    ensures forall n :: n in b.sheets && n != name ==> r.sheets[n] == b.sheets[n]
    ensures |r.sheets[name]| == |b.sheets[name]|
    ensures forall i :: 0 <= i < |b.sheets[name]| ==>
      r.sheets[name][i].values == b.sheets[name][i].values
      && r.sheets[name][i].fill == (if i == rowNumber - 1 then rgb else b.sheets[name][i].fill)
    ensures WellFormed(b) ==> WellFormed(r)
  {
    var rows := b.sheets[name];
    var i := rowNumber - 1;
    Book(b.names, b.sheets[name := rows[i := Row(rows[i].values, rgb)]])
  }

  /** Two workbooks with the same names, sheets, row counts and rows are equal. */
  lemma SameBook(x: Book, y: Book)
    requires x.names == y.names && x.sheets.Keys == y.sheets.Keys
    requires forall n :: n in x.sheets ==> |x.sheets[n]| == |y.sheets[n]|
    requires forall n, i :: n in x.sheets && 0 <= i < |x.sheets[n]| ==>
      x.sheets[n][i].values == y.sheets[n][i].values && x.sheets[n][i].fill == y.sheets[n][i].fill
    ensures x == y
  {
    forall n | n in x.sheets ensures x.sheets[n] == y.sheets[n] {
      forall i | 0 <= i < |x.sheets[n]| ensures x.sheets[n][i] == y.sheets[n][i] {
      }
    }
    assert x.sheets == y.sheets;
  }

  /** Ensuring the headers twice is ensuring them once. */
  lemma WithHeadersIdempotent(b: Book, name: string)
    requires name in b.sheets
    ensures WithHeaders(WithHeaders(b, name), name) == WithHeaders(b, name)
  {
  }

  /** The open workbook, updated in place by the run. */
  class Workbook {
    var names: seq<string>
    var sheets: map<string, seq<Row>>

    function View(): Book
      reads this
    {
      Book(names, sheets)
    }

    /** `load_workbook`: the sheets as they are stored. */
    constructor (b: Book)
      ensures View() == b
    {
      names, sheets := b.names, b.sheets;
    }

    method CreateSheet(name: string)
      requires name !in sheets
      modifies this
      ensures View() == Created(old(View()), name)
    {
      names, sheets := names + [name], sheets[name := []];
    }

    /** `Processor._ensure_headers`. The autofilter range it also sets is not modelled. */
    method EnsureHeaders(name: string)
      requires name in sheets
      modifies this
      ensures View() == WithHeaders(old(View()), name)
    {
      var rows := sheets[name];
      if A1(rows) != Text("Fecha") {
        var header := if rows == [] then Row(HeaderValues, "") else Row(HeaderValues, rows[0].fill);
        sheets := sheets[name := [header] + DataRows(rows)];
      }
    }

    /** `ws.append(values)` followed by `ws.max_row`: the number of the new row. */
    method Append(name: string, row: Row) returns (rowNumber: nat)
      requires name in sheets
      modifies this
      ensures View() == Appended(old(View()), name, row)
      ensures rowNumber == |sheets[name]| && sheets[name][rowNumber - 1] == row
    {
      sheets := sheets[name := sheets[name] + [row]];
      rowNumber := |sheets[name]|;
    }

    /** `Processor._fill_row`. */
    method FillRow(name: string, rowNumber: nat, rgb: string)
      requires name in sheets && 1 <= rowNumber <= |sheets[name]|
      modifies this
      ensures View() == Filled(old(View()), name, rowNumber, rgb)
    {
      var rows := sheets[name];
      var i := rowNumber - 1;
      sheets := sheets[name := rows[i := Row(rows[i].values, rgb)]];
    }
  }
}
