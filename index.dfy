/** The index of fiscal UUIDs already in the ledger (`Processor._collect_uuid_positions`):
    normalised UUID -> the (sheet, row) of every data row that carries it. */
module Index {
  import opened Uuid
  import opened Ledger

  /** A `(sheet_name, row_number)` pair. */
  datatype Position = Position(sheet: string, row: nat)

  type Positions = map<string, seq<Position>>

  /** `m.get(key, [])`. */
  function Get(m: Positions, key: string): seq<Position> {
    if key in m then m[key] else []
  }

  /** `m.setdefault(key, []).append(p)`. */
  function Record(m: Positions, key: string, p: Position): (r: Positions)
    ensures r.Keys == m.Keys + {key}
    ensures Get(r, key) == Get(m, key) + [p]
    ensures forall k :: k != key ==> Get(r, k) == Get(m, k)
  {
    m[key := Get(m, key) + [p]]
  }

  /** The key of a UUID cell: its text normalised; "" for blank and non-text cells. */
  function CellKey(c: Cell): string {
    if c.Text? then NormalizeUuid(c.s) else ""
  }

  lemma TextCellKey(u: string)
    ensures CellKey(Text(u)) == NormalizeUuid(u)
  {
  }

  /** The key of the UUID column (E) of a row. */
  function UuidKey(row: Row): string {
    CellKey(CellAt(row, 5))
  }

  /** A sheet is scanned only when it has a data row and its row 1 is exactly `COLUMNS`. */
  predicate Indexed(rows: seq<Row>) {
    |rows| >= 2 && rows[0].values == HeaderValues
  }

  /** The keys of the UUID column, row by row. */
  function KeyColumn(rows: seq<Row>): seq<string> {
    seq(|rows|, i requires 0 <= i < |rows| => UuidKey(rows[i]))
  }

  /** The index after scanning rows 2..`upto` of sheet `name`, in order, given the
      keys of its UUID column. */
  function IndexRows(m: Positions, name: string, keys: seq<string>, upto: nat): Positions
    requires upto <= |keys|
    decreases upto
  {
    if upto < 2 then m
    else
      var m' := IndexRows(m, name, keys, upto - 1);
      var key := keys[upto - 1];
      if key != "" then Record(m', key, Position(name, upto)) else m'
  }

  function IndexSheet(m: Positions, b: Book, name: string): Positions {
    if name in b.sheets && Indexed(b.sheets[name])
    then IndexRows(m, name, KeyColumn(b.sheets[name]), |b.sheets[name]|)
    else m
  }

  /** The index after scanning the first `k` sheets in workbook order. */
  function IndexNames(b: Book, k: nat): Positions
    requires k <= |b.names|
  {
    if k == 0 then map[] else IndexSheet(IndexNames(b, k - 1), b, b.names[k - 1])
  }

  /** What `_collect_uuid_positions(wb)` returns. */
  function IndexOf(b: Book): Positions {
    IndexNames(b, |b.names|)
  }

  /** The non-empty UUID keys of the data rows of a scanned sheet. */
  function SheetKeys(rows: seq<Row>): set<string> {
    if Indexed(rows) then KeySet(KeyColumn(rows), |rows|) else {}
  }

  /** The non-empty keys among rows 2..`upto`. */
  function KeySet(keys: seq<string>, upto: nat): set<string>
    requires upto <= |keys|
  {
    set i | 1 <= i < upto && keys[i] != "" :: keys[i]
  }

  /** Every key some scanned sheet of the workbook carries. */
  ghost function BookKeys(b: Book): set<string> {
    set n, k | n in b.sheets && k in SheetKeys(b.sheets[n]) :: k
  }

  /** The row positions of every sheet are listed in increasing row order. */
  predicate Ascending(ps: seq<Position>) {
    forall i, j :: 0 <= i < j < |ps| && ps[i].sheet == ps[j].sheet ==> ps[i].row < ps[j].row
  }

  // ---------------------------------------------------------------- one sheet

  lemma {:induction false} IndexRowsSound(m: Positions, name: string, keys: seq<string>, upto: nat, k: string, p: Position)
    requires upto <= |keys|
    requires p in Get(IndexRows(m, name, keys, upto), k)
    ensures p in Get(m, k) || (p.sheet == name && 2 <= p.row <= upto && k != "" && keys[p.row - 1] == k)
    decreases upto
  {
    if upto >= 2 {
      var m' := IndexRows(m, name, keys, upto - 1);
      var key := keys[upto - 1];
      if key != "" && k == key && p !in Get(m', k) {
        assert p == Position(name, upto);
      } else {
        IndexRowsSound(m, name, keys, upto - 1, k, p);
      }
    }
  }

  lemma {:induction false} IndexRowsGrows(m: Positions, name: string, keys: seq<string>, upto: nat, k: string)
    requires upto <= |keys|
    ensures Get(m, k) <= Get(IndexRows(m, name, keys, upto), k)
    ensures forall r :: 2 <= r <= upto && keys[r - 1] == k && k != "" ==>
      Position(name, r) in Get(IndexRows(m, name, keys, upto), k)
    decreases upto
  {
    if upto >= 2 {
      IndexRowsGrows(m, name, keys, upto - 1, k);
    }
  }

  lemma {:induction false} IndexRowsHas(m: Positions, name: string, keys: seq<string>, upto: nat, r: nat)
    requires 2 <= r <= upto <= |keys| && keys[r - 1] != ""
    ensures Position(name, r) in Get(IndexRows(m, name, keys, upto), keys[r - 1])
    decreases upto
  {
    if r < upto {
      IndexRowsHas(m, name, keys, upto - 1, r);
      var key := keys[upto - 1];
      if key != "" {
        assert Get(IndexRows(m, name, keys, upto), keys[r - 1]) == Get(Record(IndexRows(m, name, keys, upto - 1), key, Position(name, upto)), keys[r - 1]);
      }
    }
  }

  lemma {:induction false} IndexRowsKeys(m: Positions, name: string, keys: seq<string>, upto: nat)
    requires upto <= |keys|
    ensures IndexRows(m, name, keys, upto).Keys == m.Keys + KeySet(keys, upto)
    decreases upto
  {
    if upto >= 2 {
      IndexRowsKeys(m, name, keys, upto - 1);
      var key := keys[upto - 1];
      assert KeySet(keys, upto) == KeySet(keys, upto - 1) + (if key != "" then {key} else {});
    } else {
      assert KeySet(keys, upto) == {};
    }
  }

  lemma {:induction false} IndexRowsAscending(m: Positions, name: string, keys: seq<string>, upto: nat, k: string)
    requires upto <= |keys|
    requires Ascending(Get(m, k)) && forall p :: p in Get(m, k) ==> p.sheet != name
    ensures Ascending(Get(IndexRows(m, name, keys, upto), k))
    decreases upto
  {
    if upto >= 2 {
      var m' := IndexRows(m, name, keys, upto - 1);
      IndexRowsAscending(m, name, keys, upto - 1, k);
      var key := keys[upto - 1];
      if key != "" && key == k {
        var ps := Get(m', k);
        forall i | 0 <= i < |ps| && ps[i].sheet == name ensures ps[i].row < upto {
          IndexRowsSound(m, name, keys, upto - 1, k, ps[i]);
        }
        assert Get(IndexRows(m, name, keys, upto), k) == ps + [Position(name, upto)];
      }
    }
  }

  // ---------------------------------------------------------------- the workbook

  lemma {:induction false} IndexNamesSound(b: Book, n: nat, k: string, p: Position)
    requires n <= |b.names|
    requires p in Get(IndexNames(b, n), k)
    ensures p.sheet in b.names[..n] && p.sheet in b.sheets && Indexed(b.sheets[p.sheet])
    ensures 2 <= p.row <= |b.sheets[p.sheet]| && k != "" && KeyColumn(b.sheets[p.sheet])[p.row - 1] == k
  {
    if n > 0 {
      var name := b.names[n - 1];
      var m := IndexNames(b, n - 1);
      assert b.names[..n] == b.names[..n - 1] + [name];
      if name in b.sheets && Indexed(b.sheets[name]) {
        IndexRowsSound(m, name, KeyColumn(b.sheets[name]), |b.sheets[name]|, k, p);
        if p in Get(m, k) {
          IndexNamesSound(b, n - 1, k, p);
        }
      } else {
        IndexNamesSound(b, n - 1, k, p);
      }
    }
  }

  lemma {:induction false} IndexNamesGrows(b: Book, n: nat, n': nat, k: string)
    requires n <= n' <= |b.names|
    ensures Get(IndexNames(b, n), k) <= Get(IndexNames(b, n'), k)
    decreases n' - n
  {
    if n < n' {
      IndexNamesGrows(b, n, n' - 1, k);
      var name := b.names[n' - 1];
      if name in b.sheets && Indexed(b.sheets[name]) {
        IndexRowsGrows(IndexNames(b, n' - 1), name, KeyColumn(b.sheets[name]), |b.sheets[name]|, k);
      }
    }
  }

  /** Every position the index lists is a data row of a scanned sheet whose UUID has
      that (non-empty) key. */
  lemma IndexSound(b: Book, k: string, p: Position)
    requires p in Get(IndexOf(b), k)
    ensures p.sheet in b.sheets && Indexed(b.sheets[p.sheet])
    ensures 2 <= p.row <= |b.sheets[p.sheet]| && k != "" && UuidKey(b.sheets[p.sheet][p.row - 1]) == k
  {
    IndexNamesSound(b, |b.names|, k, p);
  }

  lemma IndexNamesHas(b: Book, j: nat, r: nat)
    requires j < |b.names| && b.names[j] in b.sheets && Indexed(b.sheets[b.names[j]])
    requires 2 <= r <= |b.sheets[b.names[j]]| && KeyColumn(b.sheets[b.names[j]])[r - 1] != ""
    ensures Position(b.names[j], r) in Get(IndexOf(b), KeyColumn(b.sheets[b.names[j]])[r - 1])
  {
    var name := b.names[j];
    var rows := b.sheets[name];
    var keys := KeyColumn(rows);
    var k := keys[r - 1];
    var m := IndexNames(b, j);
    IndexRowsHas(m, name, keys, |rows|, r);
    var before := Get(IndexNames(b, j + 1), k);
    assert Position(name, r) in before;
    IndexNamesGrows(b, j + 1, |b.names|, k);
    PrefixKeeps(before, Get(IndexOf(b), k), Position(name, r));
  }

  lemma PrefixKeeps<T>(a: seq<T>, c: seq<T>, x: T)
    requires a <= c && x in a
    ensures x in c
  {
    var i :| 0 <= i < |a| && a[i] == x;
    assert c[i] == x;
  }

  /** Every data row of a scanned sheet with a non-empty UUID key is listed under it. */
  lemma IndexComplete(b: Book, name: string, r: nat)
    requires WellFormed(b)
    requires name in b.sheets && Indexed(b.sheets[name]) && 2 <= r <= |b.sheets[name]|
    requires KeyColumn(b.sheets[name])[r - 1] != ""
    ensures Position(name, r) in Get(IndexOf(b), KeyColumn(b.sheets[name])[r - 1])
  {
    var j :| 0 <= j < |b.names| && b.names[j] == name;
    IndexNamesHas(b, j, r);
  }

  /** So every such key is a key of the index. */
  lemma IndexHasKey(b: Book, name: string, i: nat)
    requires WellFormed(b)
    requires name in b.sheets && Indexed(b.sheets[name]) && 1 <= i < |b.sheets[name]|
    requires KeyColumn(b.sheets[name])[i] != ""
    ensures KeyColumn(b.sheets[name])[i] in IndexOf(b)
  {
    IndexComplete(b, name, i + 1);
  }

  /** The keys of sheet `name` of the workbook, none when there is no such sheet. */
  ghost function KeysOf(b: Book): string -> set<string> {
    name => if name in b.sheets then SheetKeys(b.sheets[name]) else {}
  }

  /** The union of `keysOf` over the first `n` names. */
  ghost function UnionOver(names: seq<string>, keysOf: string -> set<string>, n: nat): set<string>
    requires n <= |names|
  {
    if n == 0 then {} else UnionOver(names, keysOf, n - 1) + keysOf(names[n - 1])
  }

  lemma {:induction false} UnionOverHas(names: seq<string>, keysOf: string -> set<string>, n: nat, k: string)
    requires n <= |names|
    ensures k in UnionOver(names, keysOf, n) <==> exists i :: 0 <= i < n && k in keysOf(names[i])
  {
    if n > 0 {
      UnionOverHas(names, keysOf, n - 1, k);
    }
  }

  lemma {:induction false} IndexNamesKeys(b: Book, n: nat)
    requires n <= |b.names|
    ensures IndexNames(b, n).Keys == UnionOver(b.names, KeysOf(b), n)
  {
    if n > 0 {
      IndexNamesKeys(b, n - 1);
      var name := b.names[n - 1];
      if name in b.sheets && Indexed(b.sheets[name]) {
        IndexRowsKeys(IndexNames(b, n - 1), name, KeyColumn(b.sheets[name]), |b.sheets[name]|);
      }
    }
  }

  /** The keys of the index are exactly the keys some scanned sheet carries. */
  lemma IndexKeys(b: Book)
    requires WellFormed(b)
    ensures IndexOf(b).Keys == BookKeys(b)
  {
    var f := KeysOf(b);
    IndexNamesKeys(b, |b.names|);
    forall k ensures k in UnionOver(b.names, f, |b.names|) <==> k in BookKeys(b) {
      UnionOverHas(b.names, f, |b.names|, k);
      if k in BookKeys(b) {
        var n :| n in b.sheets && k in SheetKeys(b.sheets[n]);
        var i :| 0 <= i < |b.names| && b.names[i] == n;
        assert k in f(b.names[i]);
      }
    }
  }

  lemma IndexNamesSheet(b: Book, n: nat, k: string, p: Position)
    requires n <= |b.names|
    requires p in Get(IndexNames(b, n), k)
    ensures p.sheet in b.names[..n]
  {
    IndexNamesSound(b, n, k, p);
  }

  lemma DistinctLast(names: seq<string>, n: nat)
    requires Distinct(names) && n < |names|
    ensures names[n] !in names[..n]
  {
  }

  lemma {:induction false} IndexNamesAscending(b: Book, n: nat, k: string)
    requires Distinct(b.names) && n <= |b.names|
    ensures Ascending(Get(IndexNames(b, n), k))
  {
    if n > 0 {
      IndexNamesAscending(b, n - 1, k);
      var name := b.names[n - 1];
      var m := IndexNames(b, n - 1);
      if name in b.sheets && Indexed(b.sheets[name]) {
        DistinctLast(b.names, n - 1);
        forall p | p in Get(m, k) ensures p.sheet != name {
          IndexNamesSheet(b, n - 1, k, p);
        }
        IndexRowsAscending(m, name, KeyColumn(b.sheets[name]), |b.sheets[name]|, k);
      }
    }
  }

  /** Within each sheet the positions of a key are listed top to bottom, so none twice. */
  lemma IndexAscending(b: Book, k: string)
    requires WellFormed(b)
    ensures Ascending(Get(IndexOf(b), k))
  {
    IndexNamesAscending(b, |b.names|, k);
  }

  /** The inner loop of `_collect_uuid_positions`, over the data rows of one sheet. */
  method IndexSheetRows(index0: Positions, name: string, rows: seq<Row>) returns (index: Positions)
    requires |rows| >= 2
    ensures index == IndexRows(index0, name, KeyColumn(rows), |rows|)
  {
    ghost var keys := KeyColumn(rows);
    index := index0;
    var r := 2;
    while r <= |rows|
      invariant 2 <= r <= |rows| + 1
      invariant index == IndexRows(index0, name, keys, r - 1)
    {
      var key := CellKey(CellAt(rows[r - 1], 5));
      KeyColumnAt(rows, r - 1);
      if key != "" {
        index := Record(index, key, Position(name, r));
      }
      r := r + 1;
    }
  }

  lemma KeyColumnAt(rows: seq<Row>, i: nat)
    requires i < |rows|
    ensures KeyColumn(rows)[i] == CellKey(CellAt(rows[i], 5))
  {
  }

  /** `Processor._collect_uuid_positions`. */
  method CollectUuidPositions(wb: Workbook) returns (index: Positions)
    ensures index == IndexOf(wb.View())
  {
    ghost var b := wb.View();
    index := map[];
    var k := 0;
    while k < |wb.names|
      invariant k <= |wb.names|
      invariant index == IndexNames(b, k)
    {
      var name := wb.names[k];
      if name in wb.sheets {
        var rows := wb.sheets[name];
        if |rows| >= 2 && rows[0].values == HeaderValues {
          index := IndexSheetRows(index, name, rows);
        }
      }
      k := k + 1;
    }
  }
}
