/** Highlighting duplicated UUIDs in red (`Processor._apply_duplicates`). */
module Duplicates {
  import opened Ledger
  import opened Index

  /** All positions of `key`: those already in the ledger, then those inserted now. */
  function AllPositions(existing: Positions, added: Positions, key: string): seq<Position>
    requires key in added
  {
    Get(existing, key) + added[key]
  }

  /** A key inserted in this run that sits in more than one row. */
  predicate Duplicated(existing: Positions, added: Positions, key: string) {
    key in added && |AllPositions(existing, added, key)| > 1
  }

  /** The duplicated keys among `keys`. */
  function DuplicatedAmong(existing: Positions, added: Positions, keys: set<string>): set<string> {
    set k | k in keys && Duplicated(existing, added, k)
  }

  /** Every position of the duplicated keys among `keys`. */
  function RedAmong(existing: Positions, added: Positions, keys: set<string>): set<Position> {
    set k, p | k in keys && Duplicated(existing, added, k) && p in AllPositions(existing, added, k) :: p
  }

  /** The rows `_apply_duplicates` paints red. */
  function RedPositions(existing: Positions, added: Positions): set<Position> {
    RedAmong(existing, added, added.Keys)
  }

  /** The positions a list mentions. */
  function Members(ps: seq<Position>): (r: set<Position>)
    ensures forall q :: q in r <==> q in ps
  {
    set q | q in ps
  }

  function PaintRows(name: string, rows: seq<Row>, red: set<Position>): seq<Row> {
    seq(|rows|, i requires 0 <= i < |rows| =>
      if Position(name, i + 1) in red then Row(rows[i].values, RedRgb) else rows[i])
  }

  /** The workbook with every existing row listed in `red` filled red; positions naming
      no sheet or no row of their sheet are ignored. */
  function PaintRed(b: Book, red: set<Position>): Book {
    Book(b.names, map n | n in b.sheets :: PaintRows(n, b.sheets[n], red))
  }

  /** Painting keeps the sheets, their rows and every value; only the listed rows
      change colour. */
  lemma PaintRedSpec(b: Book, red: set<Position>)
    ensures var r := PaintRed(b, red);
      && r.names == b.names && r.sheets.Keys == b.sheets.Keys
      && (forall n :: n in b.sheets ==> |r.sheets[n]| == |b.sheets[n]|)
      && (forall n, i :: n in b.sheets && 0 <= i < |b.sheets[n]| ==>
        r.sheets[n][i].values == b.sheets[n][i].values
        && r.sheets[n][i].fill == (if Position(n, i + 1) in red then RedRgb else b.sheets[n][i].fill))
      && (WellFormed(b) ==> WellFormed(r))
  {
  }

  lemma PaintNothing(b: Book)
    ensures PaintRed(b, {}) == b
  {
    PaintRedSpec(b, {});
    SameBook(PaintRed(b, {}), b);
  }

  /** Painting one more in-range position is filling that row. */
  lemma PaintOneMore(b: Book, red: set<Position>, p: Position)
    requires p.sheet in b.sheets && 1 <= p.row <= |b.sheets[p.sheet]|
    ensures Filled(PaintRed(b, red), p.sheet, p.row, RedRgb) == PaintRed(b, red + {p})
  {
    PaintRedSpec(b, red);
    PaintRedSpec(b, red + {p});
    var x, y := Filled(PaintRed(b, red), p.sheet, p.row, RedRgb), PaintRed(b, red + {p});
    forall n, i | n in x.sheets && 0 <= i < |x.sheets[n]|
      ensures x.sheets[n][i].values == y.sheets[n][i].values && x.sheets[n][i].fill == y.sheets[n][i].fill
    {
      var q := Position(n, i + 1);
      assert q in red + {p} <==> q in red || q == p;
      assert q == p <==> n == p.sheet && i == p.row - 1;
    }
    SameBook(x, y);
  }

  /** A position outside the workbook paints nothing. */
  lemma PaintOutside(b: Book, red: set<Position>, p: Position)
    requires !(p.sheet in b.sheets && 1 <= p.row <= |b.sheets[p.sheet]|)
    ensures PaintRed(b, red) == PaintRed(b, red + {p})
  {
    PaintRedSpec(b, red);
    PaintRedSpec(b, red + {p});
    var x, y := PaintRed(b, red), PaintRed(b, red + {p});
    SameBook(x, y);
  }

  /** When every key inserted now is new to the ledger and was inserted once, nothing
      is duplicated and nothing turns red. */
  lemma NoDuplicatesAmongFresh(existing: Positions, added: Positions)
    requires forall k :: k in added ==> k !in existing && |added[k]| == 1
    ensures DuplicatedAmong(existing, added, added.Keys) == {}
    ensures RedPositions(existing, added) == {}
  {
    forall k | k in added ensures !Duplicated(existing, added, k) {
      assert AllPositions(existing, added, k) == added[k];
    }
  }

  lemma CountOneMore(existing: Positions, added: Positions, done: set<string>, key: string)
    requires key in added && key !in done
    ensures |DuplicatedAmong(existing, added, done + {key})| ==
      |DuplicatedAmong(existing, added, done)| + (if Duplicated(existing, added, key) then 1 else 0)
  {
    assert DuplicatedAmong(existing, added, done + {key}) ==
      DuplicatedAmong(existing, added, done) + (if Duplicated(existing, added, key) then {key} else {});
  }

  lemma RedOneMore(existing: Positions, added: Positions, done: set<string>, key: string)
    requires key in added
    ensures RedAmong(existing, added, done + {key}) ==
      RedAmong(existing, added, done) + (if Duplicated(existing, added, key) then Members(AllPositions(existing, added, key)) else {})
  {
  }

  lemma MembersStep(all: seq<Position>, j: nat)
    requires j < |all|
    ensures Members(all[..j + 1]) == Members(all[..j]) + {all[j]}
  {
    assert all[..j + 1] == all[..j] + [all[j]];
  }

  /** One step of the inner loop of `_apply_duplicates`: fills the row at `p` when it
      exists. */
  method PaintOne(wb: Workbook, p: Position, ghost b: Book, ghost red: set<Position>)
    requires wb.View() == PaintRed(b, red)
    modifies wb
    ensures wb.View() == PaintRed(b, red + {p})
  {
    PaintRedSpec(b, red);
    if p.sheet in wb.sheets && 1 <= p.row <= |wb.sheets[p.sheet]| {
      PaintOneMore(b, red, p);
      wb.FillRow(p.sheet, p.row, RedRgb);
    } else {
      PaintOutside(b, red, p);
    }
  }

  /** The inner loop of `_apply_duplicates`: fills every listed row that exists. */
  method PaintPositions(wb: Workbook, all: seq<Position>, ghost b: Book, ghost red: set<Position>)
    requires wb.View() == PaintRed(b, red)
    modifies wb
    ensures wb.View() == PaintRed(b, red + Members(all))
  {
    var j := 0;
    assert red + Members(all[..0]) == red;
    while j < |all|
      invariant j <= |all|
      invariant wb.View() == PaintRed(b, red + Members(all[..j]))
    {
      MembersStep(all, j);
      PaintOne(wb, all[j], b, red + Members(all[..j]));
      assert red + Members(all[..j]) + {all[j]} == red + Members(all[..j + 1]);
      j := j + 1;
    }
    assert all[..j] == all;
  }

  /** One key of the outer loop of `_apply_duplicates`: paints the key's rows when it is
      duplicated and says whether it was. */
  method PaintKey(wb: Workbook, existing: Positions, added: Positions, key: string,
                  ghost b: Book, ghost done: set<string>) returns (duplicated: bool)
    requires key in added
    requires wb.View() == PaintRed(b, RedAmong(existing, added, done))
    modifies wb
    ensures wb.View() == PaintRed(b, RedAmong(existing, added, done + {key}))
    ensures duplicated == Duplicated(existing, added, key)
  {
    var all := Get(existing, key) + added[key];
    RedOneMore(existing, added, done, key);
    duplicated := |all| > 1;
    if duplicated {
      PaintPositions(wb, all, b, RedAmong(existing, added, done));
    } else {
      assert RedAmong(existing, added, done + {key}) == RedAmong(existing, added, done);
    }
  }

  /** `Processor._apply_duplicates`: returns how many keys of `added` are duplicated and
      paints every row holding one of them. */
  method ApplyDuplicates(wb: Workbook, existing: Positions, added: Positions) returns (dupCount: nat)
    modifies wb
    ensures wb.View() == PaintRed(old(wb.View()), RedPositions(existing, added))
    ensures dupCount == |DuplicatedAmong(existing, added, added.Keys)|
  {
    ghost var b := wb.View();
    dupCount := 0;
    var remaining := added.Keys;
    ghost var done: set<string> := {};
    PaintNothing(b);
    assert RedAmong(existing, added, done) == {};
    while remaining != {}
      invariant remaining <= added.Keys && done == added.Keys - remaining
      invariant wb.View() == PaintRed(b, RedAmong(existing, added, done))
      invariant dupCount == |DuplicatedAmong(existing, added, done)|
      decreases |remaining|
    {
      var key :| key in remaining;
      CountOneMore(existing, added, done, key);
      var duplicated := PaintKey(wb, existing, added, key, b, done);
      if duplicated {
        dupCount := dupCount + 1;
      }
      remaining := remaining - {key};
      done := done + {key};
    }
    assert done == added.Keys;
  }
}
