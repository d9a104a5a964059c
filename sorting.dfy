/** The order `_sort_all_month_sheets` puts data rows in: Python's stable `list.sort` with
    the key `(employee, date)`, where tuples compare field by field. The sort is defined
    as a stable insertion sort; the lemmas show it orders, permutes and keeps ties in
    their input order, which determines the result uniquely. */
module Sorting {
  import opened Text
  import opened Calendar

  /** The sort key of one data row: the employee name in lower case, then its date. */
  datatype SortKey = SortKey(employee: string, date: DateTime)

  /** `(e1, d1) < (e2, d2)` on Python tuples. */
  predicate KeyLess(a: SortKey, b: SortKey) {
    LexLess(a.employee, b.employee) || (a.employee == b.employee && Before(a.date, b.date))
  }

  lemma KeyLessIrreflexive(a: SortKey)
    ensures !KeyLess(a, a)
  {
    LexIrreflexive(a.employee);
    BeforeIsStrictTotalOrder(a.date, a.date, a.date);
  }

  lemma KeyLessTransitive(a: SortKey, b: SortKey, c: SortKey)
    requires KeyLess(a, b) && KeyLess(b, c)
    ensures KeyLess(a, c)
  {
    BeforeIsStrictTotalOrder(a.date, b.date, c.date);
    if LexLess(a.employee, b.employee) && LexLess(b.employee, c.employee) {
      LexTransitive(a.employee, b.employee, c.employee);
    }
  }

  /** Two keys that are not equal are ordered one way or the other. */
  lemma KeyLessTotal(a: SortKey, b: SortKey)
    requires a != b
    ensures KeyLess(a, b) || KeyLess(b, a)
  {
    BeforeIsStrictTotalOrder(a.date, b.date, b.date);
    if a.employee != b.employee {
      LexTotal(a.employee, b.employee);
    }
  }

  lemma KeyLessAsymmetric(a: SortKey, b: SortKey)
    ensures KeyLess(a, b) ==> !KeyLess(b, a)
  {
    LexAsymmetric(a.employee, b.employee);
    LexIrreflexive(a.employee);
    BeforeIsStrictTotalOrder(a.date, b.date, a.date);
  }

  lemma KeyTrichotomy(a: SortKey, b: SortKey)
    ensures a == b || KeyLess(a, b) || KeyLess(b, a)
  {
    if a != b {
      KeyLessTotal(a, b);
    }
  }

  /** `a < b <= c` gives `a < c`. */
  lemma LessThenNotGreater(a: SortKey, b: SortKey, c: SortKey)
    requires KeyLess(a, b) && !KeyLess(c, b)
    ensures KeyLess(a, c)
  {
    if b != c {
      KeyLessTotal(c, b);
      KeyLessTransitive(a, b, c);
    }
  }

  /** No element is followed by one with a smaller key. */
  predicate SortedBy<T>(xs: seq<T>, key: T -> SortKey) {
    forall i, j :: 0 <= i < j < |xs| ==> !KeyLess(key(xs[j]), key(xs[i]))
  }

  /** The elements whose key is `k`, in order. */
  function Filter<T>(xs: seq<T>, key: T -> SortKey, k: SortKey): seq<T> {
    if xs == [] then [] else (if key(xs[0]) == k then [xs[0]] else []) + Filter(xs[1..], key, k)
  }

  function MapSeq<A, B>(f: A -> B, xs: seq<A>): (r: seq<B>)
    ensures |r| == |xs| && forall i :: 0 <= i < |xs| ==> r[i] == f(xs[i])
  {
    if xs == [] then [] else [f(xs[0])] + MapSeq(f, xs[1..])
  }

  /** `x` placed before the first element whose key is strictly greater. */
  function Insert<T>(xs: seq<T>, x: T, key: T -> SortKey): seq<T> {
    if xs == [] then [x]
    else if KeyLess(key(x), key(xs[0])) then [x] + xs
    else [xs[0]] + Insert(xs[1..], x, key)
  }

  /** Stable sort by `key`: each element, in input order, inserted after its equals. */
  function StableSort<T>(xs: seq<T>, key: T -> SortKey): seq<T> {
    if xs == [] then [] else Insert(StableSort(xs[..|xs| - 1], key), xs[|xs| - 1], key)
  }

  // ---------------------------------------------------------------- Insert

  lemma {:induction false} InsertCount<T>(xs: seq<T>, x: T, key: T -> SortKey)
    ensures multiset(Insert(xs, x, key)) == multiset(xs) + multiset{x}
  {
    if xs != [] && !KeyLess(key(x), key(xs[0])) {
      InsertCount(xs[1..], x, key);
      assert xs == [xs[0]] + xs[1..];
    }
  }

  lemma {:induction false} InsertSorted<T>(xs: seq<T>, x: T, key: T -> SortKey)
    requires SortedBy(xs, key)
    ensures SortedBy(Insert(xs, x, key), key)
  {
    if xs == [] {
    } else if KeyLess(key(x), key(xs[0])) {
      var r := [x] + xs;
      forall j | 1 <= j < |r| ensures !KeyLess(key(r[j]), key(x)) {
        assert r[j] == xs[j - 1];
        KeyLessIrreflexive(key(xs[0]));
        LessThenNotGreater(key(x), key(xs[0]), key(xs[j - 1]));
        KeyLessAsymmetric(key(x), key(xs[j - 1]));
      }
    } else {
      var rest := Insert(xs[1..], x, key);
      InsertSorted(xs[1..], x, key);
      InsertCount(xs[1..], x, key);
      var r := [xs[0]] + rest;
      forall j | 1 <= j < |r| ensures !KeyLess(key(r[j]), key(xs[0])) {
        assert r[j] in multiset(rest);
        if r[j] != x {
          var i :| 0 <= i < |xs[1..]| && xs[1..][i] == r[j];
          assert xs[i + 1] == r[j];
        }
      }
    }
  }

  /** All elements of a sorted sequence are at least its first element. */
  lemma FilterAllGreater<T>(xs: seq<T>, key: T -> SortKey, k: SortKey)
    requires SortedBy(xs, key) && xs != [] && KeyLess(k, key(xs[0]))
    ensures Filter(xs, key, k) == []
    decreases |xs|
  {
    KeyLessIrreflexive(k);
    if |xs| > 1 {
      var ys := xs[1..];
      assert !KeyLess(key(ys[0]), key(xs[0]));
      LessThenNotGreater(k, key(xs[0]), key(ys[0]));
      assert SortedBy(ys, key) by {
        forall i, j | 0 <= i < j < |ys| ensures !KeyLess(key(ys[j]), key(ys[i])) {
          assert ys[i] == xs[i + 1] && ys[j] == xs[j + 1];
        }
      }
      FilterAllGreater(ys, key, k);
    }
  }

  lemma {:induction false} InsertFilter<T>(xs: seq<T>, x: T, key: T -> SortKey, k: SortKey)
    requires SortedBy(xs, key)
    ensures Filter(Insert(xs, x, key), key, k) == Filter(xs, key, k) + (if key(x) == k then [x] else [])
  {
    if xs == [] {
    } else if KeyLess(key(x), key(xs[0])) {
      var r := [x] + xs;
      assert r[1..] == xs;
      if key(x) == k {
        FilterAllGreater(xs, key, k);
      }
    } else {
      var ys := xs[1..];
      SortedTail(xs, key);
      InsertFilter(ys, x, key, k);
      var head := if key(xs[0]) == k then [xs[0]] else [];
      var r := [xs[0]] + Insert(ys, x, key);
      assert r[1..] == Insert(ys, x, key);
      assert Filter(r, key, k) == head + Filter(Insert(ys, x, key), key, k);
      assert Filter(xs, key, k) == head + Filter(ys, key, k);
    }
  }

  lemma SortedTail<T>(xs: seq<T>, key: T -> SortKey)
    requires SortedBy(xs, key) && xs != []
    ensures SortedBy(xs[1..], key)
  {
    var ys := xs[1..];
    forall i, j | 0 <= i < j < |ys| ensures !KeyLess(key(ys[j]), key(ys[i])) {
      assert ys[i] == xs[i + 1] && ys[j] == xs[j + 1];
    }
  }

  lemma {:induction false} FilterAppend<T>(xs: seq<T>, ys: seq<T>, key: T -> SortKey, k: SortKey)
    ensures Filter(xs + ys, key, k) == Filter(xs, key, k) + Filter(ys, key, k)
  {
    if xs == [] {
      assert xs + ys == ys;
    } else {
      assert (xs + ys)[0] == xs[0] && (xs + ys)[1..] == xs[1..] + ys;
      FilterAppend(xs[1..], ys, key, k);
    }
  }

  /** Inserting an element no smaller than any other puts it last. */
  lemma {:induction false} InsertLast<T>(xs: seq<T>, x: T, key: T -> SortKey)
    requires forall i :: 0 <= i < |xs| ==> !KeyLess(key(x), key(xs[i]))
    ensures Insert(xs, x, key) == xs + [x]
  {
    if xs != [] {
      InsertLast(xs[1..], x, key);
      assert xs == [xs[0]] + xs[1..];
    }
  }

  lemma {:induction false} InsertMap<A, B>(f: A -> B, xs: seq<A>, x: A, ka: A -> SortKey, kb: B -> SortKey)
    requires forall a :: kb(f(a)) == ka(a)
    ensures Insert(MapSeq(f, xs), f(x), kb) == MapSeq(f, Insert(xs, x, ka))
  {
    if xs != [] {
      assert MapSeq(f, xs)[1..] == MapSeq(f, xs[1..]);
      if !KeyLess(ka(x), ka(xs[0])) {
        InsertMap(f, xs[1..], x, ka, kb);
        assert ([xs[0]] + Insert(xs[1..], x, ka))[1..] == Insert(xs[1..], x, ka);
      } else {
        assert ([x] + xs)[1..] == xs;
      }
    }
  }

  // ---------------------------------------------------------------- StableSort

  /** The result is in key order. */
  lemma {:induction false} SortSorted<T>(xs: seq<T>, key: T -> SortKey)
    ensures SortedBy(StableSort(xs, key), key)
  {
    if xs != [] {
      SortSorted(xs[..|xs| - 1], key);
      InsertSorted(StableSort(xs[..|xs| - 1], key), xs[|xs| - 1], key);
    }
  }

  /** The result is a permutation of the input. */
  lemma {:induction false} SortPermutes<T>(xs: seq<T>, key: T -> SortKey)
    ensures multiset(StableSort(xs, key)) == multiset(xs)
  {
    if xs != [] {
      var init, last := xs[..|xs| - 1], xs[|xs| - 1];
      SortPermutes(init, key);
      InsertCount(StableSort(init, key), last, key);
      assert xs == init + [last];
    }
  }

  /** Elements with equal keys keep their input order. */
  lemma {:induction false} SortStable<T>(xs: seq<T>, key: T -> SortKey, k: SortKey)
    ensures Filter(StableSort(xs, key), key, k) == Filter(xs, key, k)
  {
    if xs != [] {
      var init, last := xs[..|xs| - 1], xs[|xs| - 1];
      SortStable(init, key, k);
      SortSorted(init, key);
      InsertFilter(StableSort(init, key), last, key, k);
      assert xs == init + [last];
      FilterAppend(init, [last], key, k);
    }
  }

  /** A sequence already in key order is left as it is. */
  lemma {:induction false} SortOfSorted<T>(xs: seq<T>, key: T -> SortKey)
    requires SortedBy(xs, key)
    ensures StableSort(xs, key) == xs
  {
    if xs != [] {
      var init, last := xs[..|xs| - 1], xs[|xs| - 1];
      assert SortedBy(init, key);
      SortOfSorted(init, key);
      InsertLast(init, last, key);
    }
  }

  /** Mapping every element to one with the same key commutes with sorting. */
  lemma {:induction false} SortMap<A, B>(f: A -> B, xs: seq<A>, ka: A -> SortKey, kb: B -> SortKey)
    requires forall a :: kb(f(a)) == ka(a)
    ensures StableSort(MapSeq(f, xs), kb) == MapSeq(f, StableSort(xs, ka))
  {
    if xs != [] {
      var init, last := xs[..|xs| - 1], xs[|xs| - 1];
      var m := MapSeq(f, xs);
      assert m[..|m| - 1] == MapSeq(f, init) && m[|m| - 1] == f(last);
      SortMap(f, init, ka, kb);
      InsertMap(f, StableSort(init, ka), last, ka, kb);
    }
  }

  /** The first element of a sorted sequence has a key no greater than any key in it. */
  lemma {:induction false} FirstIsLeast<T>(zs: seq<T>, key: T -> SortKey, k: SortKey)
    requires SortedBy(zs, key) && zs != [] && Filter(zs, key, k) != []
    ensures !KeyLess(k, key(zs[0]))
    decreases |zs|
  {
    KeyLessIrreflexive(k);
    if key(zs[0]) != k {
      var ys := zs[1..];
      assert SortedBy(ys, key) by {
        forall i, j | 0 <= i < j < |ys| ensures !KeyLess(key(ys[j]), key(ys[i])) {
          assert ys[i] == zs[i + 1] && ys[j] == zs[j + 1];
        }
      }
      FirstIsLeast(ys, key, k);
      assert !KeyLess(key(ys[0]), key(zs[0]));
      KeyTrichotomy(key(zs[0]), key(ys[0]));
      if KeyLess(k, key(zs[0])) {
        KeyLessTransitive(k, key(zs[0]), key(ys[0]));
      }
    }
  }

  /** Two sequences in key order that agree on the elements of every key, in order,
      are the same sequence: so any stable sort by this key gives `StableSort`'s result. */
  lemma {:induction false} SortedByFilters<T>(ys: seq<T>, zs: seq<T>, key: T -> SortKey)
    requires SortedBy(ys, key) && SortedBy(zs, key)
    requires forall k :: Filter(ys, key, k) == Filter(zs, key, k)
    ensures ys == zs
    decreases |ys|
  {
    if ys != [] {
      assert Filter(ys, key, key(ys[0])) != [];
    }
    if zs != [] {
      assert Filter(zs, key, key(zs[0])) != [];
    }
    if ys != [] && zs != [] {
      var k1, k2 := key(ys[0]), key(zs[0]);
      FirstIsLeast(zs, key, k1);
      FirstIsLeast(ys, key, k2);
      KeyTrichotomy(k1, k2);
      assert ys[0] == Filter(ys, key, k1)[0] == Filter(zs, key, k1)[0] == zs[0];
      var ys', zs' := ys[1..], zs[1..];
      forall k ensures Filter(ys', key, k) == Filter(zs', key, k) {
        assert Filter(ys, key, k) == (if key(ys[0]) == k then [ys[0]] else []) + Filter(ys', key, k);
        assert Filter(zs, key, k) == (if key(zs[0]) == k then [zs[0]] else []) + Filter(zs', key, k);
        var head := if key(ys[0]) == k then [ys[0]] else [];
        assert Filter(ys', key, k) == Filter(ys, key, k)[|head|..];
        assert Filter(zs', key, k) == Filter(zs, key, k)[|head|..];
      }
      assert SortedBy(ys', key) by {
        forall i, j | 0 <= i < j < |ys'| ensures !KeyLess(key(ys'[j]), key(ys'[i])) {
          assert ys'[i] == ys[i + 1] && ys'[j] == ys[j + 1];
        }
      }
      assert SortedBy(zs', key) by {
        forall i, j | 0 <= i < j < |zs'| ensures !KeyLess(key(zs'[j]), key(zs'[i])) {
          assert zs'[i] == zs[i + 1] && zs'[j] == zs[j + 1];
        }
      }
      SortedByFilters(ys', zs', key);
      assert ys == [ys[0]] + ys' && zs == [zs[0]] + zs';
    }
  }

  /** `StableSort` is the only stable sort: any reordering in key order that keeps
      equal keys in input order equals it. */
  lemma StableSortUnique<T>(xs: seq<T>, ys: seq<T>, key: T -> SortKey)
    requires SortedBy(ys, key) && forall k :: Filter(ys, key, k) == Filter(xs, key, k)
    ensures ys == StableSort(xs, key)
  {
    SortSorted(xs, key);
    forall k ensures Filter(ys, key, k) == Filter(StableSort(xs, key), key, k) {
      SortStable(xs, key, k);
    }
    SortedByFilters(ys, StableSort(xs, key), key);
  }
}
