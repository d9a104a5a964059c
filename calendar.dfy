/** Timestamps and the month tables `MESES` / `MESES_INV` (processor.py:17-32). */
module Calendar {
  import opened Wrappers
  import opened Text

  type Month = m: int | 1 <= m <= 12 witness 1

  /** A naive `datetime`, its fields in decreasing significance. */
  datatype DateTime = DateTime(year: int, month: Month, day: int, hour: int,
                               minute: int, second: int, microsecond: int)

  /** `datetime.max`, the sort key given to rows whose date cannot be read. */
  const MaxDateTime := DateTime(9999, 12, 31, 23, 59, 59, 999999)

  /** The field ranges of a Python `datetime` (the day is only bounded by 31 here). */
  predicate Representable(d: DateTime) {
    && 1 <= d.year <= 9999 && 1 <= d.day <= 31 && 0 <= d.hour <= 23
    && 0 <= d.minute <= 59 && 0 <= d.second <= 59 && 0 <= d.microsecond <= 999999
  }

  /** `a < b` on `datetime`: chronological, i.e. lexicographic on the fields. */
  predicate Before(a: DateTime, b: DateTime) {
    if a.year != b.year then a.year < b.year
    else if a.month != b.month then a.month < b.month
    else if a.day != b.day then a.day < b.day
    else if a.hour != b.hour then a.hour < b.hour
    else if a.minute != b.minute then a.minute < b.minute
    else if a.second != b.second then a.second < b.second
    else a.microsecond < b.microsecond
  }

  lemma BeforeIsStrictTotalOrder(a: DateTime, b: DateTime, c: DateTime)
    ensures !Before(a, a)
    ensures Before(a, b) ==> !Before(b, a)
    ensures Before(a, b) && Before(b, c) ==> Before(a, c)
    ensures a != b ==> Before(a, b) || Before(b, a)
  {
  }

  /** `datetime.max` is the latest `datetime`: every other one comes before it. */
  lemma MaxIsLatest(d: DateTime)
    requires Representable(d)
    ensures d == MaxDateTime || Before(d, MaxDateTime)
  {
  }

  /** The keys of `MESES`: lower-case Spanish month names, January first. */
  function MonthKey(m: Month): string {
    match m
    case 1 => "enero"
    case 2 => "febrero"
    case 3 => "marzo"
    case 4 => "abril"
    case 5 => "mayo"
    case 6 => "junio"
    case 7 => "julio"
    case 8 => "agosto"
    case 9 => "septiembre"
    case 10 => "octubre"
    case 11 => "noviembre"
    case 12 => "diciembre"
  }

  /** `MESES.get(name)`: the month number of a lower-case month name. */
  function MonthNumber(name: string): (r: Option<Month>)
    ensures r.Some? ==> MonthKey(r.value) == name
  {
    if name == "enero" then Some(1)
    else if name == "febrero" then Some(2)
    else if name == "marzo" then Some(3)
    else if name == "abril" then Some(4)
    else if name == "mayo" then Some(5)
    else if name == "junio" then Some(6)
    else if name == "julio" then Some(7)
    else if name == "agosto" then Some(8)
    else if name == "septiembre" then Some(9)
    else if name == "octubre" then Some(10)
    else if name == "noviembre" then Some(11)
    else if name == "diciembre" then Some(12)
    else None
  }

  /** `MESES_INV[m]`: the capitalised month name, also the folder name on disk. */
  function MonthName(m: Month): string {
    Capitalize(MonthKey(m))
  }

  /** `MESES` and `MonthKey` are inverse tables: twelve distinct names. */
  lemma MonthTablesInverse(m: Month, name: string)
    ensures MonthNumber(MonthKey(m)) == Some(m)
    ensures MonthNumber(name) == Some(m) <==> name == MonthKey(m)
  {
  }

  /** The names in `MESES_INV` lower-case back to the keys of `MESES`. */
  lemma LowerMonthName(m: Month)
    ensures Lower(MonthName(m)) == MonthKey(m)
  {
    LowerCapitalize(MonthKey(m));
    LowerOfKey(m);
  }

  lemma LowerOfKey(m: Month)
    ensures Lower(MonthKey(m)) == MonthKey(m)
  {
    var k := MonthKey(m);
    forall i | 0 <= i < |k| ensures !IsUpperLetter(k[i]) {
      MonthKeyLowerCase(m, i);
    }
    assert forall i :: 0 <= i < |k| ==> Lower(k)[i] == k[i];
  }

  /** Twelve distinct keys. */
  lemma MonthKeyInjective(a: Month, b: Month)
    ensures MonthKey(a) == MonthKey(b) <==> a == b
  {
    MonthTablesInverse(a, MonthKey(b));
  }

  /** A folder named after month `a` names the month of date month `b`, case aside,
      exactly when the two months are the same. */
  lemma SameMonthName(a: Month, b: Month)
    ensures Lower(MonthKey(a)) == Lower(MonthName(b)) <==> a == b
  {
    LowerOfKey(a);
    LowerMonthName(b);
    MonthKeyInjective(a, b);
  }

  lemma MonthKeyLowerCase(m: Month, i: int)
    requires 0 <= i < |MonthKey(m)|
    ensures 'a' <= MonthKey(m)[i] <= 'z'
  {
  }
}
