/** The normalised form of a fiscal UUID, the key of every "already present" decision. */
module Uuid {
  import opened Text

  /** `Processor._normalize_uuid` (processor.py:111-112): strip surrounding whitespace,
      upper-case, then drop every `{` and every `}`. */
  function NormalizeUuid(value: string): (key: string)
    ensures '{' !in key && '}' !in key
    ensures forall i :: 0 <= i < |key| ==> !IsLowerLetter(key[i])
  {
    var u := Upper(Strip(value));
    UpperHasNoLower(Strip(value));
    WithoutNoLower(u, '{');
    WithoutNoLower(Without(u, '{'), '}');
    var r := Without(Without(u, '{'), '}');
    assert '{' !in r by {
      if '{' in r { WithoutKeeps(Without(u, '{'), '}', '{'); }
    }
    r
  }

  /** On a string that is already brace-free and upper-case, normalising only strips. */
  lemma NormalizeNormalForm(y: string)
    requires '{' !in y && '}' !in y
    requires forall i :: 0 <= i < |y| ==> !IsLowerLetter(y[i])
    ensures NormalizeUuid(y) == Strip(y)
  {
    var t := Strip(y);
    forall i | 0 <= i < |t| ensures !IsLowerLetter(t[i]) && t[i] != '{' && t[i] != '}' {
      StripKeeps(y, t[i]);
    }
    UpperIdentity(t);
    assert '{' !in t && '}' !in t;
  }

  /** Braces around a UUID and the case of its letters do not change its key:
      `{72dceac0-...}` and `72DCEAC0-...` fall together. */
  lemma BracesAndCaseIgnored(t: string)
    requires '{' !in t && '}' !in t && Trimmed(t)
    ensures NormalizeUuid("{" + t + "}") == Upper(t)
    ensures NormalizeUuid(t) == Upper(t)
    ensures NormalizeUuid(Upper(t)) == Upper(t)
  {
    var u := Upper(t);
    UpperKeepsFrame(t);
    BracedStrip(t);
    UpperBraced(t);
    UnBrace(u);
    StripTrimmed(t);
    UpperHasNoLower(t);
    NormalizeNormalForm(u);
    StripTrimmed(u);
  }

  lemma UpperKeepsFrame(t: string)
    requires '{' !in t && '}' !in t && Trimmed(t)
    ensures '{' !in Upper(t) && '}' !in Upper(t) && Trimmed(Upper(t))
  {
    var u := Upper(t);
    forall i | 0 <= i < |u| ensures u[i] != '{' && u[i] != '}' {
      assert t[i] in t;
    }
  }

  lemma BracedStrip(t: string)
    ensures Strip("{" + t + "}") == "{" + t + "}"
  {
    var b := "{" + t + "}";
    assert b[0] == '{' && b[|b| - 1] == '}';
    StripTrimmed(b);
  }

  lemma UpperBraced(t: string)
    ensures Upper("{" + t + "}") == "{" + Upper(t) + "}"
  {
    var b, c := "{" + t + "}", "{" + Upper(t) + "}";
    assert forall i :: 0 <= i < |b| ==> Upper(b)[i] == c[i];
  }

  lemma UnBrace(u: string)
    requires '{' !in u && '}' !in u
    ensures Without(Without("{" + u + "}", '{'), '}') == u
  {
    assert "{" + u + "}" == "{" + (u + "}");
    WithoutAppend("{", u + "}", '{');
    assert Without("{", '{') == [];
    WithoutAppend(u, "}", '}');
    assert Without("}", '}') == [];
  }

  /** Normalising twice is stable: a key taken from a stored, once-normalised UUID
      normalises to itself. (Normalising once is not idempotent, see below.) */
  lemma TwiceIsStable(x: string)
    ensures NormalizeUuid(NormalizeUuid(NormalizeUuid(x))) == NormalizeUuid(NormalizeUuid(x))
  {
    var y := NormalizeUuid(x);
    NormalizeNormalForm(y);
    var z := NormalizeUuid(y);
    NormalizeNormalForm(z);
    StripIdempotent(y);
  }

  /** `_normalize_uuid` is not idempotent: stripping happens before the braces go,
      so `{ abc }` normalises to ` ABC `, which normalises again to `ABC`. */
  lemma NotIdempotent(x: string)
    requires x == "{ abc }"
    ensures NormalizeUuid(x) == " ABC "
    ensures NormalizeUuid(NormalizeUuid(x)) == "ABC"
  {
    StripsBracedSpaces(x);
    UpperBracedSpaces(x);
    UnbraceSpaces("{ ABC }");
    StripSpaces(" ABC ");
  }

  lemma StripSpaces(y: string)
    requires y == " ABC "
    ensures NormalizeUuid(y) == "ABC"
  {
    NormalizeNormalForm(y);
    TrimSample();
  }

  lemma TrimSample()
    ensures Strip(" ABC ") == "ABC"
  {
    LeadingBlank();
    TrailingBlank();
  }

  lemma LeadingBlank()
    ensures TrimStart(" ABC ") == "ABC "
  {
    assert " ABC " == [' '] + "ABC ";
    TrimStartSkips(' ', "ABC ");
    TrimStartStops("ABC ");
  }

  lemma TrailingBlank()
    ensures TrimEnd("ABC ") == "ABC"
  {
    assert "ABC " == "ABC" + [' '];
    TrimEndSkips("ABC", ' ');
    TrimEndStops("ABC");
  }

  lemma StripsBracedSpaces(x: string)
    requires x == "{ abc }"
    ensures Strip(x) == x
  {
    assert x == "{" + " abc " + "}";
    BracedStrip(" abc ");
  }

  lemma UpperBracedSpaces(x: string)
    requires x == "{ abc }"
    ensures Upper(x) == "{ ABC }"
  {
    assert x == "{" + " abc " + "}";
    UpperBraced(" abc ");
    assert Upper(" abc ") == " ABC ";
  }

  lemma UnbraceSpaces(x: string)
    requires x == "{ ABC }"
    ensures Without(Without(x, '{'), '}') == " ABC "
  {
    assert x == "{" + " ABC " + "}";
    UnBrace(" ABC ");
  }

  /** A UUID of only braces and blanks survives the first normalisation (stripping
      comes before the braces go) and vanishes at the second: `{ }` gives ` `, then "". */
  lemma BlankBracedUuid(x: string)
    requires x == "{ }"
    ensures NormalizeUuid(x) == " "
    ensures NormalizeUuid(NormalizeUuid(x)) == ""
  {
    assert x == "{" + " " + "}";
    BracedStrip(" ");
    UpperBraced(" ");
    assert Upper(" ") == " ";
    UnBrace(" ");
    NormalizeNormalForm(" ");
    assert TrimStart(" ") == "";
  }
}
