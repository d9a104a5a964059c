/** Spend-category classification of a product/service code (`ClaveProdServ`). */
module Category {
  import opened Wrappers
  import opened Text

  /** `CATEGORY_EXACT` (processor.py:52-75). */
  const CategoryExact: map<string, string> := map[
    "15101514" := "GASOLINA",
    "15101515" := "GASOLINA",
    "95111602" := "PEAJE",
    "95111603" := "PEAJE",
    "78111807" := "ESTACIONAMIENTO",
    "90111800" := "HOTEL",
    "90111500" := "HOTEL / HOSPEDAJE",
    "90101500" := "ALIMENTO / BEBIDA",
    "90101501" := "ALIMENTO / BEBIDA",
    "90101503" := "ALIMENTO / BEBIDA",
    "90101700" := "ALIMENTO / BEBIDA",
    "90101800" := "ALIMENTO / BEBIDA",
    "78111804" := "TAXI",
    "78111800" := "TRANSPORTE",
    "78111808" := "ALQUILER DE AUTO",
    "78111811" := "ALQUILER DE AUTO",
    "83111603" := "DATOS MÓVILES",
    "43201415" := "DATOS MÓVILES",
    "27113300" := "HERRAMIENTAS",
    "27131500" := "HERRAMIENTAS",
    "23291900" := "HERRAMIENTAS INDUSTRIALES",
    "14111828" := "PAPELERÍA"
  ]

  /** `CATEGORY_PREFIX` (processor.py:77-83) as (prefix, label) pairs in declared order. */
  const CategoryPrefix: seq<(string, string)> := [
    ("831116", "DATOS MÓVILES"),
    ("2711", "HERRAMIENTAS"),
    ("2713151", "HERRAMIENTAS"),
    ("141115", "PAPELERÍA"),
    ("441217", "PAPELERÍA")
  ]

  /** The label of the first rule whose prefix starts `code`, if any. */
  function PrefixLabel(code: string, rules: seq<(string, string)>): (r: Option<string>)
    ensures r.None? <==> forall i :: 0 <= i < |rules| ==> !StartsWith(code, rules[i].0)
    ensures forall i :: 0 <= i < |rules| && StartsWith(code, rules[i].0)
                        && (forall j :: 0 <= j < i ==> !StartsWith(code, rules[j].0))
                        ==> r == Some(rules[i].1)
  {
    if rules == [] then None
    else if StartsWith(code, rules[0].0) then Some(rules[0].1)
    else
      var r := PrefixLabel(code, rules[1..]);
      assert forall i :: 1 <= i < |rules| ==> rules[i] == rules[1..][i - 1];
      r
  }

  /** `Processor._map_category`: empty for no code; else the exact-table label; else the
      label of the first prefix rule that matches; else the code itself. */
  function MapCategory(code: string): (concept: string)
    ensures code == "" ==> concept == ""
    ensures code != "" && code in CategoryExact ==> concept == CategoryExact[code]
    ensures code != "" && code !in CategoryExact ==>
      forall i :: 0 <= i < |CategoryPrefix| && StartsWith(code, CategoryPrefix[i].0)
                  && (forall j :: 0 <= j < i ==> !StartsWith(code, CategoryPrefix[j].0))
                  ==> concept == CategoryPrefix[i].1
    ensures code != "" && code !in CategoryExact
            && (forall i :: 0 <= i < |CategoryPrefix| ==> !StartsWith(code, CategoryPrefix[i].0))
            ==> concept == code
  {
    if code == "" then ""
    else if code in CategoryExact then CategoryExact[code]
    else
      match PrefixLabel(code, CategoryPrefix)
      case Some(l) => l
      case None => code
  }

  /** A code between exact entries falls to the prefix table: `27115000` is a tool. */
  lemma PrefixRuleExample(code: string)
    requires code == "27115000"
    ensures MapCategory(code) == "HERRAMIENTAS"
  {
    assert code !in CategoryExact;
    assert code[..6][0] != CategoryPrefix[0].0[0];
    assert code[..4] == CategoryPrefix[1].0;
  }

  /** An unmapped code is its own label, so auditors see what still needs mapping. */
  lemma UnmappedExample(code: string)
    requires code == "99999999"
    ensures MapCategory(code) == code
  {
    assert code !in CategoryExact;
    forall i | 0 <= i < |CategoryPrefix| ensures !StartsWith(code, CategoryPrefix[i].0) {
      var p := CategoryPrefix[i].0;
      assert p[0] != '9';
      assert code[..|p|][0] == '9';
    }
  }
}
