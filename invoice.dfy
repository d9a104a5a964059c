/** Reading one CFDI 4.0 invoice into a ledger record (`Processor._parse_invoice`).
    The XML tree is abstracted to the attributes and children the engine reads; an
    attribute the document does not carry reads as "" (as `element.get(name, "")` does). */
module Invoice {
  import opened Wrappers
  import opened Text
  import opened Calendar
  import opened Uuid
  import opened Category

  /** `RFC_RECEPTOR_ESPERADO`: the only recipient whose invoices belong in the ledger. */
  const ExpectedRecipientRfc := "MES2301274X9"

  /** The SAT code of value-added tax (IVA) in `Impuesto`. */
  const VatCode := "002"

  /** A decimal attribute read with `Decimal(root.get(name, "0"))`: absent (so "0"),
      an exact amount, or text that `Decimal` rejects. */
  datatype AmountAttr = Absent | Amount(value: int) | Unparsable

  /** `cfdi:Emisor` / `cfdi:Receptor`: their `Nombre` and `Rfc` attributes. */
  datatype Party = Party(name: string, rfc: string)

  /** A `cfdi:Traslado` or `cfdi:Retencion` line: its `Impuesto` code and `Importe`. */
  datatype TaxLine = TaxLine(tax: string, amount: AmountAttr)

  /** `cfdi:Impuestos`: its `Traslados/Traslado` and `Retenciones/Retencion` lines in document order. */
  datatype Taxes = Taxes(transfers: seq<TaxLine>, withholdings: seq<TaxLine>)

  /** `cfdi:Complemento`, with the `UUID` attribute of its `tfd:TimbreFiscalDigital` child if present. */
  datatype Complement = Complement(stamp: Option<string>)

  /** The `cfdi:Comprobante` root. `date` is `Fecha` after `fromisoformat`: `None` when the
      attribute is missing or is not an ISO timestamp. `concepts` holds the `ClaveProdServ`
      of each `Conceptos/Concepto` in order. */
  datatype Voucher = Voucher(
    date: Option<DateTime>,
    issuer: Option<Party>,
    recipient: Option<Party>,
    complement: Option<Complement>,
    series: string,
    folio: string,
    subtotal: AmountAttr,
    total: AmountAttr,
    taxes: Option<Taxes>,
    concepts: seq<string>)

  /** An `.xml` file: either `etree.parse` rejects it or it yields a root element. */
  datatype XmlFile = Unreadable | Document(root: Voucher)

  /** Why `_parse_invoice` raised. */
  datatype ParseError = MalformedXml | InvalidDate | InvalidRecipient(rfc: string) | InvalidAmount

  /** `InvoiceRow`, amounts in exact minor units. The originating path is not kept. */
  datatype InvoiceRow = InvoiceRow(
    date: DateTime,
    issuerName: string,
    issuerRfc: string,
    folio: string,
    uuid: string,
    concept: string,
    subtotal: int,
    vat: int,
    otherTaxes: int,
    total: int,
    comments: string,
    employee: string,
    sourceMonth: string)

  function AmountValue(a: AmountAttr): int {
    if a.Amount? then a.value else 0
  }

  predicate AllParsable(lines: seq<TaxLine>) {
    forall i :: 0 <= i < |lines| ==> !lines[i].amount.Unparsable?
  }

  /** What the tax loop adds to `iva`: the amounts of the lines coded `002`. */
  function SumVat(lines: seq<TaxLine>): int {
    if lines == [] then 0
    else
      var last := lines[|lines| - 1];
      SumVat(lines[..|lines| - 1]) + (if last.tax == VatCode then AmountValue(last.amount) else 0)
  }

  /** What the tax loop adds to `otros`: the amounts of every other line. */
  function SumOther(lines: seq<TaxLine>): int {
    if lines == [] then 0
    else
      var last := lines[|lines| - 1];
      SumOther(lines[..|lines| - 1]) + (if last.tax == VatCode then 0 else AmountValue(last.amount))
  }

  /** The plain total of all tax lines, whatever their code. */
  function SumAll(lines: seq<TaxLine>): int {
    if lines == [] then 0 else AmountValue(lines[0].amount) + SumAll(lines[1..])
  }

  lemma {:induction false} SumAllAppend(a: seq<TaxLine>, b: seq<TaxLine>)
    ensures SumAll(a + b) == SumAll(a) + SumAll(b)
  {
    if a != [] {
      assert (a + b)[1..] == a[1..] + b;
      SumAllAppend(a[1..], b);
    } else {
      assert a + b == b;
    }
  }

  /** The split into VAT and other taxes loses nothing: together they are all tax lines. */
  lemma {:induction false} VatPlusOtherIsAll(lines: seq<TaxLine>)
    ensures SumVat(lines) + SumOther(lines) == SumAll(lines)
  {
    if lines != [] {
      var init, last := lines[..|lines| - 1], lines[|lines| - 1];
      VatPlusOtherIsAll(init);
      assert lines == init + [last];
      SumAllAppend(init, [last]);
    }
  }

  /** `folio_factura`: `serie-folio` when both are present, else whichever is present. */
  function FolioOf(series: string, folio: string): (r: string)
    ensures series != "" && folio != "" ==> r == series + "-" + folio
    ensures series == "" ==> r == folio
    ensures folio == "" ==> r == series
  {
    if series != "" && folio != "" then series + "-" + folio
    else if folio != "" then folio
    else series
  }

  /** `_first_concept_code`: the `ClaveProdServ` of the first concept, "" if there is none. */
  function FirstConceptCode(concepts: seq<string>): (code: string)
    ensures concepts == [] ==> code == ""
    ensures concepts != [] ==> code == concepts[0]
  {
    if concepts == [] then "" else concepts[0]
  }

  /** The fiscal UUID: the normalised `UUID` of the stamp, "" when the complement or
      its stamp is missing. */
  function StampUuid(c: Option<Complement>): string {
    if c.Some? && c.value.stamp.Some? then NormalizeUuid(c.value.stamp.value) else ""
  }

  function RecipientRfc(v: Voucher): string {
    if v.recipient.Some? then v.recipient.value.rfc else ""
  }

  function TransferLines(v: Voucher): seq<TaxLine> {
    if v.taxes.Some? then v.taxes.value.transfers else []
  }

  function WithholdingLines(v: Voucher): seq<TaxLine> {
    if v.taxes.Some? then v.taxes.value.withholdings else []
  }

  /** The outcome of `_parse_invoice(xml_file, empleado, source_month)`. It fails, in
      this order, on unreadable XML, a missing or non-ISO date, a recipient RFC other
      than the expected one (an absent recipient included), and an amount `Decimal`
      rejects; a missing `SubTotal` or `Total` is 0, and `Total` is read, not computed. */
  function InvoiceOf(file: XmlFile, employee: string, sourceMonth: string): (r: Result<InvoiceRow, ParseError>)
    ensures r.Ok? <==>
      && file.Document?
      && file.root.date.Some?
      && RecipientRfc(file.root) == ExpectedRecipientRfc
      && !file.root.subtotal.Unparsable? && !file.root.total.Unparsable?
      && AllParsable(TransferLines(file.root)) && AllParsable(WithholdingLines(file.root))
    ensures file.Document? && file.root.date.Some? && RecipientRfc(file.root) != ExpectedRecipientRfc
            ==> r == Err(InvalidRecipient(RecipientRfc(file.root)))
    ensures r.Ok? ==>
      var v, row := file.root, r.value;
      && row.date == v.date.value
      && row.uuid == StampUuid(v.complement)
      && row.folio == FolioOf(v.series, v.folio)
      && row.concept == MapCategory(FirstConceptCode(v.concepts))
      && row.subtotal == AmountValue(v.subtotal) && row.total == AmountValue(v.total)
      && row.issuerName == (if v.issuer.Some? then v.issuer.value.name else "")
      && row.issuerRfc == (if v.issuer.Some? then v.issuer.value.rfc else "")
      && row.vat == SumVat(TransferLines(v)) + SumVat(WithholdingLines(v))
      && row.otherTaxes == SumOther(TransferLines(v)) + SumOther(WithholdingLines(v))
      && row.vat + row.otherTaxes == SumAll(TransferLines(v)) + SumAll(WithholdingLines(v))
      && row.employee == employee && row.sourceMonth == sourceMonth && row.comments == ""
  {
    match file
    case Unreadable => Err(MalformedXml)
    case Document(v) =>
      if v.date.None? then Err(InvalidDate)
      else if RecipientRfc(v) != ExpectedRecipientRfc then Err(InvalidRecipient(RecipientRfc(v)))
      else if v.subtotal.Unparsable? || v.total.Unparsable? then Err(InvalidAmount)
      else if !AllParsable(TransferLines(v)) || !AllParsable(WithholdingLines(v)) then Err(InvalidAmount)
      else
        var ts, ws := TransferLines(v), WithholdingLines(v);
        VatPlusOtherIsAll(ts);
        VatPlusOtherIsAll(ws);
        Ok(Assembled(v, SumVat(ts) + SumVat(ws), SumOther(ts) + SumOther(ws), employee, sourceMonth))
  }

  /** The row `_parse_invoice` builds from a readable, dated voucher and its tax sums. */
  function Assembled(v: Voucher, vat: int, other: int, employee: string, sourceMonth: string): InvoiceRow
    requires v.date.Some?
  {
    InvoiceRow(
      date := v.date.value,
      issuerName := if v.issuer.Some? then v.issuer.value.name else "",
      issuerRfc := if v.issuer.Some? then v.issuer.value.rfc else "",
      folio := FolioOf(v.series, v.folio),
      uuid := StampUuid(v.complement),
      concept := MapCategory(FirstConceptCode(v.concepts)),
      subtotal := AmountValue(v.subtotal),
      vat := vat,
      otherTaxes := other,
      total := AmountValue(v.total),
      comments := "",
      employee := employee,
      sourceMonth := sourceMonth)
  }

  /** One of the tax loops: adds each line's `Importe` to `iva` when coded `002`,
      to `otros` otherwise; `None` when `Decimal` rejects an amount. */
  method AccumulateTaxes(lines: seq<TaxLine>, vat0: int, other0: int) returns (r: Option<(int, int)>)
    ensures AllParsable(lines) ==> r == Some((vat0 + SumVat(lines), other0 + SumOther(lines)))
    ensures !AllParsable(lines) ==> r == None
  {
    var vat, other := vat0, other0;
    var i := 0;
    while i < |lines|
      invariant 0 <= i <= |lines|
      invariant AllParsable(lines[..i])
      invariant vat == vat0 + SumVat(lines[..i]) && other == other0 + SumOther(lines[..i])
    {
      var line := lines[i];
      if line.amount.Unparsable? {
        return None;
      }
      if line.tax == VatCode {
        vat := vat + AmountValue(line.amount);
      } else {
        other := other + AmountValue(line.amount);
      }
      assert lines[..i + 1][..i] == lines[..i];
      i := i + 1;
    }
    assert lines[..i] == lines;
    r := Some((vat, other));
  }

  /** The two tax loops of `_parse_invoice`: transfers, then withholdings, into the
      same two sums. */
  method ReadTaxes(v: Voucher) returns (r: Option<(int, int)>)
    ensures var ts, ws := TransferLines(v), WithholdingLines(v);
      if AllParsable(ts) && AllParsable(ws)
      then r == Some((SumVat(ts) + SumVat(ws), SumOther(ts) + SumOther(ws)))
      else r == None
  {
    if v.taxes.None? {
      return Some((0, 0));
    }
    var t := AccumulateTaxes(v.taxes.value.transfers, 0, 0);
    if t.None? {
      return None;
    }
    r := AccumulateTaxes(v.taxes.value.withholdings, t.value.0, t.value.1);
  }

  /** `Processor._parse_invoice`. */
  method ParseInvoice(file: XmlFile, employee: string, sourceMonth: string) returns (r: Result<InvoiceRow, ParseError>)
    ensures r == InvoiceOf(file, employee, sourceMonth)
  {
    if file.Unreadable? {
      return Err(MalformedXml);
    }
    var v := file.root;
    if v.date.None? {
      return Err(InvalidDate);
    }
    var recipientRfc := if v.recipient.Some? then v.recipient.value.rfc else "";
    if recipientRfc != ExpectedRecipientRfc {
      return Err(InvalidRecipient(recipientRfc));
    }
    if v.subtotal.Unparsable? || v.total.Unparsable? {
      return Err(InvalidAmount);
    }
    var taxes := ReadTaxes(v);
    if taxes.None? {
      return Err(InvalidAmount);
    }
    r := Ok(Assembled(v, taxes.value.0, taxes.value.1, employee, sourceMonth));
  }
}
