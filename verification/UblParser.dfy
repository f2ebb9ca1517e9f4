/** The UBL parser, reading the JavaScript value the library makes of a document. */
module UblParser {
  import opened Options
  import opened XmlTree
  import opened Decimals
  import opened UblModel

  const EMPTY: Js := Str("")
  const NOTHING: Js := Obj(map[])

  /** `String(v)`; a list joins its items with commas, an absent one being blank. */
  function JsText(v: Js): string {
    match v
    case Undefined => "undefined"
    case Str(s) => s
    case Obj(_) => "[object Object]"
    case Arr(items) => JoinText(items)
  }

  function JoinText(items: seq<Js>): string {
    if items == [] then ""
    else
      var first := if items[0].Undefined? then "" else JsText(items[0]);
      if |items| == 1 then first else first + "," + JoinText(items[1..])
  }

  /** `getVal(v, tag) || ''`. */
  function Read(v: Js, tag: Name): Js {
    OrElse(Get1(v, Child(tag)), EMPTY)
  }

  function Read2(v: Js, a: Name, b: Name): Js {
    OrElse(Get2(v, Child(a), Child(b)), EMPTY)
  }

  /** `parseFloat(getVal(v, tag, '#text') || getVal(v, tag) || '0')`. */
  function Amount(v: Js, tag: Name): Num<real> {
    ParseFloat(JsText(OrElse(OrElse(Get2(v, Child(tag), Text), Get1(v, Child(tag))), Str("0"))))
  }

  /** `parseFloat(getVal(v, tag) || '0')`. */
  function PlainAmount(v: Js, tag: Name): Num<real> {
    ParseFloat(JsText(OrElse(Get1(v, Child(tag)), Str("0"))))
  }

  /** `getVal(v, tag) || {}`. */
  function Section(v: Js, tag: Name): Js {
    OrElse(Get1(v, Child(tag)), NOTHING)
  }

  function ParseHeader(invoice: Js, isCreditNote: bool): ParsedHeader {
    ParsedHeader(
      Read(invoice, CbcID), Read(invoice, CbcIssueDate), Read(invoice, CbcDueDate), Read(invoice, CbcTaxPointDate),
      OrElse(Get1(invoice, Child(CbcInvoiceTypeCode)), Str("380")),
      OrElse(Get1(invoice, Child(CbcDocumentCurrencyCode)), Str("EUR")),
      Read(invoice, CbcBuyerReference), Read(invoice, CbcCustomizationID), Read(invoice, CbcProfileID), isCreditNote)
  }

  /** The company id: of the tax scheme, else of the legal entity, its `#text` first. */
  function CompanyID(party: Js): Js {
    OrElse(Get3(party, Child(CacPartyTaxScheme), Child(CbcCompanyID), Text),
      OrElse(Get2(party, Child(CacPartyTaxScheme), Child(CbcCompanyID)),
        OrElse(Get3(party, Child(CacPartyLegalEntity), Child(CbcCompanyID), Text),
          OrElse(Get2(party, Child(CacPartyLegalEntity), Child(CbcCompanyID)), EMPTY))))
  }

  function CompanyIDScheme(party: Js): Js {
    OrElse(Get3(party, Child(CacPartyTaxScheme), Child(CbcCompanyID), Attribute(SchemeID)),
      OrElse(Get3(party, Child(CacPartyLegalEntity), Child(CbcCompanyID), Attribute(SchemeID)), EMPTY))
  }

  /** A party; only the buyer's company id scheme is read. */
  function ParseParty(party: Js, isBuyer: bool): ParsedParty {
    ParsedParty(
      OrElse(Get2(party, Child(CbcEndpointID), Text), OrElse(Get1(party, Child(CbcEndpointID)), EMPTY)),
      OrElse(Get2(party, Child(CbcEndpointID), Attribute(SchemeID)), EMPTY),
      Read2(party, CacPartyName, CbcName),
      Read2(party, CacPartyLegalEntity, CbcRegistrationName),
      CompanyID(party),
      if isBuyer then CompanyIDScheme(party) else EMPTY,
      Read2(party, CacPartyTaxScheme, CbcCompanyID),
      Read2(party, CacPostalAddress, CbcStreetName),
      Read2(party, CacPostalAddress, CbcCityName),
      Read2(party, CacPostalAddress, CbcPostalZone),
      OrElse(Get3(party, Child(CacPostalAddress), Child(CacCountry), Child(CbcIdentificationCode)), EMPTY))
  }

  function ParseContact(contact: Js): ParsedContact {
    ParsedContact(Read(contact, CbcName), Read(contact, CbcTelephone), Read(contact, CbcElectronicMail))
  }

  /** `values.filter(Boolean)`. */
  function OnlyTruthy(values: seq<Js>): seq<Js> {
    if values == [] then [] else OnlyTruthy(values[..|values| - 1]) + if Truthy(values[|values| - 1]) then [values[|values| - 1]] else []
  }

  function Ibans(accounts: seq<Js>): seq<Js> {
    seq(|accounts|, i requires 0 <= i < |accounts| => Read(accounts[i], CbcID))
  }

  function Bics(accounts: seq<Js>): seq<Js> {
    seq(|accounts|, i requires 0 <= i < |accounts| => Read2(accounts[i], CacFinancialInstitutionBranch, CbcID))
  }

  function ParsePayment(means: Js): ParsedPayment {
    var accounts := EnsureArray(Get1(means, Child(CacCreditTransferAccount)));
    ParsedPayment(
      Read(means, CbcPaymentMeansCode),
      Read2(means, CacPayeeFinancialAccount, CbcID),
      OrElse(Get3(means, Child(CacPayeeFinancialAccount), Child(CacFinancialInstitutionBranch), Child(CbcID)), EMPTY),
      Read(means, CbcPaymentNote),
      OnlyTruthy(Ibans(accounts)), OnlyTruthy(Bics(accounts)),
      Read2(means, CacCardAccount, CbcCardAccountID),
      Read2(means, CacCardAccount, CbcCardHolderName),
      Read2(means, CacCardAccount, CbcCardTypeCode),
      Read2(means, CacDebitedAccount, CbcID))
  }

  function ParseSubtotal(st: Js): ParsedVat {
    var category := Section(st, CacTaxCategory);
    ParsedVat(
      Amount(st, CbcTaxableAmount), Amount(st, CbcTaxAmount), Read(category, CbcID), PlainAmount(category, CbcPercent),
      Read(category, CbcTaxExemptionReason), Read(category, CbcTaxExemptionReasonCode))
  }

  function ParseTaxTotal(taxTotal: Js): ParsedTaxTotal {
    var subtotals := EnsureArray(Get1(taxTotal, Child(CacTaxSubtotal)));
    ParsedTaxTotal(Amount(taxTotal, CbcTaxAmount),
      seq(|subtotals|, i requires 0 <= i < |subtotals| => ParseSubtotal(subtotals[i])))
  }

  function ParseTotals(mt: Js): ParsedTotals {
    ParsedTotals(
      Amount(mt, CbcLineExtensionAmount), Amount(mt, CbcTaxExclusiveAmount), Amount(mt, CbcTaxInclusiveAmount),
      Amount(mt, CbcAllowanceTotalAmount), Amount(mt, CbcChargeTotalAmount), Amount(mt, CbcPayableAmount))
  }

  function UnitOf(line: Js): Js {
    OrElse(Get2(line, Child(CbcInvoicedQuantity), Attribute(UnitCode)), Str("C62"))
  }

  function LineId(line: Js): Num<int> {
    ParseInt(JsText(OrElse(Get1(line, Child(CbcID)), Str("0"))))
  }

  /** A line; the country of origin is looked for under `cac:Country`, which the generator does not write. */
  function ParseLine(line: Js): ParsedLine {
    var item := Section(line, CacItem);
    var category := Section(item, CacClassifiedTaxCategory);
    ParsedLine(
      LineId(line), Amount(line, CbcInvoicedQuantity), UnitOf(line), Amount(line, CbcLineExtensionAmount),
      Read(item, CbcName), Read(item, CbcDescription), Read(Section(item, CacCountry), CbcIdentificationCode),
      Read(category, CbcID), PlainAmount(category, CbcPercent),
      Amount(Section(line, CacPrice), CbcPriceAmount))
  }

  function ParseLines(invoice: Js): seq<ParsedLine> {
    var lines := EnsureArray(Get1(invoice, Child(CacInvoiceLine)));
    seq(|lines|, i requires 0 <= i < |lines| => ParseLine(lines[i]))
  }

  /** A section that is read only when it is there. */
  function Optional<T>(section: Js, read: Js -> T): Option<T> {
    if Truthy(section) then Some(read(section)) else None
  }

  /** The parser as one expression; `None` is the error for a document that is no invoice. */
  function Parse(root: Xml): Option<Parsed> {
    var invoice := Collapse(root);
    if root.tag !in {XmlTree.Invoice, CreditNote} || !Truthy(invoice) then None
    else
      var seller := Get2(invoice, Child(CacSupplierParty), Child(CacParty));
      Some(Parsed(
        ParseHeader(invoice, root.tag == CreditNote),
        Optional(seller, p => ParseParty(p, false)),
        if Truthy(seller) then
          Optional(Get3(invoice, Child(CacSupplierParty), Child(CacParty), Child(CacContact)), ParseContact)
        else None,
        Optional(Get2(invoice, Child(CacCustomerParty), Child(CacParty)), p => ParseParty(p, true)),
        Optional(Get1(invoice, Child(CacPaymentMeans)), ParsePayment),
        Optional(Get1(invoice, Child(CacTaxTotal)), ParseTaxTotal),
        Optional(Get1(invoice, Child(CacLegalMonetaryTotal)), ParseTotals),
        ParseLines(invoice)))
  }

  /** `parseUBL`: one record filled section by section as the sections turn up. */
  method ParseUBL(root: Xml) returns (r: Option<Parsed>)
    ensures r == Parse(root)
  {
    hide ParseHeader, ParseParty, ParseContact, ParsePayment, ParseTaxTotal, ParseTotals, ParseLines;
    var invoice := Collapse(root);
    if root.tag !in {XmlTree.Invoice, CreditNote} || !Truthy(invoice) {
      return None;
    }
    var result := Parsed(ParseHeader(invoice, root.tag == CreditNote), None, None, None, None, None, None, []);
    var seller := ReadPath(invoice, [Child(CacSupplierParty), Child(CacParty)]);
    if Truthy(seller) {
      result := result.(seller := Some(ParseParty(seller, false)));
      var contact := ReadPath(invoice, [Child(CacSupplierParty), Child(CacParty), Child(CacContact)]);
      if Truthy(contact) {
        result := result.(sellerContact := Some(ParseContact(contact)));
      }
    }
    var buyer := ReadPath(invoice, [Child(CacCustomerParty), Child(CacParty)]);
    if Truthy(buyer) {
      result := result.(buyer := Some(ParseParty(buyer, true)));
    }
    var means := ReadPath(invoice, [Child(CacPaymentMeans)]);
    if Truthy(means) {
      result := result.(payment := Some(ParsePayment(means)));
    }
    var taxTotal := ReadPath(invoice, [Child(CacTaxTotal)]);
    if Truthy(taxTotal) {
      result := result.(taxTotal := Some(ParseTaxTotal(taxTotal)));
    }
    var mt := ReadPath(invoice, [Child(CacLegalMonetaryTotal)]);
    if Truthy(mt) {
      result := result.(monetaryTotal := Some(ParseTotals(mt)));
    }
    result := result.(lines := ParseLines(invoice));
    r := Some(result);
  }
}
