/** The UBL generator: every section as the elements its template writes. */
module UblGenerator {
  import opened Options
  import opened Strings
  import opened XmlText
  import opened XmlTree
  import opened Decimals
  import opened UblModel

  const NORM := "urn:cen.eu:en16931"
  const COMPLIANT := ":2017#compliant#"
  const PEPPOL := "urn:fdc:peppol.eu:"
  const BILLING := "2017:poacc:billing:"
  const CUSTOMIZATION_ID := NORM + COMPLIANT + (PEPPOL + BILLING + "3.0")
  const PROFILE_ID := PEPPOL + BILLING + "01:1.0"

  function AttrLeaf(tag: Name, attr: AttrName, value: string, s: string): (e: Xml)
    ensures e.tag == tag
  {
    Elem(tag, [Attr(attr, Esc(value))], [], Esc(s))
  }

  function Money(tag: Name, currency: string, amount: real): (e: Xml)
    ensures e.tag == tag
  {
    Elem(tag, [Attr(CurrencyID, currency)], [], Fixed2(amount))
  }

  function Number(tag: Name, amount: real): (e: Xml)
    ensures e.tag == tag
  {
    Elem(tag, [], [], Fixed2(amount))
  }

  function VatScheme(): (e: Xml)
    ensures e.tag == CacTaxScheme
  {
    Node(CacTaxScheme, [[Leaf(CbcID, "VAT")]])
  }

  function CustomizationID(): (e: Xml)
    ensures e.tag == CbcCustomizationID
  {
    Elem(CbcCustomizationID, [], [], CUSTOMIZATION_ID)
  }

  function ProfileID(): (e: Xml)
    ensures e.tag == CbcProfileID
  {
    Elem(CbcProfileID, [], [], PROFILE_ID)
  }

  function AddressPieces(p: Party): seq<seq<Xml>> {
    [ When(p.streetName != "", Leaf(CbcStreetName, p.streetName)),
      When(p.cityName != "", Leaf(CbcCityName, p.cityName)),
      When(p.postalZone != "", Leaf(CbcPostalZone, p.postalZone)),
      [Node(CacCountry, [[Leaf(CbcIdentificationCode, Or(p.countryCode, "SK"))]])] ]
  }

  function TaxSchemePieces(p: Party): seq<seq<Xml>> {
    [ When(Or(p.companyID, p.vatID) != "", Leaf(CbcCompanyID, Or(p.companyID, p.vatID))),
      [VatScheme()] ]
  }

  function LegalCompanyID(p: Party, scheme: string): Xml {
    if scheme == "" then Leaf(CbcCompanyID, p.companyID) else AttrLeaf(CbcCompanyID, SchemeID, scheme, p.companyID)
  }

  function LegalPieces(p: Party, scheme: string): seq<seq<Xml>> {
    [ [Leaf(CbcRegistrationName, Or(p.legalRegistrationName, p.name))],
      When(p.companyID != "" && p.vatID == "", LegalCompanyID(p, scheme)) ]
  }

  function ContactPieces(c: Contact): seq<seq<Xml>> {
    [ When(c.name != "", Leaf(CbcName, c.name)),
      When(c.telephone != "", Leaf(CbcTelephone, c.telephone)),
      When(c.email != "", Leaf(CbcElectronicMail, c.email)) ]
  }

  function ContactPiece(p: Party): seq<Xml> {
    match p.contact
    case None => []
    case Some(c) => [Node(CacContact, ContactPieces(c))]
  }

  function PartyPieces(p: Party, scheme: string): seq<seq<Xml>> {
    [ [AttrLeaf(CbcEndpointID, SchemeID, Or(p.endpointSchemeID, "9914"), p.endpointID)],
      [Node(CacPartyName, [[Leaf(CbcName, p.name)]])],
      [Node(CacPostalAddress, AddressPieces(p))],
      [Node(CacPartyTaxScheme, TaxSchemePieces(p))],
      [Node(CacPartyLegalEntity, LegalPieces(p, scheme))],
      ContactPiece(p) ]
  }

  lemma PartyShape(p: Party, scheme: string)
    ensures |PartyPieces(p, scheme)| == 6
    ensures PartyPieces(p, scheme)[0] == [AttrLeaf(CbcEndpointID, SchemeID, Or(p.endpointSchemeID, "9914"), p.endpointID)]
    ensures PartyPieces(p, scheme)[1] == [Node(CacPartyName, [[Leaf(CbcName, p.name)]])]
    ensures PartyPieces(p, scheme)[2] == [Node(CacPostalAddress, AddressPieces(p))]
    ensures PartyPieces(p, scheme)[3] == [Node(CacPartyTaxScheme, TaxSchemePieces(p))]
    ensures PartyPieces(p, scheme)[4] == [Node(CacPartyLegalEntity, LegalPieces(p, scheme))]
    ensures PartyPieces(p, scheme)[5] == ContactPiece(p)
  {
    hide Leaf, AttrLeaf, Node, Or, AddressPieces, TaxSchemePieces, LegalPieces, ContactPiece;
  }

  /** `buildSeller` and `buildBuyer`: the same template, but for the scheme of the legal company id. */
  function BuildSeller(seller: Option<Party>): seq<Xml> {
    match seller
    case None => []
    case Some(p) => [Node(CacSupplierParty, [[Node(CacParty, PartyPieces(p, ""))]])]
  }

  function BuildBuyer(buyer: Option<Party>): seq<Xml> {
    match buyer
    case None => []
    case Some(p) => [Node(CacCustomerParty, [[Node(CacParty, PartyPieces(p, p.companyIDSchemeID))]])]
  }

  // ----- payment

  function IndexOf(xs: seq<string>, x: string): (i: nat)
    ensures x in xs ==> i < |xs| && xs[i] == x && forall j :: 0 <= j < i ==> xs[j] != x
  {
    if xs == [] || xs[0] == x then 0 else 1 + IndexOf(xs[1..], x)
  }

  /** The BIC written for an IBAN: the one at the first occurrence of that IBAN. */
  function BicFor(p: Payment, iban: string): string {
    var idx := IndexOf(p.creditTransferIBANs, iban);
    if idx < |p.creditTransferBICs| then p.creditTransferBICs[idx] else ""
  }

  function Branch(bic: string): (e: Xml)
    ensures e.tag == CacFinancialInstitutionBranch
  {
    Node(CacFinancialInstitutionBranch, [[Leaf(CbcID, bic)]])
  }

  function Account(tag: Name, iban: string, bic: string): (e: Xml)
    ensures e.tag == tag
  {
    Node(tag, [[Leaf(CbcID, iban)], When(bic != "", Branch(bic))])
  }

  function Accounts(p: Payment, n: nat): seq<Xml>
    requires n <= |p.creditTransferIBANs|
  {
    if n == 0 then []
    else
      var iban := p.creditTransferIBANs[n - 1];
      Accounts(p, n - 1) + [Account(CacCreditTransferAccount, iban, BicFor(p, iban))]
  }

  function CardPieces(p: Payment): seq<seq<Xml>> {
    [ [Leaf(CbcCardAccountID, p.cardAccount)],
      When(p.cardHolderName != "", Leaf(CbcCardHolderName, p.cardHolderName)),
      When(p.cardBrand != "", Leaf(CbcCardTypeCode, p.cardBrand)) ]
  }

  function CardAccount(p: Payment): (e: Xml)
    ensures e.tag == CacCardAccount
  {
    Node(CacCardAccount, CardPieces(p))
  }

  function DebitedAccount(p: Payment): (e: Xml)
    ensures e.tag == CacDebitedAccount
  {
    Node(CacDebitedAccount, [[Leaf(CbcID, p.debitedAccountIBAN)]])
  }

  /** The account name goes through `fmt`, which prints a name in words as `NaN`. */
  function NameFigures(name: AccountName): string {
    match name
    case InFigures(value) => Fixed2(value)
    case InWords => "NaN"
  }

  function AccountNamePiece(p: Payment): seq<Xml> {
    match p.accountName
    case None => []
    case Some(name) =>
      [Elem(CbcPaymentoverteenyAmount, [Attr(CurrencyID, Esc(Or(p.currencyCode, "EUR")))], [], NameFigures(name))]
  }

  function PaymentPieces(p: Payment): seq<seq<Xml>> {
    [ [Leaf(CbcPaymentMeansCode, Or(p.meansCode, "30"))],
      When(p.note != "", Leaf(CbcPaymentNote, p.note)),
      AccountNamePiece(p),
      When(p.iban != "", Account(CacPayeeFinancialAccount, p.iban, p.bic)),
      Accounts(p, |p.creditTransferIBANs|),
      When(p.cardAccount != "", CardAccount(p)),
      When(p.debitedAccountIBAN != "", DebitedAccount(p)) ]
  }

  function PaymentKids(p: Payment): seq<Xml> {
    [Leaf(CbcPaymentMeansCode, Or(p.meansCode, "30"))]
    + When(p.note != "", Leaf(CbcPaymentNote, p.note))
    + AccountNamePiece(p)
    + When(p.iban != "", Account(CacPayeeFinancialAccount, p.iban, p.bic))
    + Accounts(p, |p.creditTransferIBANs|)
    + When(p.cardAccount != "", CardAccount(p))
    + When(p.debitedAccountIBAN != "", DebitedAccount(p))
  }

  function PaymentSection(payment: Option<Payment>): seq<Xml> {
    match payment
    case None => []
    case Some(p) => [Elem(CacPaymentMeans, [], PaymentKids(p), "")]
  }

  /** The loop over the credit transfer accounts. */
  method AppendAccounts(p: Payment, before: seq<Xml>) returns (xml: seq<Xml>)
    ensures xml == before + Accounts(p, |p.creditTransferIBANs|)
  {
    hide Account, BicFor;
    xml := before;
    for i := 0 to |p.creditTransferIBANs|
      invariant xml == before + Accounts(p, i)
    {
      var iban := p.creditTransferIBANs[i];
      xml := xml + [Account(CacCreditTransferAccount, iban, BicFor(p, iban))];
    }
  }

  /** `buildPayment`, which appends to its text section by section. */
  method BuildPayment(payment: Option<Payment>) returns (xml: seq<Xml>)
    ensures xml == PaymentSection(payment)
  {
    if payment.None? {
      return [];
    }
    hide PaymentKids;
    var kids := AppendPaymentParts(payment.value);
    xml := [Elem(CacPaymentMeans, [], kids, "")];
  }

  method AppendPaymentParts(p: Payment) returns (kids: seq<Xml>)
    ensures kids == PaymentKids(p)
  {
    hide Leaf, AccountNamePiece, Account, Accounts, CardAccount, DebitedAccount, When, Or;
    kids := [Leaf(CbcPaymentMeansCode, Or(p.meansCode, "30"))];
    kids := AppendWhen(p.note != "", Leaf(CbcPaymentNote, p.note), kids);
    kids := AppendAccountName(p, kids);
    kids := AppendWhen(p.iban != "", Account(CacPayeeFinancialAccount, p.iban, p.bic), kids);
    kids := AppendAccounts(p, kids);
    kids := AppendWhen(p.cardAccount != "", CardAccount(p), kids);
    kids := AppendWhen(p.debitedAccountIBAN != "", DebitedAccount(p), kids);
  }

  method AppendAccountName(p: Payment, before: seq<Xml>) returns (xml: seq<Xml>)
    ensures xml == before + AccountNamePiece(p)
  {
    xml := before;
    if p.accountName.Some? {
      var currency := Esc(Or(p.currencyCode, "EUR"));
      xml := xml + [Elem(CbcPaymentoverteenyAmount, [Attr(CurrencyID, currency)], [], NameFigures(p.accountName.value))];
    }
  }

  /** `if (present) xml += part` */
  method AppendWhen(present: bool, part: Xml, before: seq<Xml>) returns (xml: seq<Xml>)
    ensures xml == before + When(present, part)
  {
    xml := before;
    if present {
      xml := xml + [part];
    }
  }

  lemma PaymentKidsFlat(p: Payment)
    ensures PaymentKids(p) == Flat(PaymentPieces(p))
  {
    hide Leaf, AccountNamePiece, Account, Accounts, CardAccount, DebitedAccount, Flat, When;
    FlatSeven(PaymentPieces(p));
  }

  lemma FlatSeven(pieces: seq<seq<Xml>>)
    requires |pieces| == 7
    ensures Flat(pieces) == pieces[0] + pieces[1] + pieces[2] + pieces[3] + pieces[4] + pieces[5] + pieces[6]
  {
    hide Flat;
    FlatPrefix(pieces, 0);
    FlatPrefix(pieces, 1);
    FlatPrefix(pieces, 2);
    FlatPrefix(pieces, 3);
    FlatPrefix(pieces, 4);
    FlatPrefix(pieces, 5);
    FlatPrefix(pieces, 6);
    FlatNothing();
    assert pieces[..7] == pieces && pieces[..0] == [];
    assert [] + pieces[0] == pieces[0];
  }

  lemma FlatNothing()
    ensures Flat([]) == []
  {
  }

  lemma FlatPrefix(pieces: seq<seq<Xml>>, k: nat)
    requires k < |pieces|
    ensures Flat(pieces[..k + 1]) == Flat(pieces[..k]) + pieces[k]
  {
    FlatSnoc(pieces[..k], pieces[k]);
    assert pieces[..k + 1] == pieces[..k] + [pieces[k]];
  }

  lemma {:induction false} FlatSnoc(pieces: seq<seq<Xml>>, last: seq<Xml>)
    ensures Flat(pieces + [last]) == Flat(pieces) + last
  {
    if pieces == [] {
      assert [last][1..] == [] && pieces + [last] == [last];
      assert Flat([]) == [];
    } else {
      assert (pieces + [last])[1..] == pieces[1..] + [last];
      FlatSnoc(pieces[1..], last);
    }
  }

  // ----- VAT, totals, lines

  function Sum(xs: seq<real>): real {
    if xs == [] then 0.0 else Sum(xs[..|xs| - 1]) + xs[|xs| - 1]
  }

  function TaxAmounts(vats: seq<Vat>): seq<real> {
    seq(|vats|, i requires 0 <= i < |vats| => vats[i].taxAmount)
  }

  function CategoryPieces(category: string, rate: real): seq<seq<Xml>> {
    [[Leaf(CbcID, category)], [Number(CbcPercent, rate)], [VatScheme()]]
  }

  function SubtotalPieces(v: Vat): seq<seq<Xml>> {
    [ [Money(CbcTaxableAmount, "EUR", v.taxableAmount)],
      [Money(CbcTaxAmount, "EUR", v.taxAmount)],
      [Node(CacTaxCategory, CategoryPieces(v.category, v.rate))] ]
  }

  function Subtotal(v: Vat): (e: Xml)
    ensures e.tag == CacTaxSubtotal
  {
    Node(CacTaxSubtotal, SubtotalPieces(v))
  }

  function Subtotals(vats: seq<Vat>): seq<Xml> {
    if vats == [] then [] else Subtotals(vats[..|vats| - 1]) + [Subtotal(vats[|vats| - 1])]
  }

  function VatHead(vats: seq<Vat>): Xml {
    Money(CbcTaxAmount, "EUR", Sum(TaxAmounts(vats)))
  }

  function VatSection(vats: seq<Vat>): seq<Xml> {
    if vats == [] then [] else [Elem(CacTaxTotal, [], [VatHead(vats)] + Subtotals(vats), "")]
  }

  /** The loop over the VAT breakdown. */
  method AppendSubtotals(vats: seq<Vat>, before: seq<Xml>) returns (xml: seq<Xml>)
    ensures xml == before + Subtotals(vats)
  {
    hide Subtotal;
    xml := before;
    for i := 0 to |vats|
      invariant xml == before + Subtotals(vats[..i])
    {
      assert vats[..i + 1][..i] == vats[..i];
      xml := xml + [Subtotal(vats[i])];
    }
    assert vats[..|vats|] == vats;
  }

  /** `buildVAT`: the total of the tax amounts, then one subtotal appended per entry. */
  method BuildVAT(vats: seq<Vat>) returns (xml: seq<Xml>)
    ensures xml == VatSection(vats)
  {
    if vats == [] {
      return [];
    }
    hide VatHead, Subtotals;
    var kids := AppendSubtotals(vats, [VatHead(vats)]);
    xml := [Elem(CacTaxTotal, [], kids, "")];
  }

  lemma FlatTwo(a: seq<Xml>, b: seq<Xml>)
    ensures Flat([a, b]) == a + b
  {
    FlatSnoc([], a);
    FlatSnoc([a], b);
    assert [] + [a] == [a] && [a] + [b] == [a, b];
  }

  function TotalPieces(mt: Totals): seq<seq<Xml>> {
    [ [Money(CbcLineExtensionAmount, "EUR", mt.lineExtensionAmount)],
      [Money(CbcTaxExclusiveAmount, "EUR", mt.taxExclusiveAmount)],
      [Money(CbcTaxInclusiveAmount, "EUR", mt.taxInclusiveAmount)],
      When(mt.allowanceTotalAmount != 0.0, Money(CbcAllowanceTotalAmount, "EUR", mt.allowanceTotalAmount)),
      When(mt.chargeTotalAmount != 0.0, Money(CbcChargeTotalAmount, "EUR", mt.chargeTotalAmount)),
      [Money(CbcPayableAmount, "EUR", mt.payableAmount)] ]
  }

  function BuildMonetaryTotal(mt: Option<Totals>): seq<Xml> {
    match mt
    case None => []
    case Some(t) => [Node(CacLegalMonetaryTotal, TotalPieces(t))]
  }

  function ItemPieces(line: Line): seq<seq<Xml>> {
    [ [Leaf(CbcName, Or(line.name, line.itemName))],
      When(line.description != "", Leaf(CbcDescription, line.description)),
      When(line.countryOfOrigin != "",
           Node(CacOriginCountry, [[Leaf(CbcIdentificationCode, line.countryOfOrigin)]])),
      [Node(CacClassifiedTaxCategory, CategoryPieces(line.vatCategory, line.vatRate))] ]
  }

  function Quantity(line: Line): (e: Xml)
    ensures e.tag == CbcInvoicedQuantity
  {
    Elem(CbcInvoicedQuantity, [Attr(UnitCode, Esc(Or(line.unitCode, "C62")))], [], Fixed2(line.quantity))
  }

  function Price(line: Line, cc: string): (e: Xml)
    ensures e.tag == CacPrice
  {
    Elem(CacPrice, [], [Money(CbcPriceAmount, cc, line.priceAmount)], "")
  }

  function Item(line: Line): (e: Xml)
    ensures e.tag == CacItem
  {
    Node(CacItem, ItemPieces(line))
  }

  /** The parts of a line; its currency is written without escaping. */
  function LineParts(line: Line, cc: string): seq<Xml> {
    [ Leaf(CbcID, line.id), Quantity(line), Money(CbcLineExtensionAmount, cc, line.lineExtensionAmount),
      Item(line), Price(line, cc) ]
  }

  function LineElement(line: Line, currencyCode: string): (e: Xml)
    ensures e.tag == CacInvoiceLine
  {
    Elem(CacInvoiceLine, [], LineParts(line, Or(currencyCode, "EUR")), "")
  }

  function LineSection(lines: seq<Line>, currencyCode: string): seq<Xml> {
    if lines == [] then []
    else LineSection(lines[..|lines| - 1], currencyCode) + [LineElement(lines[|lines| - 1], currencyCode)]
  }

  method BuildLines(lines: seq<Line>, currencyCode: string) returns (xml: seq<Xml>)
    ensures xml == LineSection(lines, currencyCode)
  {
    hide LineElement;
    xml := [];
    for i := 0 to |lines|
      invariant xml == LineSection(lines[..i], currencyCode)
    {
      assert lines[..i + 1][..i] == lines[..i];
      xml := xml + [LineElement(lines[i], currencyCode)];
    }
    assert lines[..|lines|] == lines;
  }

  const XSD := "urn:oasis:names:" + "specification:ubl:" + "schema:xsd:"

  function RootAttrs(creditNote: bool): seq<Attr> {
    [ Attr(Xmlns, XSD + (if creditNote then "CreditNote" else "Invoice") + "-2"),
      Attr(XmlnsCac, XSD + "CommonAggregate" + "Components-2"),
      Attr(XmlnsCbc, XSD + "CommonBasic" + "Components-2") ]
  }

  /** The header elements, then one section after the other. */
  function DocumentPieces(data: Invoice): seq<seq<Xml>> {
    [ [CustomizationID()],
      [ProfileID()],
      [Leaf(CbcID, data.id)],
      [Leaf(CbcIssueDate, data.issueDate)],
      When(data.dueDate != "", Leaf(CbcDueDate, data.dueDate)),
      [Leaf(CbcInvoiceTypeCode, data.invoiceTypeCode)],
      [Leaf(CbcDocumentCurrencyCode, Or(data.currencyCode, "EUR"))],
      When(data.buyerReference != "", Leaf(CbcBuyerReference, data.buyerReference)),
      BuildSeller(data.seller), BuildBuyer(data.buyer), PaymentSection(data.payment), VatSection(data.vatBreakdown),
      BuildMonetaryTotal(data.monetaryTotal), LineSection(data.lines, data.currencyCode) ]
  }

  function BuildDocument(data: Invoice, creditNote: bool): Xml {
    Elem(if creditNote then CreditNote else XmlTree.Invoice, RootAttrs(creditNote), Flat(DocumentPieces(data)), "")
  }

  /** The lines' currency goes into two attributes of every line as it is. */
  predicate PlainCurrency(data: Invoice) {
    data.lines == [] || MarkFree(Or(data.currencyCode, "EUR"))
  }
}
