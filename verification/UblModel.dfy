/** The generator's input and the parser's result, with the source's field names. */
module UblModel {
  import opened Options
  import opened Decimals
  import opened XmlTree

  // ----- generator input; an absent string is "", an absent amount is 0.0, which the generator treats alike

  datatype Contact = Contact(name: string, telephone: string, email: string)

  datatype Party = Party(
    endpointSchemeID: string, endpointID: string, name: string,
    streetName: string, cityName: string, postalZone: string, countryCode: string,
    companyID: string, vatID: string, companyIDSchemeID: string, legalRegistrationName: string,
    contact: Option<Contact>)

  /** What `Number` makes of an account name that is not blank: a number, or nothing for a name in words. */
  datatype AccountName = InFigures(value: real) | InWords

  datatype Payment = Payment(
    meansCode: string, note: string, accountName: Option<AccountName>, currencyCode: string, iban: string, bic: string,
    creditTransferIBANs: seq<string>, creditTransferBICs: seq<string>,
    cardAccount: string, cardHolderName: string, cardBrand: string, debitedAccountIBAN: string)

  datatype Vat = Vat(taxableAmount: real, taxAmount: real, category: string, rate: real)

  datatype Totals = Totals(
    lineExtensionAmount: real, taxExclusiveAmount: real, taxInclusiveAmount: real,
    allowanceTotalAmount: real, chargeTotalAmount: real, payableAmount: real)

  /** `name`, `description` and `countryOfOrigin` are those of the line's `item`. */
  datatype Line = Line(
    id: string, quantity: real, unitCode: string, lineExtensionAmount: real,
    name: string, itemName: string, description: string, countryOfOrigin: string,
    vatCategory: string, vatRate: real, priceAmount: real)

  datatype Invoice = Invoice(
    id: string, issueDate: string, dueDate: string, invoiceTypeCode: string, currencyCode: string,
    buyerReference: string, seller: Option<Party>, buyer: Option<Party>, payment: Option<Payment>,
    vatBreakdown: seq<Vat>, monetaryTotal: Option<Totals>, lines: seq<Line>)

  // ----- parser result

  datatype ParsedHeader = ParsedHeader(
    id: Js, issueDate: Js, dueDate: Js, taxPointDate: Js, invoiceTypeCode: Js, currencyCode: Js,
    buyerReference: Js, customizationID: Js, profileID: Js, isCreditNote: bool)

  datatype ParsedParty = ParsedParty(
    endpointID: Js, endpointSchemeID: Js, name: Js, legalRegistrationName: Js,
    companyID: Js, companyIDSchemeID: Js, vatID: Js,
    streetName: Js, cityName: Js, postalZone: Js, countryCode: Js)

  datatype ParsedContact = ParsedContact(name: Js, telephone: Js, email: Js)

  datatype ParsedPayment = ParsedPayment(
    meansCode: Js, iban: Js, bic: Js, note: Js,
    creditTransferIBANs: seq<Js>, creditTransferBICs: seq<Js>,
    cardAccount: Js, cardHolderName: Js, cardBrand: Js, debitedAccountIBAN: Js)

  datatype ParsedVat = ParsedVat(
    taxableAmount: Num<real>, taxAmount: Num<real>, category: Js, rate: Num<real>,
    taxExemptionReason: Js, taxExemptionReasonCode: Js)

  datatype ParsedTaxTotal = ParsedTaxTotal(vatTotal: Num<real>, vatBreakdown: seq<ParsedVat>)

  datatype ParsedTotals = ParsedTotals(
    lineExtensionAmount: Num<real>, taxExclusiveAmount: Num<real>, taxInclusiveAmount: Num<real>,
    allowanceTotalAmount: Num<real>, chargeTotalAmount: Num<real>, payableAmount: Num<real>)

  datatype ParsedLine = ParsedLine(
    id: Num<int>, quantity: Num<real>, unitCode: Js, lineExtensionAmount: Num<real>,
    name: Js, description: Js, countryOfOrigin: Js, vatCategory: Js, vatRate: Num<real>, priceAmount: Num<real>)

  datatype Parsed = Parsed(
    header: ParsedHeader, seller: Option<ParsedParty>, sellerContact: Option<ParsedContact>,
    buyer: Option<ParsedParty>, payment: Option<ParsedPayment>, taxTotal: Option<ParsedTaxTotal>,
    monetaryTotal: Option<ParsedTotals>, lines: seq<ParsedLine>)
}
