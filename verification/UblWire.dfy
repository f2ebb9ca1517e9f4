/** The generated document as text: when it can be read at all, and that parsing the text gives the normal form. */
module UblWire {
  import opened Options
  import opened Strings
  import opened XmlText
  import opened XmlTree
  import opened XmlWire
  import opened Decimals
  import opened UblModel
  import opened UblGenerator
  import opened UblParser
  import opened UblRoundTrip

  // ----- lists of elements

  lemma {:induction false} FlatWritable(pieces: seq<seq<Xml>>)
    ensures AllWritable(Flat(pieces)) <==> forall p <- pieces :: AllWritable(p)
  {
    hide Writable;
    if pieces != [] {
      FlatWritable(pieces[1..]);
      BothWritable(pieces[0], Flat(pieces[1..]));
      assert pieces == [pieces[0]] + pieces[1..];
    }
  }

  lemma BothWritable(a: seq<Xml>, b: seq<Xml>)
    ensures AllWritable(a + b) <==> AllWritable(a) && AllWritable(b)
  {
    hide Writable;
    assert forall x :: x in a + b <==> x in a || x in b;
  }

  lemma NodeWritable(tag: Name, pieces: seq<seq<Xml>>)
    requires forall p <- pieces :: AllWritable(p)
    ensures Writable(Node(tag, pieces)) && AllWritable([Node(tag, pieces)])
  {
    hide Flat;
    FlatWritable(pieces);
    OneWritable(Node(tag, pieces), true);
  }

  lemma OneWritable(e: Xml, c: bool)
    ensures AllWritable([e]) <==> Writable(e)
    ensures Writable(e) ==> AllWritable(When(c, e))
  {
    hide Writable;
  }

  lemma SixWritable(pieces: seq<seq<Xml>>)
    requires |pieces| == 6 && AllWritable(pieces[0]) && AllWritable(pieces[1]) && AllWritable(pieces[2])
    requires AllWritable(pieces[3]) && AllWritable(pieces[4]) && AllWritable(pieces[5])
    ensures forall p <- pieces :: AllWritable(p)
  {
    hide AllWritable;
  }

  lemma SevenWritable(pieces: seq<seq<Xml>>)
    requires |pieces| == 7 && AllWritable(pieces[0]) && AllWritable(pieces[1]) && AllWritable(pieces[2])
    requires AllWritable(pieces[3]) && AllWritable(pieces[4]) && AllWritable(pieces[5]) && AllWritable(pieces[6])
    ensures forall p <- pieces :: AllWritable(p)
  {
    hide AllWritable;
  }

  lemma FourWritable(pieces: seq<seq<Xml>>)
    requires |pieces| == 4 && AllWritable(pieces[0]) && AllWritable(pieces[1]) && AllWritable(pieces[2]) && AllWritable(pieces[3])
    ensures forall p <- pieces :: AllWritable(p)
  {
    hide AllWritable;
  }

  // ----- leaves

  lemma LeafWritable(tag: Name, s: string, c: bool)
    ensures Writable(Leaf(tag, s)) && AllWritable([Leaf(tag, s)]) && AllWritable(When(c, Leaf(tag, s)))
  {
    EscHasNoMarkup(s);
    OneWritable(Leaf(tag, s), c);
  }

  lemma AttrLeafWritable(tag: Name, attr: AttrName, value: string, s: string)
    ensures Writable(AttrLeaf(tag, attr, value, s)) && AllWritable([AttrLeaf(tag, attr, value, s)])
  {
    EscHasNoMarkup(s);
    EscHasNoMarkup(value);
    OneWritable(AttrLeaf(tag, attr, value, s), true);
  }

  lemma FigurePlain(x: real)
    ensures '<' !in Fixed2(x)
  {
    Fixed2Clean(x);
  }

  lemma MoneyWritable(tag: Name, currency: string, amount: real, c: bool)
    ensures Writable(Money(tag, currency, amount)) <==> MarkFree(currency)
    ensures MarkFree(currency) ==> AllWritable([Money(tag, currency, amount)]) && AllWritable(When(c, Money(tag, currency, amount)))
  {
    hide Fixed2;
    FigurePlain(amount);
    var e := Money(tag, currency, amount);
    assert e.attrs[0] in e.attrs;
    OneWritable(e, c);
  }

  lemma NumberWritable(tag: Name, amount: real)
    ensures Writable(Number(tag, amount)) && AllWritable([Number(tag, amount)])
  {
    hide Fixed2;
    FigurePlain(amount);
    OneWritable(Number(tag, amount), true);
  }

  lemma PlainWritable(tag: Name, s: string)
    requires Plain(s)
    ensures AllWritable([Elem(tag, [], [], s)])
  {
    OneWritable(Elem(tag, [], [], s), true);
  }

  // ----- sections

  lemma VatSchemeWritable()
    ensures AllWritable([VatScheme()])
  {
    hide Leaf, Writable, AllWritable, Node;
    LeafWritable(CbcID, "VAT", true);
    NodeWritable(CacTaxScheme, [[Leaf(CbcID, "VAT")]]);
  }

  lemma AddressWritable(p: Party)
    ensures AllWritable([Node(CacPostalAddress, AddressPieces(p))])
  {
    hide *;
    AddressShape(p);
    LeafWritable(CbcStreetName, p.streetName, p.streetName != "");
    LeafWritable(CbcCityName, p.cityName, p.cityName != "");
    LeafWritable(CbcPostalZone, p.postalZone, p.postalZone != "");
    CountryWritable(Or(p.countryCode, "SK"));
    FourWritable(AddressPieces(p));
    NodeWritable(CacPostalAddress, AddressPieces(p));
  }

  lemma CountryWritable(code: string)
    ensures AllWritable([Node(CacCountry, [[Leaf(CbcIdentificationCode, code)]])])
  {
    hide Leaf, Writable, AllWritable, Node;
    LeafWritable(CbcIdentificationCode, code, true);
    NodeWritable(CacCountry, [[Leaf(CbcIdentificationCode, code)]]);
  }

  lemma TaxSchemeWritable(p: Party)
    ensures AllWritable([Node(CacPartyTaxScheme, TaxSchemePieces(p))])
  {
    hide Leaf, Writable, AllWritable, Node, When, Or, VatScheme;
    LeafWritable(CbcCompanyID, Or(p.companyID, p.vatID), Or(p.companyID, p.vatID) != "");
    VatSchemeWritable();
    NodeWritable(CacPartyTaxScheme, TaxSchemePieces(p));
  }

  lemma LegalWritable(p: Party, scheme: string)
    ensures AllWritable([Node(CacPartyLegalEntity, LegalPieces(p, scheme))])
  {
    hide Leaf, AttrLeaf, Writable, AllWritable, Node, When, Or;
    LeafWritable(CbcRegistrationName, Or(p.legalRegistrationName, p.name), true);
    LeafWritable(CbcCompanyID, p.companyID, true);
    AttrLeafWritable(CbcCompanyID, SchemeID, scheme, p.companyID);
    OneWritable(LegalCompanyID(p, scheme), p.companyID != "" && p.vatID == "");
    NodeWritable(CacPartyLegalEntity, LegalPieces(p, scheme));
  }

  lemma ContactWritable(c: Contact)
    ensures AllWritable([Node(CacContact, ContactPieces(c))])
  {
    hide Leaf, Writable, AllWritable, Node, When;
    LeafWritable(CbcName, c.name, c.name != "");
    LeafWritable(CbcTelephone, c.telephone, c.telephone != "");
    LeafWritable(CbcElectronicMail, c.email, c.email != "");
    NodeWritable(CacContact, ContactPieces(c));
  }

  lemma NoneWritable()
    ensures AllWritable([])
  {
  }

  lemma ContactPieceWritable(p: Party)
    ensures AllWritable(ContactPiece(p))
  {
    hide Writable, AllWritable, Node, ContactPieces;
    NoneWritable();
    if p.contact.Some? {
      ContactWritable(p.contact.value);
    }
  }

  lemma PartyNameWritable(name: string)
    ensures AllWritable([Node(CacPartyName, [[Leaf(CbcName, name)]])])
  {
    hide Leaf, Writable, AllWritable, Node;
    LeafWritable(CbcName, name, true);
    NodeWritable(CacPartyName, [[Leaf(CbcName, name)]]);
  }

  lemma PartyWritable(p: Party, scheme: string)
    ensures Writable(Node(CacParty, PartyPieces(p, scheme)))
  {
    hide *;
    AttrLeafWritable(CbcEndpointID, SchemeID, Or(p.endpointSchemeID, "9914"), p.endpointID);
    PartyNameWritable(p.name);
    AddressWritable(p);
    TaxSchemeWritable(p);
    LegalWritable(p, scheme);
    ContactPieceWritable(p);
    PartyShape(p, scheme);
    SixWritable(PartyPieces(p, scheme));
    NodeWritable(CacParty, PartyPieces(p, scheme));
  }

  lemma PartySectionWritable(tag: Name, p: Party, scheme: string)
    ensures AllWritable([Node(tag, [[Node(CacParty, PartyPieces(p, scheme))]])])
  {
    hide Writable, AllWritable, Node, PartyPieces;
    PartyWritable(p, scheme);
    OneWritable(Node(CacParty, PartyPieces(p, scheme)), true);
    NodeWritable(tag, [[Node(CacParty, PartyPieces(p, scheme))]]);
  }

  lemma SellerWritable(seller: Option<Party>)
    ensures AllWritable(BuildSeller(seller))
  {
    hide AllWritable, Node, PartyPieces;
    NoneWritable();
    if seller.Some? {
      PartySectionWritable(CacSupplierParty, seller.value, "");
    }
  }

  lemma BuyerWritable(buyer: Option<Party>)
    ensures AllWritable(BuildBuyer(buyer))
  {
    hide AllWritable, Node, PartyPieces;
    NoneWritable();
    if buyer.Some? {
      PartySectionWritable(CacCustomerParty, buyer.value, buyer.value.companyIDSchemeID);
    }
  }

  lemma PartiesWritable(data: Invoice)
    ensures AllWritable(BuildSeller(data.seller)) && AllWritable(BuildBuyer(data.buyer))
  {
    hide AllWritable, BuildSeller, BuildBuyer;
    SellerWritable(data.seller);
    BuyerWritable(data.buyer);
  }

  lemma AccountWritable(tag: Name, iban: string, bic: string, c: bool)
    ensures AllWritable([Account(tag, iban, bic)]) && AllWritable(When(c, Account(tag, iban, bic)))
  {
    hide Leaf, Writable, AllWritable, Node, When;
    LeafWritable(CbcID, iban, true);
    LeafWritable(CbcID, bic, true);
    NodeWritable(CacFinancialInstitutionBranch, [[Leaf(CbcID, bic)]]);
    OneWritable(Branch(bic), bic != "");
    NodeWritable(tag, [[Leaf(CbcID, iban)], When(bic != "", Branch(bic))]);
    OneWritable(Account(tag, iban, bic), c);
  }

  lemma {:induction false} AccountsWritable(p: Payment, n: nat)
    requires n <= |p.creditTransferIBANs|
    ensures AllWritable(Accounts(p, n))
  {
    hide Writable, Account, BicFor;
    if n > 0 {
      var iban := p.creditTransferIBANs[n - 1];
      AccountsWritable(p, n - 1);
      AccountWritable(CacCreditTransferAccount, iban, BicFor(p, iban), true);
      BothWritable(Accounts(p, n - 1), [Account(CacCreditTransferAccount, iban, BicFor(p, iban))]);
    }
  }

  lemma CardWritable(p: Payment)
    ensures AllWritable(When(p.cardAccount != "", CardAccount(p)))
    ensures AllWritable(When(p.debitedAccountIBAN != "", DebitedAccount(p)))
  {
    hide Leaf, Writable, AllWritable, Node, When;
    LeafWritable(CbcCardAccountID, p.cardAccount, true);
    LeafWritable(CbcCardHolderName, p.cardHolderName, p.cardHolderName != "");
    LeafWritable(CbcCardTypeCode, p.cardBrand, p.cardBrand != "");
    NodeWritable(CacCardAccount, CardPieces(p));
    OneWritable(CardAccount(p), p.cardAccount != "");
    LeafWritable(CbcID, p.debitedAccountIBAN, true);
    NodeWritable(CacDebitedAccount, [[Leaf(CbcID, p.debitedAccountIBAN)]]);
    OneWritable(DebitedAccount(p), p.debitedAccountIBAN != "");
  }

  lemma AccountNameWritable(p: Payment)
    ensures AllWritable(AccountNamePiece(p))
  {
    hide Writable, AllWritable, Esc, NameFigures, Or;
    NoneWritable();
    if p.accountName.Some? {
      var name, currency := p.accountName.value, Esc(Or(p.currencyCode, "EUR"));
      EscHasNoMarkup(Or(p.currencyCode, "EUR"));
      FiguresPlain(name);
      AttrWritable(CbcPaymentoverteenyAmount, CurrencyID, currency, NameFigures(name));
    }
  }

  lemma FiguresPlain(name: AccountName)
    ensures '<' !in NameFigures(name)
  {
    hide Fixed2;
    if name.InFigures? {
      FigurePlain(name.value);
    }
  }

  lemma AttrWritable(tag: Name, attr: AttrName, value: string, s: string)
    requires MarkFree(value) && '<' !in s
    ensures AllWritable([Elem(tag, [Attr(attr, value)], [], s)])
  {
    hide MarkFree;
    OneWritable(Elem(tag, [Attr(attr, value)], [], s), true);
  }

  lemma PaymentPiecesWritable(p: Payment)
    ensures forall piece <- PaymentPieces(p) :: AllWritable(piece)
  {
    hide *;
    PaymentShape(p);
    LeafWritable(CbcPaymentMeansCode, Or(p.meansCode, "30"), true);
    LeafWritable(CbcPaymentNote, p.note, p.note != "");
    AccountNameWritable(p);
    AccountWritable(CacPayeeFinancialAccount, p.iban, p.bic, p.iban != "");
    AccountsWritable(p, |p.creditTransferIBANs|);
    CardWritable(p);
    SevenWritable(PaymentPieces(p));
  }

  lemma PaymentWritable(payment: Option<Payment>)
    ensures AllWritable(PaymentSection(payment))
  {
    hide AllWritable, Writable, PaymentKids, PaymentPieces, Flat;
    NoneWritable();
    if payment.Some? {
      var p := payment.value;
      PaymentPiecesWritable(p);
      FlatWritable(PaymentPieces(p));
      PaymentKidsFlat(p);
      PlainParent(CacPaymentMeans, PaymentKids(p));
    }
  }

  lemma PlainParent(tag: Name, kids: seq<Xml>)
    ensures AllWritable([Elem(tag, [], kids, "")]) <==> AllWritable(kids)
  {
    OneWritable(Elem(tag, [], kids, ""), true);
  }

  lemma EurPlain()
    ensures MarkFree("EUR")
  {
  }

  lemma CategoryWritable(tag: Name, category: string, rate: real)
    ensures AllWritable([Node(tag, CategoryPieces(category, rate))])
  {
    hide Leaf, Number, Writable, AllWritable, Node, VatScheme;
    LeafWritable(CbcID, category, true);
    NumberWritable(CbcPercent, rate);
    VatSchemeWritable();
    NodeWritable(tag, CategoryPieces(category, rate));
  }

  lemma SubtotalWritable(v: Vat)
    ensures AllWritable([Subtotal(v)])
  {
    hide Money, Writable, AllWritable, Node, CategoryPieces;
    EurPlain();
    MoneyWritable(CbcTaxableAmount, "EUR", v.taxableAmount, true);
    MoneyWritable(CbcTaxAmount, "EUR", v.taxAmount, true);
    CategoryWritable(CacTaxCategory, v.category, v.rate);
    NodeWritable(CacTaxSubtotal, SubtotalPieces(v));
  }

  lemma {:induction false} SubtotalsWritable(vats: seq<Vat>)
    ensures AllWritable(Subtotals(vats))
  {
    hide Writable, Subtotal;
    if vats != [] {
      var n := |vats| - 1;
      SubtotalsWritable(vats[..n]);
      SubtotalWritable(vats[n]);
      BothWritable(Subtotals(vats[..n]), [Subtotal(vats[n])]);
    }
  }

  lemma VatWritable(vats: seq<Vat>)
    ensures AllWritable(VatSection(vats))
  {
    hide Writable, AllWritable, Subtotals, Money, Sum, TaxAmounts;
    NoneWritable();
    EurPlain();
    MoneyWritable(CbcTaxAmount, "EUR", Sum(TaxAmounts(vats)), true);
    SubtotalsWritable(vats);
    BothWritable([VatHead(vats)], Subtotals(vats));
    PlainParent(CacTaxTotal, [VatHead(vats)] + Subtotals(vats));
  }

  lemma TotalPiecesWritable(t: Totals)
    ensures forall piece <- TotalPieces(t) :: AllWritable(piece)
  {
    hide Money, Writable, AllWritable, When, MarkFree;
    EurPlain();
    MoneyWritable(CbcLineExtensionAmount, "EUR", t.lineExtensionAmount, true);
    MoneyWritable(CbcTaxExclusiveAmount, "EUR", t.taxExclusiveAmount, true);
    MoneyWritable(CbcTaxInclusiveAmount, "EUR", t.taxInclusiveAmount, true);
    MoneyWritable(CbcAllowanceTotalAmount, "EUR", t.allowanceTotalAmount, t.allowanceTotalAmount != 0.0);
    MoneyWritable(CbcChargeTotalAmount, "EUR", t.chargeTotalAmount, t.chargeTotalAmount != 0.0);
    MoneyWritable(CbcPayableAmount, "EUR", t.payableAmount, true);
    SixWritable(TotalPieces(t));
  }

  lemma TotalsWritable(mt: Option<Totals>)
    ensures AllWritable(BuildMonetaryTotal(mt))
  {
    hide Writable, AllWritable, Node, TotalPieces;
    NoneWritable();
    if mt.Some? {
      TotalPiecesWritable(mt.value);
      NodeWritable(CacLegalMonetaryTotal, TotalPieces(mt.value));
    }
  }

  lemma HeaderWritable(data: Invoice)
    ensures forall i :: 0 <= i < 8 ==> AllWritable(DocumentPieces(data)[i])
  {
    hide Leaf, Writable, AllWritable, When, Or, Plain, CUSTOMIZATION_ID, PROFILE_ID,
      BuildSeller, BuildBuyer, PaymentSection, VatSection, BuildMonetaryTotal, LineSection;
    PlainFixed();
    PlainWritable(CbcCustomizationID, CUSTOMIZATION_ID);
    PlainWritable(CbcProfileID, PROFILE_ID);
    LeafWritable(CbcID, data.id, true);
    LeafWritable(CbcIssueDate, data.issueDate, true);
    LeafWritable(CbcDueDate, data.dueDate, data.dueDate != "");
    LeafWritable(CbcInvoiceTypeCode, data.invoiceTypeCode, true);
    LeafWritable(CbcDocumentCurrencyCode, Or(data.currencyCode, "EUR"), true);
    LeafWritable(CbcBuyerReference, data.buyerReference, data.buyerReference != "");
  }

  // ----- lines

  lemma OriginWritable(country: string)
    ensures AllWritable(When(country != "", Node(CacOriginCountry, [[Leaf(CbcIdentificationCode, country)]])))
  {
    hide Leaf, Writable, AllWritable, Node, When;
    LeafWritable(CbcIdentificationCode, country, true);
    NodeWritable(CacOriginCountry, [[Leaf(CbcIdentificationCode, country)]]);
    OneWritable(Node(CacOriginCountry, [[Leaf(CbcIdentificationCode, country)]]), country != "");
  }

  lemma ItemWritable(line: Line)
    ensures Writable(Item(line))
  {
    hide Leaf, Writable, AllWritable, Node, When, Or, CategoryPieces;
    LeafWritable(CbcName, Or(line.name, line.itemName), true);
    LeafWritable(CbcDescription, line.description, line.description != "");
    OriginWritable(line.countryOfOrigin);
    CategoryWritable(CacClassifiedTaxCategory, line.vatCategory, line.vatRate);
    FourWritable(ItemPieces(line));
    NodeWritable(CacItem, ItemPieces(line));
  }

  lemma QuantityWritable(line: Line)
    ensures Writable(Quantity(line))
  {
    hide Fixed2, Or, Esc;
    EscHasNoMarkup(Or(line.unitCode, "C62"));
    FigurePlain(line.quantity);
  }

  lemma PriceWritable(line: Line, cc: string)
    ensures Writable(Price(line, cc)) <==> MarkFree(cc)
  {
    hide Money;
    MoneyWritable(CbcPriceAmount, cc, line.priceAmount, true);
    var e := Price(line, cc);
    assert e.kids[0] in e.kids;
  }

  /** A line can be written exactly when its currency can. */
  lemma LineWritable(line: Line, currencyCode: string)
    ensures Writable(LineElement(line, currencyCode)) <==> MarkFree(Or(currencyCode, "EUR"))
  {
    hide Leaf, Quantity, Money, Item, Price, Or, MarkFree;
    var cc, e := Or(currencyCode, "EUR"), LineElement(line, currencyCode);
    LeafWritable(CbcID, line.id, true);
    QuantityWritable(line);
    MoneyWritable(CbcLineExtensionAmount, cc, line.lineExtensionAmount, true);
    ItemWritable(line);
    PriceWritable(line, cc);
    FiveWritable(e);
  }

  lemma FiveWritable(e: Xml)
    requires |e.kids| == 5 && e.attrs == [] && e.raw == ""
    ensures Writable(e) <==> Writable(e.kids[0]) && Writable(e.kids[1]) && Writable(e.kids[2]) && Writable(e.kids[3]) && Writable(e.kids[4])
  {
    assert e.kids[0] in e.kids && e.kids[1] in e.kids && e.kids[2] in e.kids && e.kids[3] in e.kids && e.kids[4] in e.kids;
    assert e.kids == [e.kids[0], e.kids[1], e.kids[2], e.kids[3], e.kids[4]];
  }

  lemma LinesWritable(data: Invoice)
    ensures AllWritable(LineSection(data.lines, data.currencyCode)) <==> PlainCurrency(data)
  {
    hide Writable, LineElement, LineSection, MarkFree, Or;
    var list := LineSection(data.lines, data.currencyCode);
    LineAt(data.lines, data.currencyCode);
    forall i | 0 <= i < |list| ensures Writable(list[i]) <==> MarkFree(Or(data.currencyCode, "EUR")) {
      LineWritable(data.lines[i], data.currencyCode);
    }
    if data.lines != [] {
      assert list[0] in list;
    }
  }

  // ----- documents

  lemma MarkFreeConcat(a: string, b: string)
    ensures MarkFree(a + b) <==> MarkFree(a) && MarkFree(b)
  {
  }

  lemma EndsMarkFree()
    ensures MarkFree("CreditNote") && MarkFree("Invoice") && MarkFree("-2") && MarkFree("CommonAggregate")
    ensures MarkFree("Components-2") && MarkFree("CommonBasic")
  {
  }

  lemma RootWritable(creditNote: bool)
    ensures WritableAttrs(RootAttrs(creditNote))
  {
    hide XSD, MarkFree;
    SpaceMarkFree();
    EndsMarkFree();
    var kind := if creditNote then "CreditNote" else "Invoice";
    MarkFreeConcat(XSD, kind);
    MarkFreeConcat(XSD + kind, "-2");
    MarkFreeConcat(XSD, "CommonAggregate");
    MarkFreeConcat(XSD + "CommonAggregate", "Components-2");
    MarkFreeConcat(XSD, "CommonBasic");
    MarkFreeConcat(XSD + "CommonBasic", "Components-2");
  }

  lemma SpaceMarkFree()
    ensures MarkFree(XSD)
  {
    MarkFreeConcat("urn:oasis:names:", "specification:ubl:");
    MarkFreeConcat("urn:oasis:names:" + "specification:ubl:", "schema:xsd:");
  }

  lemma SectionPieces(data: Invoice)
    ensures |DocumentPieces(data)| == 14
    ensures DocumentPieces(data)[8] == BuildSeller(data.seller) && DocumentPieces(data)[9] == BuildBuyer(data.buyer)
    ensures DocumentPieces(data)[10] == PaymentSection(data.payment) && DocumentPieces(data)[11] == VatSection(data.vatBreakdown)
    ensures DocumentPieces(data)[12] == BuildMonetaryTotal(data.monetaryTotal)
  {
    hide BuildSeller, BuildBuyer, PaymentSection, VatSection, BuildMonetaryTotal, LineSection, Leaf, When, Or, CUSTOMIZATION_ID, PROFILE_ID;
  }

  lemma BodyWritable(data: Invoice)
    ensures |DocumentPieces(data)| == 14 && forall i :: 0 <= i < 13 ==> AllWritable(DocumentPieces(data)[i])
  {
    hide *;
    SectionPieces(data);
    HeaderWritable(data);
    PartiesWritable(data);
    PaymentWritable(data.payment);
    VatWritable(data.vatBreakdown);
    TotalsWritable(data.monetaryTotal);
    forall i | 0 <= i < 13 ensures AllWritable(DocumentPieces(data)[i]) {
      assert i < 8 || i == 8 || i == 9 || i == 10 || i == 11 || i == 12;
    }
  }

  /** For every invoice: only the currency of the lines can keep the document from being read back. */
  lemma DocumentWritable(data: Invoice, creditNote: bool)
    ensures Writable(BuildDocument(data, creditNote)) <==> PlainCurrency(data)
  {
    hide DocumentPieces, PlainCurrency, Flat, RootAttrs, WritableAttrs, AllWritable;
    RootWritable(creditNote);
    FlatWritable(DocumentPieces(data));
    PiecesWritable(data);
    ParentWritable(BuildDocument(data, creditNote));
  }

  lemma ParentWritable(e: Xml)
    requires e.raw == "" && WritableAttrs(e.attrs)
    ensures Writable(e) <==> AllWritable(e.kids)
  {
  }

  lemma PiecesWritable(data: Invoice)
    ensures (forall p <- DocumentPieces(data) :: AllWritable(p)) <==> PlainCurrency(data)
  {
    hide DocumentPieces, PlainCurrency, AllWritable, LineSection;
    var pieces := DocumentPieces(data);
    BodyWritable(data);
    LinesWritable(data);
    LastPiece(data);
    assert pieces[13] in pieces;
    forall p | PlainCurrency(data) && p in pieces ensures AllWritable(p) {
      var i :| 0 <= i < 14 && pieces[i] == p;
    }
  }

  lemma LastPiece(data: Invoice)
    ensures |DocumentPieces(data)| == 14 && DocumentPieces(data)[13] == LineSection(data.lines, data.currencyCode)
  {
    hide LineSection;
  }

  /** The text of the document reads back as the document if and only if the lines' currency needs no escaping. */
  lemma DocumentBack(sp: Spelling, data: Invoice, creditNote: bool)
    requires Distinct(sp)
    ensures ReadDocument(sp, Write(sp, BuildDocument(data, creditNote))) == Some(BuildDocument(data, creditNote)) <==> PlainCurrency(data)
  {
    hide *;
    WrittenBack(sp, BuildDocument(data, creditNote));
    DocumentWritable(data, creditNote);
  }

  /** `parseUBL` on text; text that is no document is an error. */
  ghost function ParseText(sp: Spelling, text: string): Option<Parsed> {
    match ReadDocument(sp, text)
    case None => None
    case Some(e) => Parse(e)
  }

  /** Printing an invoice and parsing the text gives exactly the normal form. */
  lemma ParsePrinted(sp: Spelling, data: Invoice, creditNote: bool)
    requires Distinct(sp) && PlainCurrency(data)
    ensures ParseText(sp, Write(sp, BuildDocument(data, creditNote))) == Some(NormalForm(data, creditNote))
  {
    hide ReadDocument, Write, BuildDocument, Parse, NormalForm, PlainCurrency;
    DocumentBack(sp, data, creditNote);
    ParseGenerated(data, creditNote);
  }

  /** A quote in the currency that no space or end of tag follows, such as `"` itself: the text is no document at all. */
  lemma BrokenCurrency(sp: Spelling, data: Invoice, creditNote: bool)
    requires Distinct(sp) && data.lines != [] && Broken(Or(data.currencyCode, "EUR"))
    ensures ReadDocument(sp, Write(sp, BuildDocument(data, creditNote))) == None
    ensures ParseText(sp, Write(sp, BuildDocument(data, creditNote))) == None
  {
    hide ReadElement, Write, Broken, Distinct, DocumentPieces, LineElement, Flat, LineSection, RootAttrs, WritableAttrs, AllWritable;
    var cc, e := Or(data.currencyCode, "EUR"), BuildDocument(data, creditNote);
    var line := LineElement(data.lines[0], data.currencyCode);
    forall r ensures ReadElement(sp, Write(sp, line) + r) == None {
      BrokenLine(sp, data.lines[0], data.currencyCode, r);
    }
    RootWritable(creditNote);
    FirstLine(data);
    ElementFails(sp, e, BeforeLines(data), line, LineSection(data.lines, data.currencyCode)[1..], "");
    assert Write(sp, e) + "" == Write(sp, e);
  }

  function BeforeLines(data: Invoice): seq<Xml> {
    Flat(DocumentPieces(data)[..13])
  }

  lemma FirstLine(data: Invoice)
    requires data.lines != []
    ensures AllWritable(BeforeLines(data)) && LineSection(data.lines, data.currencyCode) != []
    ensures Flat(DocumentPieces(data))
      == BeforeLines(data) + ([LineElement(data.lines[0], data.currencyCode)] + LineSection(data.lines, data.currencyCode)[1..])
  {
    hide DocumentPieces, LineElement, LineSection, AllWritable, Flat;
    var pieces, list := DocumentPieces(data), LineSection(data.lines, data.currencyCode);
    BodyWritable(data);
    LastPiece(data);
    FlatWritable(pieces[..13]);
    FlatPrefix(pieces, 13);
    assert pieces[..14] == pieces;
    LineAt(data.lines, data.currencyCode);
    assert list == [list[0]] + list[1..];
  }

  lemma BrokenLine(sp: Spelling, line: Line, currencyCode: string, rest: string)
    requires Distinct(sp) && Broken(Or(currencyCode, "EUR"))
    ensures ReadElement(sp, Write(sp, LineElement(line, currencyCode)) + rest) == None
  {
    hide ReadElement, Write, Broken, Distinct, Leaf, Quantity, Item, Price, Or, Fixed2, AllWritable, Writable;
    var cc, e := Or(currencyCode, "EUR"), LineElement(line, currencyCode);
    var before, bad, after := [Leaf(CbcID, line.id), Quantity(line)], Money(CbcLineExtensionAmount, cc, line.lineExtensionAmount), [Item(line), Price(line, cc)];
    LeafWritable(CbcID, line.id, true);
    QuantityWritable(line);
    OneWritable(Quantity(line), true);
    BothWritable([Leaf(CbcID, line.id)], [Quantity(line)]);
    assert [Leaf(CbcID, line.id)] + [Quantity(line)] == before;
    forall r ensures ReadElement(sp, Write(sp, bad) + r) == None {
      BrokenElement(sp, bad, r);
    }
    assert e.kids == before + ([bad] + after);
    ElementFails(sp, e, before, bad, after, rest);
  }

  /** The currency `"`, with at least one line: the document cannot be written, and its text is not read at all. */
  lemma QuoteCurrency(sp: Spelling, data: Invoice, creditNote: bool)
    requires Distinct(sp) && data.lines != [] && data.currencyCode == "\""
    ensures !PlainCurrency(data) && !Writable(BuildDocument(data, creditNote))
    ensures ReadDocument(sp, Write(sp, BuildDocument(data, creditNote))) == None
  {
    hide Distinct, Writable, BuildDocument, ReadDocument, Write;
    assert Broken("\"") && !MarkFree("\"");
    DocumentWritable(data, creditNote);
    BrokenCurrency(sp, data, creditNote);
  }
}
