/** What only one side knows: what the generator writes and the parser passes over, and what the parser reads elsewhere. */
module UblOneWay {
  import opened Options
  import opened Strings
  import opened XmlText
  import opened XmlTree
  import opened Decimals
  import opened UblModel
  import opened UblGenerator
  import opened UblParser
  import opened UblRoundTrip

  // ----- written, not read

  /** The account name is printed as an amount: a name in words leaves no number. */
  lemma AccountNameWritten(p: Payment)
    ensures AccountNamePiece(p) == [] <==> p.accountName == None
    ensures p.accountName.Some? ==>
      && |AccountNamePiece(p)| == 1 && AccountNamePiece(p)[0].tag == CbcPaymentoverteenyAmount
      && ParseFloat(AccountNamePiece(p)[0].raw) == (match p.accountName.value case InFigures(x) => Fin(Round2(x)) case InWords => NaN)
      && Prop(Collapse(AccountNamePiece(p)[0]), Attribute(CurrencyID)) == Str(Trim(if p.currencyCode == "" then "EUR" else p.currencyCode))
  {
    hide Round2, Fixed2, ParseFloat, Trim, Esc, Collapse;
    if p.accountName.Some? {
      var e := AccountNamePiece(p)[0];
      if p.accountName.value.InFigures? {
        ParseFixed2(p.accountName.value.value);
      } else {
        WordsUnread();
      }
      ReadEscaped(Or(p.currencyCode, "EUR"));
      ReadLeafAttr(e, CurrencyID);
    }
  }

  lemma WordsUnread()
    ensures ParseFloat("NaN") == NaN
  {
    assert TrimLeft("NaN") == "NaN";
    assert Unsigned("NaN") == "NaN" && DigitRun("NaN") == 0;
  }

  lemma CurrencyOf(tag: Name, cc: string, x: real)
    requires Content(cc) == cc
    ensures Prop(Collapse(Money(tag, cc, x)), Attribute(CurrencyID)) == Str(cc)
  {
    hide Collapse, Fixed2, Content;
    ReadLeafAttr(Money(tag, cc, x), CurrencyID);
  }

  lemma PlainContent(cc: string)
    requires PlainText(cc)
    ensures Content(cc) == cc
  {
    hide Trim, Decode, Esc;
    EscIdentity(cc);
    ReadEscaped(cc);
    TrimFixed(cc);
  }

  lemma Euros()
    ensures Content("EUR") == "EUR"
  {
    hide Content;
    assert forall c <- "EUR" :: c !in SPECIALS;
    PlainContent("EUR");
  }

  predicate InCurrency(e: Xml, cc: string) {
    Prop(Collapse(e), Attribute(CurrencyID)) == Str(cc)
  }

  /** The elements that are not sections of their own are amounts in the currency. */
  predicate AmountsIn(es: seq<Xml>, cc: string) {
    forall e <- es :: e.tag != CacTaxCategory ==> InCurrency(e, cc)
  }

  predicate PiecesIn(pieces: seq<seq<Xml>>, cc: string) {
    forall piece <- pieces :: AmountsIn(piece, cc)
  }

  lemma MoneyIn(tag: Name, cc: string, x: real, present: bool)
    requires Content(cc) == cc
    ensures InCurrency(Money(tag, cc, x), cc) && AmountsIn([Money(tag, cc, x)], cc) && AmountsIn(When(present, Money(tag, cc, x)), cc)
  {
    hide Collapse, Prop, Money, Content;
    CurrencyOf(tag, cc, x);
  }

  /** Every total is in euros, whatever the currency of the lines. */
  lemma TotalsInEuros(t: Totals)
    ensures PiecesIn(TotalPieces(t), "EUR")
  {
    hide AmountsIn, Money, Content, InCurrency, When;
    Euros();
    MoneyIn(CbcLineExtensionAmount, "EUR", t.lineExtensionAmount, true);
    MoneyIn(CbcTaxExclusiveAmount, "EUR", t.taxExclusiveAmount, true);
    MoneyIn(CbcTaxInclusiveAmount, "EUR", t.taxInclusiveAmount, true);
    MoneyIn(CbcAllowanceTotalAmount, "EUR", t.allowanceTotalAmount, t.allowanceTotalAmount != 0.0);
    MoneyIn(CbcChargeTotalAmount, "EUR", t.chargeTotalAmount, t.chargeTotalAmount != 0.0);
    MoneyIn(CbcPayableAmount, "EUR", t.payableAmount, true);
  }

  /** And so is every tax. */
  lemma TaxesInEuros(v: Vat, vats: seq<Vat>)
    ensures InCurrency(VatHead(vats), "EUR") && PiecesIn(SubtotalPieces(v), "EUR")
  {
    hide AmountsIn, Money, Content, InCurrency, When, Sum, TaxAmounts, CategoryPieces, Node;
    Euros();
    MoneyIn(CbcTaxAmount, "EUR", Sum(TaxAmounts(vats)), true);
    MoneyIn(CbcTaxableAmount, "EUR", v.taxableAmount, true);
    MoneyIn(CbcTaxAmount, "EUR", v.taxAmount, true);
    CategoryApart(v);
  }

  lemma CategoryApart(v: Vat)
    ensures AmountsIn([Node(CacTaxCategory, CategoryPieces(v.category, v.rate))], "EUR")
  {
    hide Node, CategoryPieces, InCurrency;
  }

  predicate PlainText(s: string) {
    (s != "" ==> !IsSpace(s[0]) && !IsSpace(s[|s| - 1])) && forall c <- s :: c !in SPECIALS
  }

  lemma PricesInCurrency(l: Line, cc: string)
    requires Content(cc) == cc
    ensures forall e <- Price(l, cc).kids :: InCurrency(e, cc)
  {
    hide Money, Content, InCurrency;
    MoneyIn(CbcPriceAmount, cc, l.priceAmount, true);
  }

  lemma PartsInCurrency(l: Line, cc: string, e: Xml)
    requires Content(cc) == cc && e in LineParts(l, cc) && e.tag == CbcLineExtensionAmount
    ensures InCurrency(e, cc)
  {
    hide Money, Content, Item, Quantity, Leaf, Price, InCurrency, AmountsIn;
    MoneyIn(CbcLineExtensionAmount, cc, l.lineExtensionAmount, true);
  }

  /** The lines' amounts are in the currency of the document. */
  lemma LinesInCurrency(l: Line, cc: string)
    requires PlainText(cc)
    ensures forall e <- LineParts(l, cc) :: e.tag == CbcLineExtensionAmount ==> InCurrency(e, cc)
    ensures forall e <- Price(l, cc).kids :: InCurrency(e, cc)
  {
    hide LineParts, Price, Content, InCurrency;
    PlainContent(cc);
    PricesInCurrency(l, cc);
    forall e | e in LineParts(l, cc) && e.tag == CbcLineExtensionAmount ensures InCurrency(e, cc) {
      PartsInCurrency(l, cc, e);
    }
  }

  /** The country of origin can be read where it is written. */
  lemma OriginWritten(l: Line)
    ensures Prop(Prop(Collapse(Item(l)), Child(CacOriginCountry)), Child(CbcIdentificationCode))
      == if l.countryOfOrigin == "" then Undefined else Str(Trim(l.countryOfOrigin))
  {
    hide Collapse, Prop, Item, ItemPieces, ITEM, Labelled, Flat, Trim, Holds, Node, Leaf;
    var origin := Node(CacOriginCountry, [[Leaf(CbcIdentificationCode, l.countryOfOrigin)]]);
    ItemShape(l);
    ItemLabels(l);
    OriginHolds(l);
    PickWhen(Item(l), ItemPieces(l), ITEM, 2, CacOriginCountry, l.countryOfOrigin != "", origin);
    ReadSingle(origin, CacOriginCountry, CbcIdentificationCode, l.countryOfOrigin);
    NothingInNothing(CbcIdentificationCode);
  }

  lemma OriginHolds(l: Line)
    ensures Holds(ItemPieces(l), ITEM, 2, CacOriginCountry, l.countryOfOrigin != "",
                  Node(CacOriginCountry, [[Leaf(CbcIdentificationCode, l.countryOfOrigin)]]))
  {
    hide Leaf, Node, Or, CategoryPieces;
  }

  lemma NothingInNothing(tag: Name)
    ensures Prop(Undefined, Child(tag)) == Undefined
  {
  }

  predicate Clean(s: string) {
    s != "" && Plain(s) && !IsSpace(s[0]) && !IsSpace(s[|s| - 1])
  }

  lemma CleanJoined(a: string, b: string)
    requires Clean(a) && Clean(b)
    ensures Clean(a + b)
  {
  }

  lemma CleanContent(s: string)
    requires Clean(s)
    ensures Content(s) == s
  {
    PlainMeans(s);
    PlainContent(s);
  }

  lemma NamespaceStart()
    ensures Clean("urn:oasis:names:") && Clean("specification:ubl:") && Clean("schema:xsd:")
  {
  }

  lemma NamespaceEnds()
    ensures Clean("CreditNote") && Clean("Invoice") && Clean("-2")
  {
  }

  /** The namespace of a document is that of its kind. */
  lemma RootNamed(data: Invoice, creditNote: bool)
    ensures Prop(Collapse(BuildDocument(data, creditNote)), Attribute(Xmlns))
      == Str("urn:oasis:names:" + "specification:ubl:" + "schema:xsd:" + (if creditNote then "CreditNote" else "Invoice") + "-2")
  {
    hide Collapse, Prop, DocumentPieces, Flat, Clean, Content;
    var root, kind := BuildDocument(data, creditNote), if creditNote then "CreditNote" else "Invoice";
    var xsd := "urn:oasis:names:" + "specification:ubl:" + "schema:xsd:";
    NamespaceStart();
    NamespaceEnds();
    CleanJoined("urn:oasis:names:", "specification:ubl:");
    CleanJoined("urn:oasis:names:" + "specification:ubl:", "schema:xsd:");
    CleanJoined(xsd, kind);
    CleanJoined(xsd + kind, "-2");
    CleanContent(xsd + kind + "-2");
    PropAttribute(root, Xmlns);
    assert root.attrs[0] == Attr(Xmlns, xsd + kind + "-2");
  }

  /** Every document names the European norm and the Peppol billing process. */
  lemma NormWritten()
    ensures Collapse(CustomizationID())
      == Str("urn:cen.eu:en16931" + ":2017#compliant#" + ("urn:fdc:peppol.eu:" + "2017:poacc:billing:" + "3.0"))
    ensures Collapse(ProfileID()) == Str("urn:fdc:peppol.eu:" + "2017:poacc:billing:" + "01:1.0")
  {
    hide Collapse;
    FixedIds();
  }

  /** The tax scheme is VAT. */
  lemma SchemeWritten()
    ensures Prop(Collapse(VatScheme()), Child(CbcID)) == Str("VAT")
  {
    hide Collapse, Prop, Node, Leaf, Trim;
    ReadSingle(VatScheme(), CacTaxScheme, CbcID, "VAT");
    TrimFixed("VAT");
  }

  // ----- read, not written

  /** A list read as text is its elements' texts, with commas between them; a missing one has none. */
  lemma {:induction false} ListText(a: seq<Js>, b: seq<Js>)
    ensures JsText(Arr([])) == ""
    ensures |a| == 1 ==> JsText(Arr(a)) == if a[0].Undefined? then "" else JsText(a[0])
    ensures a != [] && b != [] ==> JsText(Arr(a + b)) == JsText(Arr(a)) + "," + JsText(Arr(b))
  {
    if a != [] && b != [] {
      assert (a + b)[0] == a[0] && (a + b)[1..] == a[1..] + b;
      if |a| == 1 {
        assert a[1..] == [];
        assert a[1..] + b == b;
      } else {
        ListText(a[1..], b);
      }
    }
  }

  /** The parser gives up exactly on a document of another kind and on an empty one. */
  lemma RejectedExactly(root: Xml)
    ensures Parse(root) == None
      <==> root.tag !in {XmlTree.Invoice, CreditNote} || (root.attrs == [] && root.kids == [] && Content(root.raw) == "")
  {
    hide ParseHeader, ParseParty, ParseContact, ParsePayment, ParseTaxTotal, ParseTotals, ParseLines, Content, Optional;
  }

  /** The only child of its name is a leaf with this text. */
  ghost predicate HasLeaf(e: Xml, tag: Name, s: string) {
    exists j: nat :: OnlyLeaf(e, j, tag, s)
  }

  predicate OnlyLeaf(e: Xml, j: nat, tag: Name, s: string) {
    j < |e.kids| && e.kids[j] == Elem(tag, [], [], Esc(s)) && forall i :: 0 <= i < |e.kids| && i != j ==> e.kids[i].tag != tag
  }

  predicate HasNone(e: Xml, tag: Name) {
    forall k <- e.kids :: k.tag != tag
  }

  lemma LeafRead(e: Xml, tag: Name, s: string)
    requires HasLeaf(e, tag, s)
    ensures Read(Collapse(e), tag) == Str(Trim(s))
  {
    hide Collapse, Prop, Esc, Trim;
    var j: nat :| OnlyLeaf(e, j, tag, s);
    PickKid(e, j);
    ReadLeaf(tag, s);
  }

  lemma NoneRead(e: Xml, tag: Name)
    requires HasNone(e, tag)
    ensures Read(Collapse(e), tag) == Str("")
  {
    hide Collapse, Prop;
    CollapseOther(e.kids, tag);
    PropChild(e, tag);
    BareUndefined();
  }

  /** The child at `j`, which has children of its own, is the only one of its name. */
  predicate OnlyNode(e: Xml, j: nat, x: Xml) {
    j < |e.kids| && e.kids[j] == x && x.kids != [] && forall i :: 0 <= i < |e.kids| && i != j ==> e.kids[i].tag != x.tag
  }

  lemma SectionRead(e: Xml, j: nat, x: Xml)
    requires OnlyNode(e, j, x)
    ensures Section(Collapse(e), x.tag) == Collapse(x) && Prop(Collapse(e), Child(x.tag)) == Collapse(x)
  {
    hide Collapse, Prop;
    PickKid(e, j);
    CollapseNode(x);
  }

  /** The reason for an exemption and its code, each "" when absent. */
  lemma ExemptionRead(e: Xml, j: nat, category: Xml, reason: string, code: string)
    requires OnlyNode(e, j, category) && category.tag == CacTaxCategory
    requires if reason == "" then HasNone(category, CbcTaxExemptionReason) else HasLeaf(category, CbcTaxExemptionReason, reason)
    requires if code == "" then HasNone(category, CbcTaxExemptionReasonCode) else HasLeaf(category, CbcTaxExemptionReasonCode, code)
    ensures ParseSubtotal(Collapse(e)).taxExemptionReason == Str(Trim(reason))
    ensures ParseSubtotal(Collapse(e)).taxExemptionReasonCode == Str(Trim(code))
  {
    hide Collapse, Read, Amount, PlainAmount, HasLeaf, HasNone, OnlyNode, Section, Trim;
    TrimNothing();
    SectionRead(e, j, category);
    if reason == "" {
      NoneRead(category, CbcTaxExemptionReason);
    } else {
      LeafRead(category, CbcTaxExemptionReason, reason);
    }
    if code == "" {
      NoneRead(category, CbcTaxExemptionReasonCode);
    } else {
      LeafRead(category, CbcTaxExemptionReasonCode, code);
    }
  }

  /** A missing amount counts as 0. */
  lemma MissingAmount(e: Xml, tag: Name)
    requires HasNone(e, tag)
    ensures Amount(Collapse(e), tag) == PlainAmount(Collapse(e), tag) == Fin(0.0)
  {
    hide Collapse, HasNone, ParseFloat;
    NoneValue(e, tag);
    ParseZero();
    assert Get2(Collapse(e), Child(tag), Text) == Undefined && Get1(Collapse(e), Child(tag)) == Undefined;
  }

  lemma TaxPointRead(root: Xml, date: string, creditNote: bool)
    requires HasLeaf(root, CbcTaxPointDate, date)
    ensures ParseHeader(Collapse(root), creditNote).taxPointDate == Str(Trim(date))
  {
    hide Collapse, Read, HasLeaf, Trim;
    LeafRead(root, CbcTaxPointDate, date);
  }

  /** An invoice without a type code is a commercial invoice, and one without a currency is in euros. */
  lemma HeaderDefaults(root: Xml, creditNote: bool)
    requires HasNone(root, CbcInvoiceTypeCode) && HasNone(root, CbcDocumentCurrencyCode)
    ensures ParseHeader(Collapse(root), creditNote).invoiceTypeCode == Str("380")
    ensures ParseHeader(Collapse(root), creditNote).currencyCode == Str("EUR")
  {
    hide Collapse, Prop, Read;
    CollapseOther(root.kids, CbcInvoiceTypeCode);
    CollapseOther(root.kids, CbcDocumentCurrencyCode);
    PropChild(root, CbcInvoiceTypeCode);
    PropChild(root, CbcDocumentCurrencyCode);
    BareUndefined();
  }

  /** The country of origin is read from an element the generator never writes. */
  lemma OriginRead(line: Xml, i: nat, item: Xml, j: nat, country: Xml, code: string)
    requires OnlyNode(line, i, item) && item.tag == CacItem
    requires OnlyNode(item, j, country) && country.tag == CacCountry && HasLeaf(country, CbcIdentificationCode, code)
    ensures ParseLine(Collapse(line)).countryOfOrigin == Str(Trim(code))
  {
    hide Collapse, Read, Amount, PlainAmount, HasLeaf, OnlyNode, Section, UnitOf, LineId, Trim;
    SectionRead(line, i, item);
    SectionRead(item, j, country);
    LeafRead(country, CbcIdentificationCode, code);
  }

  lemma LeafValue(e: Xml, tag: Name, s: string)
    requires HasLeaf(e, tag, s)
    ensures Prop(Collapse(e), Child(tag)) == Str(Trim(s))
  {
    hide Collapse, Prop, Esc, Trim;
    var j: nat :| OnlyLeaf(e, j, tag, s);
    PickKid(e, j);
    ReadLeaf(tag, s);
  }

  lemma NoneValue(e: Xml, tag: Name)
    requires HasNone(e, tag)
    ensures Prop(Collapse(e), Child(tag)) == Undefined
  {
    hide Collapse, Prop;
    CollapseOther(e.kids, tag);
    PropChild(e, tag);
  }

  lemma LegalOnly(party: Js, s: string)
    requires Prop(party, Child(CacPartyTaxScheme)) == Undefined
    requires Prop(Prop(party, Child(CacPartyLegalEntity)), Child(CbcCompanyID)) == Str(s)
    ensures CompanyID(party) == Str(s) && CompanyIDScheme(party) == Str("")
  {
  }

  /** Without a tax scheme the company id is that of the legal entity. */
  lemma LegalIdRead(party: Xml, j: nat, legal: Xml, id: string)
    requires HasNone(party, CacPartyTaxScheme) && OnlyNode(party, j, legal) && legal.tag == CacPartyLegalEntity
    requires HasLeaf(legal, CbcCompanyID, id)
    ensures CompanyID(Collapse(party)) == Str(Trim(id)) && CompanyIDScheme(Collapse(party)) == Str("")
  {
    hide Collapse, Prop, Trim, CompanyID, CompanyIDScheme, OnlyNode, HasNone, HasLeaf, Section;
    NoneValue(party, CacPartyTaxScheme);
    SectionRead(party, j, legal);
    LeafValue(legal, CbcCompanyID, id);
    LegalOnly(Collapse(party), Trim(id));
  }
}
