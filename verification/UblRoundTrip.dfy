/** What parsing a generated document gives: the normal form of the invoice. */
module UblRoundTrip {
  import opened Options
  import opened Strings
  import opened XmlText
  import opened XmlTree
  import opened Decimals
  import opened UblModel
  import opened UblGenerator
  import opened UblParser

  // ----- the normal form

  function Trimmed(s: string): Js {
    Str(Trim(s))
  }

  function Cent(x: real): Num<real> {
    Fin(Round2(x))
  }

  function NormalHeader(data: Invoice, creditNote: bool): ParsedHeader {
    ParsedHeader(
      Trimmed(data.id), Trimmed(data.issueDate), Trimmed(data.dueDate), EMPTY,
      Str(Or(Trim(data.invoiceTypeCode), "380")),
      Str(Or(Trim(Or(data.currencyCode, "EUR")), "EUR")),
      Trimmed(data.buyerReference), Str(CUSTOMIZATION_ID), Str(PROFILE_ID), creditNote)
  }

  /** Company id and VAT id collapse to one value; the id scheme survives only beside a legal company id. */
  function NormalParty(p: Party, isBuyer: bool): ParsedParty {
    var id := Or(p.companyID, p.vatID);
    ParsedParty(
      Trimmed(p.endpointID), Trimmed(Or(p.endpointSchemeID, "9914")), Trimmed(p.name),
      Trimmed(Or(p.legalRegistrationName, p.name)),
      Trimmed(id),
      if isBuyer && p.companyID != "" && p.vatID == "" then Trimmed(p.companyIDSchemeID) else EMPTY,
      Trimmed(id),
      Trimmed(p.streetName), Trimmed(p.cityName), Trimmed(p.postalZone), Trimmed(Or(p.countryCode, "SK")))
  }

  function NormalContact(seller: Option<Party>): Option<ParsedContact> {
    match seller
    case Some(p) =>
      (match p.contact
       case Some(c) =>
         if c.name == "" && c.telephone == "" && c.email == "" then None
         else Some(ParsedContact(Trimmed(c.name), Trimmed(c.telephone), Trimmed(c.email)))
       case None => None)
    case None => None
  }

  function AccountIbans(p: Payment, n: nat): seq<Js>
    requires n <= |p.creditTransferIBANs|
  {
    if n == 0 then [] else AccountIbans(p, n - 1) + [Trimmed(p.creditTransferIBANs[n - 1])]
  }

  function AccountBics(p: Payment, n: nat): seq<Js>
    requires n <= |p.creditTransferIBANs|
  {
    if n == 0 then [] else AccountBics(p, n - 1) + [Trimmed(BicFor(p, p.creditTransferIBANs[n - 1]))]
  }

  function NormalPayment(p: Payment): ParsedPayment {
    var n := |p.creditTransferIBANs|;
    var card := p.cardAccount != "";
    ParsedPayment(
      Trimmed(Or(p.meansCode, "30")), Trimmed(p.iban), if p.iban != "" then Trimmed(p.bic) else EMPTY, Trimmed(p.note),
      OnlyTruthy(AccountIbans(p, n)), OnlyTruthy(AccountBics(p, n)),
      Trimmed(p.cardAccount),
      if card then Trimmed(p.cardHolderName) else EMPTY,
      if card then Trimmed(p.cardBrand) else EMPTY,
      Trimmed(p.debitedAccountIBAN))
  }

  function NormalVat(v: Vat): ParsedVat {
    ParsedVat(Cent(v.taxableAmount), Cent(v.taxAmount), Trimmed(v.category), Cent(v.rate), EMPTY, EMPTY)
  }

  function NormalVats(vats: seq<Vat>): seq<ParsedVat> {
    seq(|vats|, i requires 0 <= i < |vats| => NormalVat(vats[i]))
  }

  function NormalTaxTotal(vats: seq<Vat>): Option<ParsedTaxTotal> {
    if vats == [] then None else Some(ParsedTaxTotal(Cent(Sum(TaxAmounts(vats))), NormalVats(vats)))
  }

  function NormalTotals(t: Totals): ParsedTotals {
    ParsedTotals(Cent(t.lineExtensionAmount), Cent(t.taxExclusiveAmount), Cent(t.taxInclusiveAmount),
      Cent(t.allowanceTotalAmount), Cent(t.chargeTotalAmount), Cent(t.payableAmount))
  }

  function NormalLine(l: Line): ParsedLine {
    ParsedLine(
      ParseInt(Or(Trim(l.id), "0")), Cent(l.quantity), Str(Or(Trim(Or(l.unitCode, "C62")), "C62")),
      Cent(l.lineExtensionAmount), Trimmed(Or(l.name, l.itemName)), Trimmed(l.description), EMPTY,
      Trimmed(l.vatCategory), Cent(l.vatRate), Cent(l.priceAmount))
  }

  function NormalLines(lines: seq<Line>): seq<ParsedLine> {
    seq(|lines|, i requires 0 <= i < |lines| => NormalLine(lines[i]))
  }

  function NormalForm(data: Invoice, creditNote: bool): Parsed {
    Parsed(
      NormalHeader(data, creditNote),
      match data.seller { case None => None case Some(p) => Some(NormalParty(p, false)) },
      NormalContact(data.seller),
      match data.buyer { case None => None case Some(p) => Some(NormalParty(p, true)) },
      match data.payment { case None => None case Some(p) => Some(NormalPayment(p)) },
      NormalTaxTotal(data.vatBreakdown),
      match data.monetaryTotal { case None => None case Some(t) => Some(NormalTotals(t)) },
      NormalLines(data.lines))
  }

  // ----- reading one leaf

  /** A lookup in the piece that holds a leaf, which may be left out when its text is empty. */
  lemma ReadWhen(e: Xml, pieces: seq<seq<Xml>>, names: seq<Name>, j: nat, name: Name, present: bool, s: string)
    requires e.kids == Flat(pieces) && Labelled(pieces, names) && Holds(pieces, names, j, name, present, Leaf(name, s))
    requires present || s == ""
    ensures Prop(Collapse(e), Child(name)) == if present then Trimmed(s) else Undefined
    ensures Read(Collapse(e), name) == Trimmed(s)
  {
    hide Labelled, Holds, Flat, Collapse, Prop, Leaf, Trim;
    PickWhen(e, pieces, names, j, name, present, Leaf(name, s));
    ReadLeaf(name, s);
    TrimNothing();
  }

  lemma TrimNothing()
    ensures Trim("") == ""
  {
  }

  lemma ReadOne(e: Xml, pieces: seq<seq<Xml>>, names: seq<Name>, j: nat, s: string)
    requires e.kids == Flat(pieces) && Labelled(pieces, names) && j < |names|
    requires pieces[j] == [Leaf(names[j], s)]
    ensures Prop(Collapse(e), Child(names[j])) == Get1(Collapse(e), Child(names[j])) == Trimmed(s)
    ensures Read(Collapse(e), names[j]) == Trimmed(s)
  {
    hide Flat, Collapse, Prop, Leaf, Trim;
    Pick(e, pieces, names, j);
    ReadLeaf(names[j], s);
  }

  lemma Read2Of(v: Js, a: Name, b: Name)
    ensures Read2(v, a, b) == Read(Prop(v, Child(a)), b)
  {
  }

  /** A node with one leaf. */
  lemma ReadSingle(e: Xml, tag: Name, child: Name, s: string)
    requires e == Node(tag, [[Leaf(child, s)]])
    ensures Prop(Collapse(e), Child(child)) == Trimmed(s)
    ensures Read(Collapse(e), child) == Trimmed(s)
  {
    ReadOne(e, [[Leaf(child, s)]], [child], 0, s);
  }

  const ADDRESS := [CbcStreetName, CbcCityName, CbcPostalZone, CacCountry]

  lemma AddressLabelsOnly(p: Party)
    ensures |AddressPieces(p)| == |ADDRESS| && forall i :: 0 <= i < |ADDRESS| ==> Only(AddressPieces(p)[i], ADDRESS[i])
  {
    hide Leaf, Node, Or, Only, When;
    WhenLeafOnly(p.streetName != "", CbcStreetName, p.streetName);
    WhenLeafOnly(p.cityName != "", CbcCityName, p.cityName);
    WhenLeafOnly(p.postalZone != "", CbcPostalZone, p.postalZone);
    OnlyOne(Node(CacCountry, [[Leaf(CbcIdentificationCode, Or(p.countryCode, "SK"))]]));
  }

  lemma AddressLabelsDiffer()
    ensures Different(ADDRESS)
  {
  }

  lemma AddressLabels(p: Party)
    ensures Labelled(AddressPieces(p), ADDRESS)
  {
    hide Different, Only, AddressPieces;
    AddressLabelsOnly(p);
    AddressLabelsDiffer();
    LabelledBy(AddressPieces(p), ADDRESS);
  }

  lemma AddressShape(p: Party)
    ensures |AddressPieces(p)| == 4
    ensures AddressPieces(p)[0] == When(p.streetName != "", Leaf(CbcStreetName, p.streetName))
    ensures AddressPieces(p)[1] == When(p.cityName != "", Leaf(CbcCityName, p.cityName))
    ensures AddressPieces(p)[2] == When(p.postalZone != "", Leaf(CbcPostalZone, p.postalZone))
    ensures AddressPieces(p)[3] == [Node(CacCountry, [[Leaf(CbcIdentificationCode, Or(p.countryCode, "SK"))]])]
  {
    hide When, Leaf, Node, Or;
  }

  lemma AddressNames()
    ensures |ADDRESS| == 4 && ADDRESS[0] == CbcStreetName && ADDRESS[1] == CbcCityName && ADDRESS[2] == CbcPostalZone
    ensures ADDRESS[3] == CacCountry
  {
  }

  lemma AddressParts(p: Party)
    ensures Holds(AddressPieces(p), ADDRESS, 0, CbcStreetName, p.streetName != "", Leaf(CbcStreetName, p.streetName))
    ensures Holds(AddressPieces(p), ADDRESS, 1, CbcCityName, p.cityName != "", Leaf(CbcCityName, p.cityName))
    ensures Holds(AddressPieces(p), ADDRESS, 2, CbcPostalZone, p.postalZone != "", Leaf(CbcPostalZone, p.postalZone))
    ensures var country := Node(CacCountry, [[Leaf(CbcIdentificationCode, Or(p.countryCode, "SK"))]]);
      Holds(AddressPieces(p), ADDRESS, 3, CacCountry, true, country)
  {
    hide Leaf, Node, Or, AddressPieces, ADDRESS;
    AddressShape(p);
    AddressNames();
  }

  lemma ReadStreet(p: Party, e: Xml)
    requires e == Node(CacPostalAddress, AddressPieces(p))
    ensures Read(Collapse(e), CbcStreetName) == Trimmed(p.streetName)
  {
    hide Labelled, Trimmed, Flat, Collapse, Read, Node, Or, Leaf, AddressPieces, Holds, ADDRESS;
    NodeShape(CacPostalAddress, AddressPieces(p));
    AddressLabels(p);
    AddressParts(p);
    ReadWhen(e, AddressPieces(p), ADDRESS, 0, CbcStreetName, p.streetName != "", p.streetName);
  }

  lemma ReadCity(p: Party, e: Xml)
    requires e == Node(CacPostalAddress, AddressPieces(p))
    ensures Read(Collapse(e), CbcCityName) == Trimmed(p.cityName)
  {
    hide Labelled, Trimmed, Flat, Collapse, Read, Node, Or, Leaf, AddressPieces, Holds, ADDRESS;
    NodeShape(CacPostalAddress, AddressPieces(p));
    AddressLabels(p);
    AddressParts(p);
    ReadWhen(e, AddressPieces(p), ADDRESS, 1, CbcCityName, p.cityName != "", p.cityName);
  }

  lemma ReadZone(p: Party, e: Xml)
    requires e == Node(CacPostalAddress, AddressPieces(p))
    ensures Read(Collapse(e), CbcPostalZone) == Trimmed(p.postalZone)
  {
    hide Labelled, Trimmed, Flat, Collapse, Read, Node, Or, Leaf, AddressPieces, Holds, ADDRESS;
    NodeShape(CacPostalAddress, AddressPieces(p));
    AddressLabels(p);
    AddressParts(p);
    ReadWhen(e, AddressPieces(p), ADDRESS, 2, CbcPostalZone, p.postalZone != "", p.postalZone);
  }

  lemma ReadCountry(p: Party, e: Xml)
    requires e == Node(CacPostalAddress, AddressPieces(p))
    ensures Prop(Prop(Collapse(e), Child(CacCountry)), Child(CbcIdentificationCode)) == Trimmed(Or(p.countryCode, "SK"))
  {
    hide Labelled, Trimmed, Flat, Collapse, Prop, Read, Node, Or, Leaf, AddressPieces, Holds, ADDRESS;
    NodeShape(CacPostalAddress, AddressPieces(p));
    AddressLabels(p);
    AddressParts(p);
    var country := Node(CacCountry, [[Leaf(CbcIdentificationCode, Or(p.countryCode, "SK"))]]);
    PickWhen(e, AddressPieces(p), ADDRESS, 3, CacCountry, true, country);
    ReadSingle(country, CacCountry, CbcIdentificationCode, Or(p.countryCode, "SK"));
  }

  lemma ReadAddress(p: Party, e: Xml)
    requires e == Node(CacPostalAddress, AddressPieces(p))
    ensures Read(Collapse(e), CbcStreetName) == Trimmed(p.streetName)
    ensures Read(Collapse(e), CbcCityName) == Trimmed(p.cityName)
    ensures Read(Collapse(e), CbcPostalZone) == Trimmed(p.postalZone)
    ensures Prop(Prop(Collapse(e), Child(CacCountry)), Child(CbcIdentificationCode)) == Trimmed(Or(p.countryCode, "SK"))
  {
    hide Collapse, Prop, Read, Node, Or, AddressPieces, Trimmed;
    ReadStreet(p, e);
    ReadCity(p, e);
    ReadZone(p, e);
    ReadCountry(p, e);
  }

  /** The tax scheme's company id is the company id or, failing that, the VAT id; it carries no scheme. */
  lemma ReadTaxScheme(p: Party, e: Xml)
    requires e == Node(CacPartyTaxScheme, TaxSchemePieces(p))
    ensures Prop(Collapse(e), Child(CbcCompanyID)) == var id := Or(p.companyID, p.vatID); if id != "" then Trimmed(id) else Undefined
  {
    hide Esc, Trim, Flat, Collapse, Prop, Read, CollapseNamed, Node, Leaf;
    NodeShape(CacPartyTaxScheme, TaxSchemePieces(p));
    ReadWhen(e, TaxSchemePieces(p), [CbcCompanyID, CacTaxScheme], 0, CbcCompanyID, Or(p.companyID, p.vatID) != "", Or(p.companyID, p.vatID));
  }

  lemma ReadLegal(p: Party, scheme: string, e: Xml)
    requires e == Node(CacPartyLegalEntity, LegalPieces(p, scheme))
    ensures Read(Collapse(e), CbcRegistrationName) == Trimmed(Or(p.legalRegistrationName, p.name))
    ensures var id := Prop(Collapse(e), Child(CbcCompanyID));
      if p.companyID != "" && p.vatID == "" then
        (Trim(p.companyID) == "" ==> !Truthy(Prop(id, Text)) && !Truthy(Bare(id)))
        && Prop(id, Attribute(SchemeID)) == (if scheme != "" then Trimmed(scheme) else Undefined)
      else id == Undefined
  {
    hide Esc, Trim, Flat, Prop, Read, CollapseNamed, Node, Leaf, Decode;
    var pieces := LegalPieces(p, scheme);
    NodeShape(CacPartyLegalEntity, pieces);
    ReadOne(e, pieces, [CbcRegistrationName, CbcCompanyID], 0, Or(p.legalRegistrationName, p.name));
    Pick(e, pieces, [CbcRegistrationName, CbcCompanyID], 1);
    if p.companyID != "" && p.vatID == "" {
      ReadLegalID(p, scheme);
    }
  }

  lemma ReadLegalID(p: Party, scheme: string)
    ensures var id := Collapse(LegalCompanyID(p, scheme));
      && (Trim(p.companyID) == "" ==> !Truthy(Prop(id, Text)) && !Truthy(Bare(id)))
      && Prop(id, Attribute(SchemeID)) == (if scheme != "" then Trimmed(scheme) else Undefined)
  {
    ReadEscaped(p.companyID);
    ReadEscaped(scheme);
    if scheme == "" {
      ReadLeaf(CbcCompanyID, p.companyID);
    } else {
      ReadLeafAttr(LegalCompanyID(p, scheme), SchemeID);
    }
  }

  /** Text and attribute of an element with one attribute. */
  lemma ReadAttrLeaf(tag: Name, attr: AttrName, value: string, s: string)
    ensures var v := Collapse(AttrLeaf(tag, attr, value, s));
      && OrElse(Prop(v, Text), OrElse(Bare(v), EMPTY)) == Trimmed(s)
      && Prop(v, Attribute(attr)) == Trimmed(value)
  {
    ReadEscaped(s);
    ReadEscaped(value);
    ReadLeafAttr(AttrLeaf(tag, attr, value, s), attr);
  }

  const PARTY := [CbcEndpointID, CacPartyName, CacPostalAddress, CacPartyTaxScheme, CacPartyLegalEntity, CacContact]

  lemma PartyLabelsOnly(p: Party, scheme: string)
    ensures |PartyPieces(p, scheme)| == |PARTY| && forall i :: 0 <= i < |PARTY| ==> Only(PartyPieces(p, scheme)[i], PARTY[i])
  {
    hide Leaf, AttrLeaf, Node, Or, AddressPieces, TaxSchemePieces, LegalPieces, ContactPiece, PartyPieces, Only;
    PartyShape(p, scheme);
    OnlyOne(AttrLeaf(CbcEndpointID, SchemeID, Or(p.endpointSchemeID, "9914"), p.endpointID));
    OnlyOne(Node(CacPartyName, [[Leaf(CbcName, p.name)]]));
    OnlyOne(Node(CacPostalAddress, AddressPieces(p)));
    OnlyOne(Node(CacPartyTaxScheme, TaxSchemePieces(p)));
    OnlyOne(Node(CacPartyLegalEntity, LegalPieces(p, scheme)));
    ContactOnly(p);
  }

  lemma ContactOnly(p: Party)
    ensures Only(ContactPiece(p), CacContact)
  {
    hide Node, ContactPieces;
  }

  lemma PartyLabelsDiffer()
    ensures Different(PARTY)
  {
  }

  lemma PartyLabels(p: Party, scheme: string)
    ensures Labelled(PartyPieces(p, scheme), PARTY)
  {
    hide Different, Only, PartyPieces;
    PartyLabelsOnly(p, scheme);
    PartyLabelsDiffer();
    LabelledBy(PartyPieces(p, scheme), PARTY);
  }

  /** The sections a party lookup passes through. */
  lemma PartySections(p: Party, scheme: string, e: Xml)
    requires e == Node(CacParty, PartyPieces(p, scheme))
    ensures var v := Collapse(e);
      && Prop(v, Child(CbcEndpointID)) == Collapse(AttrLeaf(CbcEndpointID, SchemeID, Or(p.endpointSchemeID, "9914"), p.endpointID))
      && Prop(v, Child(CacPartyName)) == Collapse(Node(CacPartyName, [[Leaf(CbcName, p.name)]]))
      && Prop(v, Child(CacPostalAddress)) == Collapse(Node(CacPostalAddress, AddressPieces(p)))
      && Prop(v, Child(CacPartyTaxScheme)) == Collapse(Node(CacPartyTaxScheme, TaxSchemePieces(p)))
      && Prop(v, Child(CacPartyLegalEntity)) == Collapse(Node(CacPartyLegalEntity, LegalPieces(p, scheme)))
      && Prop(v, Child(CacContact)) == (match p.contact case None => Undefined case Some(c) => Collapse(Node(CacContact, ContactPieces(c))))
  {
    hide Esc, Labelled, Trim, Flat, Collapse, Prop, CollapseNamed, Node, Or, Leaf, AttrLeaf, AddressPieces, TaxSchemePieces, LegalPieces, ContactPieces;
    var pieces := PartyPieces(p, scheme);
    NodeShape(CacParty, pieces);
    PartyLabels(p, scheme);
    Pick(e, pieces, PARTY, 0);
    Pick(e, pieces, PARTY, 1);
    Pick(e, pieces, PARTY, 2);
    Pick(e, pieces, PARTY, 3);
    Pick(e, pieces, PARTY, 4);
    Pick(e, pieces, PARTY, 5);
  }

  lemma ReadEndpoint(v: Js, tag: Name, value: string, s: string)
    requires Prop(v, Child(tag)) == Collapse(AttrLeaf(tag, SchemeID, value, s))
    ensures OrElse(Get2(v, Child(tag), Text), OrElse(Get1(v, Child(tag)), EMPTY)) == Trimmed(s)
    ensures OrElse(Get2(v, Child(tag), Attribute(SchemeID)), EMPTY) == Trimmed(value)
  {
    hide Esc, Trim, Collapse, Prop, AttrLeaf;
    ReadAttrLeaf(tag, SchemeID, value, s);
  }

  lemma ReadPartyNames(p: Party, scheme: string, e: Xml)
    requires e == Node(CacParty, PartyPieces(p, scheme))
    ensures var v := Collapse(e);
      && OrElse(Get2(v, Child(CbcEndpointID), Text), OrElse(Get1(v, Child(CbcEndpointID)), EMPTY)) == Trimmed(p.endpointID)
      && OrElse(Get2(v, Child(CbcEndpointID), Attribute(SchemeID)), EMPTY) == Trimmed(Or(p.endpointSchemeID, "9914"))
      && Read2(v, CacPartyName, CbcName) == Trimmed(p.name)
  {
    hide Esc, Trim, Flat, Collapse, Prop, CollapseNamed, Node, Leaf, AttrLeaf, PartyPieces, AddressPieces, TaxSchemePieces, LegalPieces, ContactPieces, Read, Read2, Or, OrElse, Bare;
    PartySections(p, scheme, e);
    ReadEndpoint(Collapse(e), CbcEndpointID, Or(p.endpointSchemeID, "9914"), p.endpointID);
    Read2Of(Collapse(e), CacPartyName, CbcName);
    ReadSingle(Node(CacPartyName, [[Leaf(CbcName, p.name)]]), CacPartyName, CbcName, p.name);
  }

  lemma CountryText(v: Js, s: string)
    requires Prop(Prop(Prop(v, Child(CacPostalAddress)), Child(CacCountry)), Child(CbcIdentificationCode)) == Trimmed(s)
    ensures OrElse(Get3(v, Child(CacPostalAddress), Child(CacCountry), Child(CbcIdentificationCode)), EMPTY) == Trimmed(s)
  {
    hide Prop, Trim;
  }

  lemma ReadPartyAddress(p: Party, scheme: string, e: Xml)
    requires e == Node(CacParty, PartyPieces(p, scheme))
    ensures var v := Collapse(e);
      && Read2(v, CacPostalAddress, CbcStreetName) == Trimmed(p.streetName)
      && Read2(v, CacPostalAddress, CbcCityName) == Trimmed(p.cityName)
      && Read2(v, CacPostalAddress, CbcPostalZone) == Trimmed(p.postalZone)
      && OrElse(Get3(v, Child(CacPostalAddress), Child(CacCountry), Child(CbcIdentificationCode)), EMPTY) == Trimmed(Or(p.countryCode, "SK"))
  {
    hide Esc, Trim, Flat, Collapse, Prop, CollapseNamed, Node, Leaf, AttrLeaf, PartyPieces, AddressPieces, TaxSchemePieces, LegalPieces, ContactPieces, Read, Read2, Or;
    hide Bare, Truthy, ADDRESS, PARTY;
    var v := Collapse(e);
    PartySections(p, scheme, e);
    Read2Of(v, CacPostalAddress, CbcStreetName);
    Read2Of(v, CacPostalAddress, CbcCityName);
    Read2Of(v, CacPostalAddress, CbcPostalZone);
    ReadAddress(p, Node(CacPostalAddress, AddressPieces(p)));
    CountryText(v, Or(p.countryCode, "SK"));
  }

  lemma ReadParty(p: Party, isBuyer: bool, e: Xml)
    requires e == Node(CacParty, PartyPieces(p, if isBuyer then p.companyIDSchemeID else ""))
    ensures ParseParty(Collapse(e), isBuyer) == NormalParty(p, isBuyer)
  {
    hide Esc, Trim, Flat, Collapse, Prop, CollapseNamed, Node, Leaf, AttrLeaf, TaxSchemePieces, LegalPieces, PartyPieces, Read, Read2, CompanyID, CompanyIDScheme;
    var scheme := if isBuyer then p.companyIDSchemeID else "";
    ReadPartyNames(p, scheme, e);
    ReadPartyAddress(p, scheme, e);
    PartySections(p, scheme, e);
    Read2Of(Collapse(e), CacPartyLegalEntity, CbcRegistrationName);
    ReadTaxScheme(p, Node(CacPartyTaxScheme, TaxSchemePieces(p)));
    ReadLegal(p, scheme, Node(CacPartyLegalEntity, LegalPieces(p, scheme)));
    ReadCompany(p, isBuyer, Collapse(e));
  }

  /** The chain of alternatives for the company id and its scheme. */
  lemma ReadCompany(p: Party, isBuyer: bool, v: Js)
    requires var id := Or(p.companyID, p.vatID);
      Prop(Prop(v, Child(CacPartyTaxScheme)), Child(CbcCompanyID)) == if id != "" then Trimmed(id) else Undefined
    requires var id := Prop(Prop(v, Child(CacPartyLegalEntity)), Child(CbcCompanyID));
      var scheme := if isBuyer then p.companyIDSchemeID else "";
      if p.companyID != "" && p.vatID == "" then
        (Trim(p.companyID) == "" ==> !Truthy(Prop(id, Text)) && !Truthy(Bare(id)))
        && Prop(id, Attribute(SchemeID)) == (if scheme != "" then Trimmed(scheme) else Undefined)
      else id == Undefined
    ensures CompanyID(v) == NormalParty(p, isBuyer).companyID
    ensures isBuyer ==> CompanyIDScheme(v) == NormalParty(p, isBuyer).companyIDSchemeID
    ensures Read2(v, CacPartyTaxScheme, CbcCompanyID) == NormalParty(p, isBuyer).vatID
  {
    assert Trim("") == "";
  }

  // ----- the other sections

  lemma ReadContact(c: Contact)
    ensures var v := Bare(Collapse(Node(CacContact, ContactPieces(c))));
      && (Truthy(v) <==> c.name != "" || c.telephone != "" || c.email != "")
      && (Truthy(v) ==> ParseContact(v) == ParsedContact(Trimmed(c.name), Trimmed(c.telephone), Trimmed(c.email)))
  {
    hide Collapse, CollapseNamed, Prop, Read, Bare, ParseContact, Truthy, ContactPieces, Node;
    var e := Node(CacContact, ContactPieces(c));
    ContactKids(c);
    if e.kids == [] {
      BlankLeaf(e);
    } else {
      CollapseNode(e);
      ContactReads(c, e);
    }
  }

  lemma ContactKids(c: Contact)
    ensures var e := Node(CacContact, ContactPieces(c));
      && e.attrs == [] && e.raw == "" && (e.kids != [] <==> c.name != "" || c.telephone != "" || c.email != "")
  {
    hide Leaf;
    var pieces := ContactPieces(c);
    FlatThree(pieces[0], pieces[1], pieces[2]);
  }

  const CONTACT := [CbcName, CbcTelephone, CbcElectronicMail]

  lemma ContactReads(c: Contact, e: Xml)
    requires e == Node(CacContact, ContactPieces(c)) && Bare(Collapse(e)) == Collapse(e)
    ensures ParseContact(Collapse(e)) == ParsedContact(Trimmed(c.name), Trimmed(c.telephone), Trimmed(c.email))
  {
    hide Leaf, Collapse, Read, Trimmed, Flat, Labelled, Node, Holds, ContactPieces, CONTACT;
    var pieces := ContactPieces(c);
    NodeShape(CacContact, pieces);
    ContactShape(c);
    ReadWhen(e, pieces, CONTACT, 0, CbcName, c.name != "", c.name);
    ReadWhen(e, pieces, CONTACT, 1, CbcTelephone, c.telephone != "", c.telephone);
    ReadWhen(e, pieces, CONTACT, 2, CbcElectronicMail, c.email != "", c.email);
  }

  lemma ContactShape(c: Contact)
    ensures Labelled(ContactPieces(c), CONTACT)
    ensures Holds(ContactPieces(c), CONTACT, 0, CbcName, c.name != "", Leaf(CbcName, c.name))
    ensures Holds(ContactPieces(c), CONTACT, 1, CbcTelephone, c.telephone != "", Leaf(CbcTelephone, c.telephone))
    ensures Holds(ContactPieces(c), CONTACT, 2, CbcElectronicMail, c.email != "", Leaf(CbcElectronicMail, c.email))
  {
    hide Leaf, When, Only;
    WhenLeafOnly(c.name != "", CbcName, c.name);
    WhenLeafOnly(c.telephone != "", CbcTelephone, c.telephone);
    WhenLeafOnly(c.email != "", CbcElectronicMail, c.email);
  }

  lemma FlatThree(a: seq<Xml>, b: seq<Xml>, c: seq<Xml>)
    ensures Flat([a, b, c]) == a + b + c
  {
    FlatTwo(a, b);
    FlatSnoc([a, b], c);
    assert [a, b] + [c] == [a, b, c];
  }

  lemma BlankLeaf(e: Xml)
    requires e.attrs == [] && e.kids == [] && e.raw == ""
    ensures !Truthy(Bare(Collapse(e)))
  {
    assert Decode("") == "";
  }

  /** An amount as written with a currency reads back rounded to cents. */
  lemma ReadMoney(v: Js, tag: Name, currency: string, x: real)
    requires Prop(v, Child(tag)) == Collapse(Money(tag, currency, x))
    ensures Amount(v, tag) == Cent(x)
  {
    ReadQuantity(v, tag, CurrencyID, currency, x);
  }

  lemma ReadQuantity(v: Js, tag: Name, attr: AttrName, raw: string, x: real)
    requires Prop(v, Child(tag)) == Collapse(Elem(tag, [Attr(attr, raw)], [], Fixed2(x)))
    ensures Amount(v, tag) == Cent(x)
    ensures Prop(Prop(v, Child(tag)), Attribute(attr)) == Str(Content(raw))
  {
    hide Collapse, Fixed2, ParseFloat, Decode, Trim;
    ReadLeafAttr(Elem(tag, [Attr(attr, raw)], [], Fixed2(x)), attr);
    NumberContent(x);
    ParseFixed2(x);
  }

  /** A printed number contains nothing to trim or decode. */
  lemma NumberContent(x: real)
    ensures Content(Fixed2(x)) == Fixed2(x) != ""
  {
    hide Esc, Fixed2;
    Fixed2Clean(x);
    EscIdentity(Fixed2(x));
    DecodeRestores(Fixed2(x));
  }

  lemma ReadNumber(v: Js, tag: Name, x: real)
    requires Prop(v, Child(tag)) == Collapse(Number(tag, x))
    ensures PlainAmount(v, tag) == Cent(x)
  {
    hide Fixed2, ParseFloat, Decode, Trim;
    NumberContent(x);
    ParseFixed2(x);
  }

  const TOTALS := [CbcLineExtensionAmount, CbcTaxExclusiveAmount, CbcTaxInclusiveAmount,
    CbcAllowanceTotalAmount, CbcChargeTotalAmount, CbcPayableAmount]

  lemma TotalLabelsOnly(t: Totals)
    ensures |TotalPieces(t)| == |TOTALS| && forall i :: 0 <= i < |TOTALS| ==> Only(TotalPieces(t)[i], TOTALS[i])
  {
    hide Money, Only, When;
    OnlyOne(Money(CbcLineExtensionAmount, "EUR", t.lineExtensionAmount));
    OnlyOne(Money(CbcTaxExclusiveAmount, "EUR", t.taxExclusiveAmount));
    OnlyOne(Money(CbcTaxInclusiveAmount, "EUR", t.taxInclusiveAmount));
    WhenOnly(t.allowanceTotalAmount != 0.0, Money(CbcAllowanceTotalAmount, "EUR", t.allowanceTotalAmount));
    WhenOnly(t.chargeTotalAmount != 0.0, Money(CbcChargeTotalAmount, "EUR", t.chargeTotalAmount));
    OnlyOne(Money(CbcPayableAmount, "EUR", t.payableAmount));
  }

  lemma TotalLabelsDiffer()
    ensures Different(TOTALS)
  {
  }

  lemma TotalLabels(t: Totals)
    ensures Labelled(TotalPieces(t), TOTALS)
  {
    hide Different, Only, TotalPieces;
    TotalLabelsOnly(t);
    TotalLabelsDiffer();
    LabelledBy(TotalPieces(t), TOTALS);
  }

  /** An amount left out because it is zero reads as zero. */
  lemma ReadWhenMoney(e: Xml, pieces: seq<seq<Xml>>, names: seq<Name>, j: nat, currency: string, x: real)
    requires e.kids == Flat(pieces) && Labelled(pieces, names) && j < |names|
    requires pieces[j] == [Money(names[j], currency, x)] || (x == 0.0 && pieces[j] == [])
    ensures Amount(Collapse(e), names[j]) == Cent(x)
  {
    hide Fixed2, Collapse, Money, ParseFloat;
    Pick(e, pieces, names, j);
    if pieces[j] != [] {
      ReadMoney(Collapse(e), names[j], currency, x);
    } else {
      ParseZero();
    }
  }

  lemma ParseZero()
    ensures ParseFloat("0") == Fin(0.0) == Fin(Round2(0.0))
  {
    SignedStart("0", false, "0");
    assert DigitRun("0") == 1 by {
      assert "0"[1..] == "";
    }
    assert "0"[..1] == "0" && "0"[..0] == "" && DigitValue("0") == 0;
  }

  /** The amounts in the order of their elements. */
  function TotalAmounts(t: Totals): seq<real> {
    [t.lineExtensionAmount, t.taxExclusiveAmount, t.taxInclusiveAmount,
     t.allowanceTotalAmount, t.chargeTotalAmount, t.payableAmount]
  }

  lemma ReadTotal(t: Totals, e: Xml, j: nat)
    requires e == Node(CacLegalMonetaryTotal, TotalPieces(t)) && j < 6
    ensures Amount(Collapse(e), TOTALS[j]) == Cent(TotalAmounts(t)[j])
  {
    hide Flat, Labelled, Collapse, Money, Amount, Cent, Node;
    TotalLabels(t);
    NodeShape(CacLegalMonetaryTotal, TotalPieces(t));
    ReadWhenMoney(e, TotalPieces(t), TOTALS, j, "EUR", TotalAmounts(t)[j]);
  }

  lemma ReadTotals(t: Totals, e: Xml)
    requires e == Node(CacLegalMonetaryTotal, TotalPieces(t))
    ensures ParseTotals(Collapse(e)) == NormalTotals(t)
  {
    hide Collapse, Amount, Cent, Node, TotalPieces;
    ReadTotal(t, e, 0);
    ReadTotal(t, e, 1);
    ReadTotal(t, e, 2);
    ReadTotal(t, e, 3);
    ReadTotal(t, e, 4);
    ReadTotal(t, e, 5);
  }

  lemma ReadCategory(e: Xml, category: string, rate: real)
    requires e.kids == Flat(CategoryPieces(category, rate))
    ensures var v := Collapse(e);
      && OrElse(Bare(v), NOTHING) == v
      && Read(v, CbcID) == Trimmed(category) && PlainAmount(v, CbcPercent) == Cent(rate)
      && Read(v, CbcTaxExemptionReason) == Read(v, CbcTaxExemptionReasonCode) == EMPTY
  {
    hide Fixed2, Collapse, Flat, Leaf, Number, VatScheme, PlainAmount, Cent, Prop;
    var pieces, names := CategoryPieces(category, rate), [CbcID, CbcPercent, CacTaxScheme];
    FlatThree(pieces[0], pieces[1], pieces[2]);
    CollapseNode(e);
    ReadOne(e, pieces, names, 0, category);
    Pick(e, pieces, names, 1);
    ReadNumber(Collapse(e), CbcPercent, rate);
    PickNone(e, pieces, names, CbcTaxExemptionReason);
    PickNone(e, pieces, names, CbcTaxExemptionReasonCode);
  }

  lemma ReadSubtotal(v: Vat)
    ensures ParseSubtotal(Collapse(Subtotal(v))) == NormalVat(v)
    ensures Subtotal(v).kids != []
  {
    hide Fixed2, Collapse, Flat, Leaf, Money, Amount, Cent, Prop, Read, PlainAmount, CategoryPieces;
    var e, pieces, names := Subtotal(v), SubtotalPieces(v), [CbcTaxableAmount, CbcTaxAmount, CacTaxCategory];
    FlatThree(pieces[0], pieces[1], pieces[2]);
    Pick(e, pieces, names, 0);
    ReadMoney(Collapse(e), CbcTaxableAmount, "EUR", v.taxableAmount);
    Pick(e, pieces, names, 1);
    ReadMoney(Collapse(e), CbcTaxAmount, "EUR", v.taxAmount);
    Pick(e, pieces, names, 2);
    ReadCategory(pieces[2][0], v.category, v.rate);
  }

  lemma {:induction false} SubtotalAt(vats: seq<Vat>)
    ensures |Subtotals(vats)| == |vats|
    ensures forall i :: 0 <= i < |vats| ==> Subtotals(vats)[i] == Subtotal(vats[i])
  {
    hide Subtotal;
    if vats != [] {
      SubtotalAt(vats[..|vats| - 1]);
    }
  }

  lemma TaxPieces(vats: seq<Vat>, e: Xml)
    requires vats != [] && VatSection(vats) == [e]
    ensures e.kids == Flat([[VatHead(vats)], Subtotals(vats)])
    ensures Labelled([[VatHead(vats)], Subtotals(vats)], [CbcTaxAmount, CacTaxSubtotal])
  {
    hide Subtotal, Flat;
    FlatTwo([VatHead(vats)], Subtotals(vats));
    SubtotalAt(vats);
  }

  lemma ReadTaxHead(vats: seq<Vat>, e: Xml)
    requires vats != [] && VatSection(vats) == [e]
    ensures Amount(Collapse(e), CbcTaxAmount) == Cent(Sum(TaxAmounts(vats)))
  {
    hide Collapse, Flat, Subtotals, Labelled, Money, Amount, Cent, Prop, Sum, VatSection, CollapseNamed;
    TaxPieces(vats, e);
    Pick(e, [[VatHead(vats)], Subtotals(vats)], [CbcTaxAmount, CacTaxSubtotal], 0);
    ReadMoney(Collapse(e), CbcTaxAmount, "EUR", Sum(TaxAmounts(vats)));
  }

  lemma ReadTaxList(vats: seq<Vat>, e: Xml)
    requires vats != [] && VatSection(vats) == [e]
    ensures var list := EnsureArray(Get1(Collapse(e), Child(CacTaxSubtotal)));
      |list| == |vats| && forall i :: 0 <= i < |vats| ==> ParseSubtotal(list[i]) == NormalVat(vats[i])
  {
    hide Collapse, Flat, Subtotal, Subtotals, Labelled, VatHead, Prop, ParseSubtotal, NormalVat, EnsureArray, Group, Bare, VatSection, CollapseNamed;
    var kids := Subtotals(vats);
    TaxPieces(vats, e);
    Pick(e, [[VatHead(vats)], kids], [CbcTaxAmount, CacTaxSubtotal], 1);
    SubtotalAt(vats);
    forall i | 0 <= i < |vats| ensures kids[i].kids != [] && kids[i].tag == CacTaxSubtotal && ParseSubtotal(Collapse(kids[i])) == NormalVat(vats[i]) {
      ReadSubtotal(vats[i]);
    }
    ArrayOf(kids, CacTaxSubtotal);
  }

  /** Any number of subtotals, down to none, is read back one for one and in order. */
  lemma ReadTaxTotal(vats: seq<Vat>, e: Xml)
    requires vats != [] && VatSection(vats) == [e]
    ensures ParseTaxTotal(Collapse(e)) == NormalTaxTotal(vats).value
  {
    hide Collapse, Amount, Cent, Prop, ParseSubtotal, NormalVat, EnsureArray, VatSection, Get1, Sum;
    ReadTaxHead(vats, e);
    ReadTaxList(vats, e);
    assert ParseTaxTotal(Collapse(e)).vatBreakdown == NormalVats(vats);
  }

  // ----- lines

  const ITEM := [CbcName, CbcDescription, CacOriginCountry, CacClassifiedTaxCategory]

  lemma ItemLabelsOnly(l: Line)
    ensures |ItemPieces(l)| == |ITEM| && forall i :: 0 <= i < |ITEM| ==> Only(ItemPieces(l)[i], ITEM[i])
  {
    hide Leaf, Node, Or, CategoryPieces, Only, When;
    WhenLeafOnly(true, CbcName, Or(l.name, l.itemName));
    WhenLeafOnly(l.description != "", CbcDescription, l.description);
    WhenOnly(l.countryOfOrigin != "", Node(CacOriginCountry, [[Leaf(CbcIdentificationCode, l.countryOfOrigin)]]));
    OnlyOne(Node(CacClassifiedTaxCategory, CategoryPieces(l.vatCategory, l.vatRate)));
  }

  lemma ItemLabelsDiffer()
    ensures Different(ITEM)
  {
  }

  lemma ItemLabels(l: Line)
    ensures Labelled(ItemPieces(l), ITEM)
  {
    hide Different, Only, ItemPieces;
    ItemLabelsOnly(l);
    ItemLabelsDiffer();
    LabelledBy(ItemPieces(l), ITEM);
  }

  /** The shape lookups in an item rely on. */
  lemma ItemShape(l: Line)
    ensures Item(l).kids == Flat(ItemPieces(l))
  {
    hide ItemPieces, Flat;
    NodeShape(CacItem, ItemPieces(l));
  }

  lemma ItemOrigin(l: Line)
    ensures Section(Collapse(Item(l)), CacCountry) == NOTHING
  {
    hide Collapse, Leaf, Labelled, Prop, CategoryPieces, Or, Item, ItemPieces, Flat, CollapseNamed;
    ItemShape(l);
    ItemLabels(l);
    PickNone(Item(l), ItemPieces(l), ITEM, CacCountry);
  }

  lemma ItemSections(l: Line)
    ensures Section(Collapse(Item(l)), CacCountry) == NOTHING
    ensures Prop(Collapse(Item(l)), Child(CacClassifiedTaxCategory)) == Collapse(Node(CacClassifiedTaxCategory, CategoryPieces(l.vatCategory, l.vatRate)))
  {
    hide Collapse, Leaf, Node, Labelled, Prop, CategoryPieces, Or, Item, Flat, CollapseNamed, Section, When;
    ItemOrigin(l);
    ItemShape(l);
    ItemLabels(l);
    Pick(Item(l), ItemPieces(l), ITEM, 3);
  }

  lemma ItemIsNode(l: Line)
    ensures OrElse(Bare(Collapse(Item(l))), NOTHING) == Collapse(Item(l))
  {
    hide Collapse, Leaf;
    CollapseNode(Item(l));
  }

  lemma ItemLeaves(l: Line)
    ensures Holds(ItemPieces(l), ITEM, 0, CbcName, true, Leaf(CbcName, Or(l.name, l.itemName)))
    ensures Holds(ItemPieces(l), ITEM, 1, CbcDescription, l.description != "", Leaf(CbcDescription, l.description))
  {
    hide Leaf, ItemPieces, ITEM, Or;
    ItemNames();
    ItemParts(l);
  }

  lemma ItemNames()
    ensures |ITEM| == 4 && ITEM[0] == CbcName && ITEM[1] == CbcDescription
  {
  }

  lemma ItemParts(l: Line)
    ensures |ItemPieces(l)| == 4 && ItemPieces(l)[0] == [Leaf(CbcName, Or(l.name, l.itemName))]
    ensures ItemPieces(l)[1] == When(l.description != "", Leaf(CbcDescription, l.description))
  {
    hide Leaf, Node, Or, CategoryPieces, When;
  }

  lemma ItemTexts(l: Line)
    ensures Read(Collapse(Item(l)), CbcName) == Trimmed(Or(l.name, l.itemName))
    ensures Read(Collapse(Item(l)), CbcDescription) == Trimmed(l.description)
  {
    hide Collapse, Flat, Leaf, Item, ItemPieces, ITEM, Labelled, Read, Or, Trimmed, Holds;
    ItemShape(l);
    ItemLabels(l);
    ItemLeaves(l);
    ReadWhen(Item(l), ItemPieces(l), ITEM, 0, CbcName, true, Or(l.name, l.itemName));
    ReadWhen(Item(l), ItemPieces(l), ITEM, 1, CbcDescription, l.description != "", l.description);
  }

  lemma ItemCategory(l: Line)
    ensures var c := Section(Collapse(Item(l)), CacClassifiedTaxCategory);
      Read(c, CbcID) == Trimmed(l.vatCategory) && PlainAmount(c, CbcPercent) == Cent(l.vatRate)
  {
    hide Collapse, Item, Prop, Read, PlainAmount, CategoryPieces, Cent, OrElse, Bare, Trim;
    ItemSections(l);
    ReadCategory(Node(CacClassifiedTaxCategory, CategoryPieces(l.vatCategory, l.vatRate)), l.vatCategory, l.vatRate);
  }

  const LINE := [CbcID, CbcInvoicedQuantity, CbcLineExtensionAmount, CacItem, CacPrice]

  lemma LineTags(l: Line, currencyCode: string)
    ensures |LineElement(l, currencyCode).kids| == 5
    ensures forall j :: 0 <= j < 5 ==> LineElement(l, currencyCode).kids[j].tag == LINE[j]
  {
    hide Leaf, Money, Item, Price, Quantity, Or;
  }

  lemma LineTagsDiffer()
    ensures Different(LINE)
  {
  }

  lemma LineProp(l: Line, currencyCode: string, j: nat)
    requires j < 5
    ensures |LineElement(l, currencyCode).kids| == 5
    ensures var e := LineElement(l, currencyCode); Prop(Collapse(e), Child(e.kids[j].tag)) == Collapse(e.kids[j])
  {
    hide Collapse, Prop, LineElement;
    LineTags(l, currencyCode);
    LineTagsDiffer();
    PickKid(LineElement(l, currencyCode), j);
  }

  lemma ReadLineParts(l: Line, currencyCode: string)
    ensures var v, cc := Collapse(LineElement(l, currencyCode)), Or(currencyCode, "EUR");
      && Prop(v, Child(CbcID)) == Collapse(Leaf(CbcID, l.id))
      && Prop(v, Child(CbcInvoicedQuantity)) == Collapse(Quantity(l))
      && Prop(v, Child(CbcLineExtensionAmount)) == Collapse(Money(CbcLineExtensionAmount, cc, l.lineExtensionAmount))
      && Prop(v, Child(CacItem)) == Collapse(Item(l))
      && Prop(v, Child(CacPrice)) == Collapse(Price(l, cc))
  {
    hide Collapse, Prop, Money, Item, Price, Leaf, Quantity, Or;
    LineProp(l, currencyCode, 0);
    LineProp(l, currencyCode, 1);
    LineProp(l, currencyCode, 2);
    LineProp(l, currencyCode, 3);
    LineProp(l, currencyCode, 4);
  }

  lemma ReadLineId(l: Line, currencyCode: string)
    ensures LineId(Collapse(LineElement(l, currencyCode))) == ParseInt(Or(Trim(l.id), "0"))
  {
    hide Collapse, LineElement, Leaf, Trim, ParseInt, LineId, Or;
    ReadLineParts(l, currencyCode);
    ReadLeaf(CbcID, l.id);
    IdOf(Collapse(LineElement(l, currencyCode)), Trim(l.id));
  }

  lemma IdOf(v: Js, s: string)
    requires Prop(v, Child(CbcID)) == Str(s)
    ensures LineId(v) == ParseInt(Or(s, "0"))
  {
    hide ParseInt, Prop;
  }

  lemma UnitOfText(v: Js, s: string)
    requires Prop(Prop(v, Child(CbcInvoicedQuantity)), Attribute(UnitCode)) == Str(s)
    ensures UnitOf(v) == Str(Or(s, "C62"))
  {
    hide Prop;
  }

  lemma ReadLineQuantity(l: Line, currencyCode: string)
    ensures var v := Collapse(LineElement(l, currencyCode));
      && Amount(v, CbcInvoicedQuantity) == Cent(l.quantity)
      && UnitOf(v) == Str(Or(Trim(Or(l.unitCode, "C62")), "C62"))
  {
    hide Collapse, LineElement, Prop, Amount, Cent, Trim, Esc, Decode, Fixed2, Or, UnitOf;
    var v, unit := Collapse(LineElement(l, currencyCode)), Or(l.unitCode, "C62");
    ReadLineParts(l, currencyCode);
    ReadQuantity(v, CbcInvoicedQuantity, UnitCode, Esc(unit), l.quantity);
    ReadEscaped(unit);
    UnitOfText(v, Trim(unit));
  }

  lemma ReadLineAmounts(l: Line, currencyCode: string)
    ensures var v := Collapse(LineElement(l, currencyCode));
      && Amount(v, CbcLineExtensionAmount) == Cent(l.lineExtensionAmount)
      && Amount(Section(v, CacPrice), CbcPriceAmount) == Cent(l.priceAmount)
      && Section(v, CacItem) == Collapse(Item(l))
  {
    hide Collapse, LineElement, Prop, Amount, Cent, Money, Item, Price, Bare;
    ReadLineParts(l, currencyCode);
    ReadMoney(Collapse(LineElement(l, currencyCode)), CbcLineExtensionAmount, Or(currencyCode, "EUR"), l.lineExtensionAmount);
    ReadPrice(l, Or(currencyCode, "EUR"));
    ItemIsNode(l);
  }

  lemma ReadPrice(l: Line, cc: string)
    ensures var v := Collapse(Price(l, cc)); OrElse(Bare(v), NOTHING) == v && Amount(v, CbcPriceAmount) == Cent(l.priceAmount)
  {
    hide Collapse, Money, Amount, Cent, Prop;
    CollapseNode(Price(l, cc));
    PickKid(Price(l, cc), 0);
    ReadMoney(Collapse(Price(l, cc)), CbcPriceAmount, cc, l.priceAmount);
  }

  lemma ReadLine(l: Line, currencyCode: string)
    ensures ParseLine(Collapse(LineElement(l, currencyCode))) == NormalLine(l)
  {
    hide Collapse, Section, Amount, Item, Cent, Trim, Read, PlainAmount, LineElement, ParseInt, LineId, UnitOf;
    ReadLineId(l, currencyCode);
    ReadLineQuantity(l, currencyCode);
    ReadLineAmounts(l, currencyCode);
    ItemTexts(l);
    ItemCategory(l);
    ItemSections(l);
    NothingInNothing();
  }

  lemma NothingInNothing()
    ensures Read(NOTHING, CbcIdentificationCode) == EMPTY
  {
  }

  lemma {:induction false} LineAt(lines: seq<Line>, currencyCode: string)
    ensures |LineSection(lines, currencyCode)| == |lines|
    ensures forall i :: 0 <= i < |lines| ==> LineSection(lines, currencyCode)[i] == LineElement(lines[i], currencyCode)
  {
    hide LineElement;
    if lines != [] {
      LineAt(lines[..|lines| - 1], currencyCode);
    }
  }

  /** Any number of lines, down to none, is read back one for one and in order, if their currency can be written at all. */
  lemma ReadLines(v: Js, lines: seq<Line>, currencyCode: string)
    requires lines == [] || MarkFree(Or(currencyCode, "EUR"))
    requires Prop(v, Child(CacInvoiceLine)) == Group(CollapseNamed(LineSection(lines, currencyCode), CacInvoiceLine))
    ensures ParseLines(v) == NormalLines(lines)
  {
    hide Collapse, CollapseNamed, LineElement, LineSection, ParseLine, NormalLine, Prop, EnsureArray, Group, Bare;
    var list := LineSection(lines, currencyCode);
    LineAt(lines, currencyCode);
    forall i | 0 <= i < |lines| ensures list[i].kids != [] && ParseLine(Collapse(list[i])) == NormalLine(lines[i]) {
      ReadLine(lines[i], currencyCode);
      LineHasKids(lines[i], currencyCode);
    }
    ArrayOf(list, CacInvoiceLine);
  }

  lemma LineHasKids(l: Line, currencyCode: string)
    ensures LineElement(l, currencyCode).kids != []
  {
  }

  // ----- payment

  const PAYMENT := [CbcPaymentMeansCode, CbcPaymentNote, CbcPaymentoverteenyAmount, CacPayeeFinancialAccount,
    CacCreditTransferAccount, CacCardAccount, CacDebitedAccount]

  lemma {:induction false} AccountsOnly(p: Payment, n: nat)
    requires n <= |p.creditTransferIBANs|
    ensures Only(Accounts(p, n), CacCreditTransferAccount) && |Accounts(p, n)| == n
  {
    hide Account, BicFor;
    if n > 0 {
      AccountsOnly(p, n - 1);
    }
  }

  lemma WhenOnly(c: bool, e: Xml)
    ensures Only(When(c, e), e.tag)
  {
  }

  lemma OnlyOne(e: Xml)
    ensures Only([e], e.tag)
  {
  }

  lemma WhenLeafOnly(c: bool, tag: Name, s: string)
    ensures Only(When(c, Leaf(tag, s)), tag) && Only([Leaf(tag, s)], tag)
  {
  }

  lemma AccountsLabelled(p: Payment)
    ensures Only(When(p.iban != "", Account(CacPayeeFinancialAccount, p.iban, p.bic)), CacPayeeFinancialAccount)
    ensures Only(When(p.cardAccount != "", CardAccount(p)), CacCardAccount)
    ensures Only(When(p.debitedAccountIBAN != "", DebitedAccount(p)), CacDebitedAccount)
  {
    hide When, Only, Leaf;
    WhenOnly(p.iban != "", Account(CacPayeeFinancialAccount, p.iban, p.bic));
    WhenOnly(p.cardAccount != "", CardAccount(p));
    WhenOnly(p.debitedAccountIBAN != "", DebitedAccount(p));
  }

  lemma PaymentShape(p: Payment)
    ensures |PaymentPieces(p)| == 7
    ensures PaymentPieces(p)[0] == [Leaf(CbcPaymentMeansCode, Or(p.meansCode, "30"))]
    ensures PaymentPieces(p)[1] == When(p.note != "", Leaf(CbcPaymentNote, p.note))
    ensures PaymentPieces(p)[2] == AccountNamePiece(p)
    ensures PaymentPieces(p)[3] == When(p.iban != "", Account(CacPayeeFinancialAccount, p.iban, p.bic))
    ensures PaymentPieces(p)[4] == Accounts(p, |p.creditTransferIBANs|)
    ensures PaymentPieces(p)[5] == When(p.cardAccount != "", CardAccount(p))
    ensures PaymentPieces(p)[6] == When(p.debitedAccountIBAN != "", DebitedAccount(p))
  {
    hide Leaf, AccountNamePiece, Account, Accounts, CardAccount, DebitedAccount, Or, When;
  }

  lemma PaymentNames()
    ensures |PAYMENT| == 7 && PAYMENT[0] == CbcPaymentMeansCode && PAYMENT[1] == CbcPaymentNote
    ensures PAYMENT[3] == CacPayeeFinancialAccount && PAYMENT[5] == CacCardAccount && PAYMENT[6] == CacDebitedAccount
  {
  }

  lemma PaymentHolds(p: Payment)
    ensures Holds(PaymentPieces(p), PAYMENT, 0, CbcPaymentMeansCode, true, Leaf(CbcPaymentMeansCode, Or(p.meansCode, "30")))
    ensures Holds(PaymentPieces(p), PAYMENT, 1, CbcPaymentNote, p.note != "", Leaf(CbcPaymentNote, p.note))
    ensures Holds(PaymentPieces(p), PAYMENT, 3, CacPayeeFinancialAccount, p.iban != "", Account(CacPayeeFinancialAccount, p.iban, p.bic))
    ensures Holds(PaymentPieces(p), PAYMENT, 5, CacCardAccount, p.cardAccount != "", CardAccount(p))
    ensures Holds(PaymentPieces(p), PAYMENT, 6, CacDebitedAccount, p.debitedAccountIBAN != "", DebitedAccount(p))
  {
    hide Leaf, Account, Accounts, AccountNamePiece, CardAccount, DebitedAccount, Or, PaymentPieces, PAYMENT;
    PaymentShape(p);
    PaymentNames();
  }

  lemma PaymentLabelsOnly(p: Payment)
    ensures |PaymentPieces(p)| == |PAYMENT| && forall i :: 0 <= i < |PAYMENT| ==> Only(PaymentPieces(p)[i], PAYMENT[i])
  {
    hide Leaf, AccountNamePiece, Account, Accounts, CardAccount, DebitedAccount, Or, When, Only, PaymentPieces;
    PaymentShape(p);
    WhenLeafOnly(true, CbcPaymentMeansCode, Or(p.meansCode, "30"));
    WhenLeafOnly(p.note != "", CbcPaymentNote, p.note);
    AccountNameOnly(p);
    AccountsOnly(p, |p.creditTransferIBANs|);
    AccountsLabelled(p);
  }

  lemma AccountNameOnly(p: Payment)
    ensures Only(AccountNamePiece(p), CbcPaymentoverteenyAmount)
  {
    hide Esc, NameFigures, Or;
  }

  lemma PaymentLabelsDiffer()
    ensures Different(PAYMENT)
  {
  }

  lemma PaymentLabels(p: Payment)
    ensures Labelled(PaymentPieces(p), PAYMENT)
  {
    hide Different, Only, PaymentPieces;
    PaymentLabelsOnly(p);
    PaymentLabelsDiffer();
    LabelledBy(PaymentPieces(p), PAYMENT);
  }

  lemma PaymentKidsLabelled(p: Payment, e: Xml)
    requires e == Elem(CacPaymentMeans, [], PaymentKids(p), "")
    ensures e.kids == Flat(PaymentPieces(p)) && Labelled(PaymentPieces(p), PAYMENT)
  {
    hide PaymentPieces, PaymentKids, Labelled, Flat;
    PaymentKidsFlat(p);
    PaymentLabels(p);
  }

  /** The optional piece of a payment under each name. */
  lemma PaymentWhen(p: Payment, e: Xml, j: nat, name: Name, present: bool, x: Xml)
    requires e == Elem(CacPaymentMeans, [], PaymentKids(p), "") && Holds(PaymentPieces(p), PAYMENT, j, name, present, x)
    ensures Prop(Collapse(e), Child(name)) == if present then Collapse(x) else Undefined
  {
    hide PaymentPieces, PaymentKids, Labelled, Collapse, Prop, Holds, PAYMENT, Flat;
    PaymentKidsLabelled(p, e);
    PickWhen(e, PaymentPieces(p), PAYMENT, j, name, present, x);
  }

  lemma PaymentTransfers(p: Payment, e: Xml)
    requires e == Elem(CacPaymentMeans, [], PaymentKids(p), "")
    ensures Prop(Collapse(e), Child(CacCreditTransferAccount))
      == Group(CollapseNamed(Accounts(p, |p.creditTransferIBANs|), CacCreditTransferAccount))
  {
    hide Leaf, Account, Accounts, AccountNamePiece, CardAccount, DebitedAccount, Or, PaymentPieces, PaymentKids, Labelled, Collapse, Prop,
      CollapseNamed, Group, Flat, When;
    PaymentKidsLabelled(p, e);
    PaymentShape(p);
    Pick(e, PaymentPieces(p), PAYMENT, 4);
  }

  lemma PaymentProps(p: Payment, e: Xml)
    requires e == Elem(CacPaymentMeans, [], PaymentKids(p), "")
    ensures var v := Collapse(e);
      && Prop(v, Child(CbcPaymentMeansCode)) == Collapse(Leaf(CbcPaymentMeansCode, Or(p.meansCode, "30")))
      && Prop(v, Child(CbcPaymentNote)) == (if p.note != "" then Collapse(Leaf(CbcPaymentNote, p.note)) else Undefined)
      && Prop(v, Child(CacPayeeFinancialAccount)) == (if p.iban != "" then Collapse(Account(CacPayeeFinancialAccount, p.iban, p.bic)) else Undefined)
      && Prop(v, Child(CacCreditTransferAccount)) == Group(CollapseNamed(Accounts(p, |p.creditTransferIBANs|), CacCreditTransferAccount))
      && Prop(v, Child(CacCardAccount)) == (if p.cardAccount != "" then Collapse(CardAccount(p)) else Undefined)
      && Prop(v, Child(CacDebitedAccount)) == (if p.debitedAccountIBAN != "" then Collapse(DebitedAccount(p)) else Undefined)
  {
    hide Leaf, Account, Accounts, CardAccount, DebitedAccount, Or, Collapse, Prop, PaymentKids, PaymentPieces, CollapseNamed, Group, Holds, PAYMENT;
    PaymentHolds(p);
    PaymentTransfers(p, e);
    PaymentWhen(p, e, 0, CbcPaymentMeansCode, true, Leaf(CbcPaymentMeansCode, Or(p.meansCode, "30")));
    PaymentWhen(p, e, 1, CbcPaymentNote, p.note != "", Leaf(CbcPaymentNote, p.note));
    PaymentWhen(p, e, 3, CacPayeeFinancialAccount, p.iban != "", Account(CacPayeeFinancialAccount, p.iban, p.bic));
    PaymentWhen(p, e, 5, CacCardAccount, p.cardAccount != "", CardAccount(p));
    PaymentWhen(p, e, 6, CacDebitedAccount, p.debitedAccountIBAN != "", DebitedAccount(p));
  }

  lemma AccountFlat(tag: Name, iban: string, bic: string)
    ensures Account(tag, iban, bic).kids == [Leaf(CbcID, iban)] + When(bic != "", Branch(bic))
    ensures Labelled([[Leaf(CbcID, iban)], When(bic != "", Branch(bic))], [CbcID, CacFinancialInstitutionBranch])
  {
    hide Leaf, Branch;
    FlatTwo([Leaf(CbcID, iban)], When(bic != "", Branch(bic)));
  }

  /** An account reads back its IBAN and its BIC. */
  lemma ReadAccount(tag: Name, iban: string, bic: string)
    ensures var v := Collapse(Account(tag, iban, bic));
      Read(v, CbcID) == Trimmed(iban) && Read2(v, CacFinancialInstitutionBranch, CbcID) == Trimmed(bic)
    ensures Account(tag, iban, bic).kids != []
  {
    hide Collapse, Leaf, Branch, Read, Labelled, Prop, Trim;
    var e := Account(tag, iban, bic);
    var pieces, names := [[Leaf(CbcID, iban)], When(bic != "", Branch(bic))], [CbcID, CacFinancialInstitutionBranch];
    AccountFlat(tag, iban, bic);
    ReadOne(e, pieces, names, 0, iban);
    Pick(e, pieces, names, 1);
    Read2Of(Collapse(e), CacFinancialInstitutionBranch, CbcID);
    ReadBranch(bic);
    ReadNothing(CbcID);
  }

  lemma ReadBranch(bic: string)
    ensures Read(Collapse(Branch(bic)), CbcID) == Trimmed(bic)
  {
    ReadSingle(Branch(bic), CacFinancialInstitutionBranch, CbcID, bic);
  }

  lemma ReadNothing(tag: Name)
    ensures Read(Undefined, tag) == EMPTY == Trimmed("")
  {
  }

  lemma {:induction false} IbansAt(p: Payment, n: nat)
    requires n <= |p.creditTransferIBANs|
    ensures |AccountIbans(p, n)| == |AccountBics(p, n)| == n
    ensures forall i :: 0 <= i < n ==> AccountIbans(p, n)[i] == Trimmed(p.creditTransferIBANs[i])
    ensures forall i :: 0 <= i < n ==> AccountBics(p, n)[i] == Trimmed(BicFor(p, p.creditTransferIBANs[i]))
  {
    hide BicFor, Trimmed;
    if n > 0 {
      IbansAt(p, n - 1);
    }
  }

  lemma {:induction false} AccountAt(p: Payment, n: nat)
    requires n <= |p.creditTransferIBANs|
    ensures |Accounts(p, n)| == n
    ensures forall i :: 0 <= i < n ==>
      Accounts(p, n)[i] == Account(CacCreditTransferAccount, p.creditTransferIBANs[i], BicFor(p, p.creditTransferIBANs[i]))
  {
    hide Account, BicFor;
    if n > 0 {
      AccountAt(p, n - 1);
    }
  }

  /** The credit transfer accounts, read one for one and in order. */
  lemma ReadAccounts(p: Payment, means: Js)
    requires var n := |p.creditTransferIBANs|;
      Prop(means, Child(CacCreditTransferAccount)) == Group(CollapseNamed(Accounts(p, n), CacCreditTransferAccount))
    ensures var accounts := EnsureArray(Get1(means, Child(CacCreditTransferAccount)));
      Ibans(accounts) == AccountIbans(p, |p.creditTransferIBANs|) && Bics(accounts) == AccountBics(p, |p.creditTransferIBANs|)
  {
    hide Account, Accounts, AccountIbans, AccountBics, BicFor, Collapse, CollapseNamed, Group, Read, Read2, Prop, Bare, EnsureArray, Trim;
    var n := |p.creditTransferIBANs|;
    var list := Accounts(p, n);
    AccountAt(p, n);
    IbansAt(p, n);
    forall i | 0 <= i < n
      ensures list[i].kids != [] && list[i].tag == CacCreditTransferAccount
      ensures Read(Collapse(list[i]), CbcID) == AccountIbans(p, n)[i]
      ensures Read2(Collapse(list[i]), CacFinancialInstitutionBranch, CbcID) == AccountBics(p, n)[i]
    {
      var iban := p.creditTransferIBANs[i];
      ReadAccount(CacCreditTransferAccount, iban, BicFor(p, iban));
    }
    ArrayOf(list, CacCreditTransferAccount);
  }

  const CARD := [CbcCardAccountID, CbcCardHolderName, CbcCardTypeCode]

  lemma CardShape(p: Payment)
    ensures CardAccount(p).kids == Flat(CardPieces(p)) && Labelled(CardPieces(p), CARD)
    ensures Holds(CardPieces(p), CARD, 0, CbcCardAccountID, true, Leaf(CbcCardAccountID, p.cardAccount))
    ensures Holds(CardPieces(p), CARD, 1, CbcCardHolderName, p.cardHolderName != "", Leaf(CbcCardHolderName, p.cardHolderName))
    ensures Holds(CardPieces(p), CARD, 2, CbcCardTypeCode, p.cardBrand != "", Leaf(CbcCardTypeCode, p.cardBrand))
  {
    hide Leaf, Flat, Only;
    WhenLeafOnly(true, CbcCardAccountID, p.cardAccount);
    WhenLeafOnly(p.cardHolderName != "", CbcCardHolderName, p.cardHolderName);
    WhenLeafOnly(p.cardBrand != "", CbcCardTypeCode, p.cardBrand);
  }

  lemma ReadCard(p: Payment)
    ensures var v := Collapse(CardAccount(p));
      && Read(v, CbcCardAccountID) == Trimmed(p.cardAccount)
      && Read(v, CbcCardHolderName) == Trimmed(p.cardHolderName)
      && Read(v, CbcCardTypeCode) == Trimmed(p.cardBrand)
  {
    hide Collapse, Leaf, Read, Trimmed, CardAccount, CardPieces, Flat, Labelled, Holds, CARD;
    var e, pieces := CardAccount(p), CardPieces(p);
    CardShape(p);
    ReadWhen(e, pieces, CARD, 0, CbcCardAccountID, true, p.cardAccount);
    ReadWhen(e, pieces, CARD, 1, CbcCardHolderName, p.cardHolderName != "", p.cardHolderName);
    ReadWhen(e, pieces, CARD, 2, CbcCardTypeCode, p.cardBrand != "", p.cardBrand);
  }

  lemma ReadDebited(p: Payment)
    ensures Read(Collapse(DebitedAccount(p)), CbcID) == Trimmed(p.debitedAccountIBAN)
  {
    ReadSingle(DebitedAccount(p), CacDebitedAccount, CbcID, p.debitedAccountIBAN);
  }

  lemma ReadOf(v: Js, tag: Name, s: string)
    requires Prop(v, Child(tag)) == if s != "" then Collapse(Leaf(tag, s)) else Undefined
    ensures Read(v, tag) == Trimmed(s)
  {
    hide Collapse, Leaf, Prop, Trim;
    ReadLeaf(tag, s);
    ReadNothing(tag);
  }

  lemma PaymentAccount(p: Payment, v: Js)
    requires Prop(v, Child(CacPayeeFinancialAccount)) == if p.iban != "" then Collapse(Account(CacPayeeFinancialAccount, p.iban, p.bic)) else Undefined
    ensures Read2(v, CacPayeeFinancialAccount, CbcID) == Trimmed(p.iban)
    ensures OrElse(Get3(v, Child(CacPayeeFinancialAccount), Child(CacFinancialInstitutionBranch), Child(CbcID)), EMPTY)
      == if p.iban != "" then Trimmed(p.bic) else EMPTY
  {
    hide Collapse, Account, Read, Trim;
    Read2Of(v, CacPayeeFinancialAccount, CbcID);
    ReadAccount(CacPayeeFinancialAccount, p.iban, p.bic);
    ReadNothing(CbcID);
  }

  lemma PaymentCard(p: Payment, v: Js)
    requires Prop(v, Child(CacCardAccount)) == if p.cardAccount != "" then Collapse(CardAccount(p)) else Undefined
    requires Prop(v, Child(CacDebitedAccount)) == if p.debitedAccountIBAN != "" then Collapse(DebitedAccount(p)) else Undefined
    ensures Read2(v, CacCardAccount, CbcCardAccountID) == Trimmed(p.cardAccount)
    ensures Read2(v, CacCardAccount, CbcCardHolderName) == if p.cardAccount != "" then Trimmed(p.cardHolderName) else EMPTY
    ensures Read2(v, CacCardAccount, CbcCardTypeCode) == if p.cardAccount != "" then Trimmed(p.cardBrand) else EMPTY
    ensures Read2(v, CacDebitedAccount, CbcID) == Trimmed(p.debitedAccountIBAN)
  {
    hide Collapse, CardAccount, DebitedAccount, Read, Read2, Trim;
    Read2Of(v, CacCardAccount, CbcCardAccountID);
    Read2Of(v, CacCardAccount, CbcCardHolderName);
    Read2Of(v, CacCardAccount, CbcCardTypeCode);
    Read2Of(v, CacDebitedAccount, CbcID);
    ReadCard(p);
    ReadDebited(p);
    ReadNothing(CbcCardAccountID);
    ReadNothing(CbcCardHolderName);
    ReadNothing(CbcCardTypeCode);
    ReadNothing(CbcID);
  }

  lemma ReadPayment(p: Payment, e: Xml)
    requires e == Elem(CacPaymentMeans, [], PaymentKids(p), "")
    ensures ParsePayment(Collapse(e)) == NormalPayment(p)
  {
    hide Collapse, Prop, Leaf, Account, Accounts, CardAccount, DebitedAccount, PaymentKids, Read, Read2, Ibans, Bics, OnlyTruthy, Trim, Get1, Get3, AccountIbans, AccountBics, Group, CollapseNamed, EnsureArray, OrElse;
    var v := Collapse(e);
    PaymentProps(p, e);
    ReadLeaf(CbcPaymentMeansCode, Or(p.meansCode, "30"));
    ReadMeans(v, p);
    ReadOf(v, CbcPaymentNote, p.note);
    PaymentAccount(p, v);
    ReadAccounts(p, v);
    PaymentCard(p, v);
  }

  lemma ReadMeans(v: Js, p: Payment)
    requires Prop(v, Child(CbcPaymentMeansCode)) == Collapse(Leaf(CbcPaymentMeansCode, Or(p.meansCode, "30")))
    ensures Read(v, CbcPaymentMeansCode) == Trimmed(Or(p.meansCode, "30"))
  {
    hide Collapse, Leaf, Prop, Trim, Or;
    ReadLeaf(CbcPaymentMeansCode, Or(p.meansCode, "30"));
  }

  // ----- the document

  const ROOT := [CbcCustomizationID, CbcProfileID, CbcID, CbcIssueDate, CbcDueDate, CbcInvoiceTypeCode,
    CbcDocumentCurrencyCode, CbcBuyerReference, CacSupplierParty, CacCustomerParty, CacPaymentMeans, CacTaxTotal,
    CacLegalMonetaryTotal, CacInvoiceLine]

  lemma PartiesOnly(data: Invoice)
    ensures Only(BuildSeller(data.seller), CacSupplierParty) && Only(BuildBuyer(data.buyer), CacCustomerParty)
  {
    hide Node, PartyPieces;
  }

  lemma PaymentOnly(data: Invoice)
    ensures Only(PaymentSection(data.payment), CacPaymentMeans) && Only(VatSection(data.vatBreakdown), CacTaxTotal)
  {
    hide Node, PaymentKids, VatHead, Subtotals;
  }

  lemma TotalsOnly(data: Invoice)
    ensures Only(BuildMonetaryTotal(data.monetaryTotal), CacLegalMonetaryTotal)
    ensures Only(LineSection(data.lines, data.currencyCode), CacInvoiceLine)
  {
    hide Node, TotalPieces, LineElement;
    LineAt(data.lines, data.currencyCode);
  }

  lemma SectionsOnly(data: Invoice)
    ensures Only(BuildSeller(data.seller), CacSupplierParty) && Only(BuildBuyer(data.buyer), CacCustomerParty)
    ensures Only(PaymentSection(data.payment), CacPaymentMeans) && Only(VatSection(data.vatBreakdown), CacTaxTotal)
    ensures Only(BuildMonetaryTotal(data.monetaryTotal), CacLegalMonetaryTotal)
    ensures Only(LineSection(data.lines, data.currencyCode), CacInvoiceLine)
  {
    hide Only, BuildSeller, BuildBuyer, PaymentSection, VatSection, BuildMonetaryTotal, LineSection;
    PartiesOnly(data);
    PaymentOnly(data);
    TotalsOnly(data);
  }

  lemma HeaderOnly(data: Invoice)
    ensures forall i :: 0 <= i < 8 ==> Only(DocumentPieces(data)[i], ROOT[i])
  {
    hide Only, Leaf, CustomizationID, ProfileID, BuildSeller, BuildBuyer, PaymentSection, VatSection, BuildMonetaryTotal, LineSection, Or, When;
    OnlyOne(CustomizationID());
    OnlyOne(ProfileID());
    OnlyOne(Leaf(CbcID, data.id));
    OnlyOne(Leaf(CbcIssueDate, data.issueDate));
    WhenOnly(data.dueDate != "", Leaf(CbcDueDate, data.dueDate));
    OnlyOne(Leaf(CbcInvoiceTypeCode, data.invoiceTypeCode));
    OnlyOne(Leaf(CbcDocumentCurrencyCode, Or(data.currencyCode, "EUR")));
    WhenOnly(data.buyerReference != "", Leaf(CbcBuyerReference, data.buyerReference));
  }

  lemma LaterOnly(data: Invoice)
    ensures |DocumentPieces(data)| == |ROOT| && forall i :: 8 <= i < 14 ==> Only(DocumentPieces(data)[i], ROOT[i])
  {
    hide Only, Leaf, CustomizationID, ProfileID, BuildSeller, BuildBuyer, PaymentSection, VatSection, BuildMonetaryTotal, LineSection, Or, When;
    SectionsOnly(data);
  }

  lemma RootLabelsOnly(data: Invoice)
    ensures |DocumentPieces(data)| == |ROOT| && forall i :: 0 <= i < |ROOT| ==> Only(DocumentPieces(data)[i], ROOT[i])
  {
    hide Only, DocumentPieces;
    HeaderOnly(data);
    LaterOnly(data);
  }

  function RootRank(n: Name): nat {
    match n
    case CbcCustomizationID => 0
    case CbcProfileID => 1
    case CbcID => 2
    case CbcIssueDate => 3
    case CbcDueDate => 4
    case CbcInvoiceTypeCode => 5
    case CbcDocumentCurrencyCode => 6
    case CbcBuyerReference => 7
    case CacSupplierParty => 8
    case CacCustomerParty => 9
    case CacPaymentMeans => 10
    case CacTaxTotal => 11
    case CacLegalMonetaryTotal => 12
    case _ => 13
  }

  lemma RootLabelsDiffer()
    ensures Different(ROOT)
  {
    assert forall i :: 0 <= i < |ROOT| ==> RootRank(ROOT[i]) == i;
  }

  lemma RootLabels(data: Invoice)
    ensures Labelled(DocumentPieces(data), ROOT)
  {
    hide Different, Only, DocumentPieces;
    RootLabelsOnly(data);
    RootLabelsDiffer();
    LabelledBy(DocumentPieces(data), ROOT);
  }

  lemma RootPick(data: Invoice, creditNote: bool, j: nat)
    requires j < 14
    ensures var v, piece := Collapse(BuildDocument(data, creditNote)), DocumentPieces(data)[j];
      && Prop(v, Child(ROOT[j])) == Group(CollapseNamed(piece, ROOT[j]))
      && (|piece| == 1 ==> Prop(v, Child(ROOT[j])) == Collapse(piece[0]))
      && (|piece| == 0 ==> Prop(v, Child(ROOT[j])) == Undefined)
  {
    hide DocumentPieces, Labelled, Collapse, Prop, RootAttrs, CollapseNamed, Group;
    RootLabels(data);
    Pick(BuildDocument(data, creditNote), DocumentPieces(data), ROOT, j);
  }

  lemma RootNone(data: Invoice, creditNote: bool)
    ensures Prop(Collapse(BuildDocument(data, creditNote)), Child(CbcTaxPointDate)) == Undefined
  {
    hide DocumentPieces, Labelled, Collapse, Prop, RootAttrs;
    RootLabels(data);
    PickNone(BuildDocument(data, creditNote), DocumentPieces(data), ROOT, CbcTaxPointDate);
  }

  lemma HeadNames()
    ensures |ROOT| == 14 && ROOT[0] == CbcCustomizationID && ROOT[1] == CbcProfileID && ROOT[2] == CbcID && ROOT[3] == CbcIssueDate
  {
  }

  lemma HeadRestNames()
    ensures |ROOT| == 14 && ROOT[4] == CbcDueDate && ROOT[5] == CbcInvoiceTypeCode
    ensures ROOT[6] == CbcDocumentCurrencyCode && ROOT[7] == CbcBuyerReference
  {
  }

  lemma HeadShape(data: Invoice)
    ensures |DocumentPieces(data)| == 14
    ensures DocumentPieces(data)[0] == [CustomizationID()]
    ensures DocumentPieces(data)[1] == [ProfileID()]
    ensures DocumentPieces(data)[2] == [Leaf(CbcID, data.id)]
    ensures DocumentPieces(data)[3] == [Leaf(CbcIssueDate, data.issueDate)]
  {
    hide Leaf, CustomizationID, ProfileID, BuildSeller, BuildBuyer, PaymentSection, VatSection, BuildMonetaryTotal, LineSection, Or, When;
  }

  lemma HeadHolds(data: Invoice)
    ensures Holds(DocumentPieces(data), ROOT, 0, CbcCustomizationID, true, CustomizationID())
    ensures Holds(DocumentPieces(data), ROOT, 1, CbcProfileID, true, ProfileID())
    ensures Holds(DocumentPieces(data), ROOT, 2, CbcID, true, Leaf(CbcID, data.id))
    ensures Holds(DocumentPieces(data), ROOT, 3, CbcIssueDate, true, Leaf(CbcIssueDate, data.issueDate))
  {
    hide Leaf, CustomizationID, ProfileID, DocumentPieces, ROOT, Or;
    HeadShape(data);
    HeadNames();
  }

  lemma HeadRestShape(data: Invoice)
    ensures |DocumentPieces(data)| == 14
    ensures DocumentPieces(data)[4] == When(data.dueDate != "", Leaf(CbcDueDate, data.dueDate))
    ensures DocumentPieces(data)[5] == [Leaf(CbcInvoiceTypeCode, data.invoiceTypeCode)]
    ensures DocumentPieces(data)[6] == [Leaf(CbcDocumentCurrencyCode, Or(data.currencyCode, "EUR"))]
    ensures DocumentPieces(data)[7] == When(data.buyerReference != "", Leaf(CbcBuyerReference, data.buyerReference))
  {
    hide Leaf, CustomizationID, ProfileID, BuildSeller, BuildBuyer, PaymentSection, VatSection, BuildMonetaryTotal, LineSection, Or, When;
  }

  lemma HeadRestHolds(data: Invoice)
    ensures Holds(DocumentPieces(data), ROOT, 4, CbcDueDate, data.dueDate != "", Leaf(CbcDueDate, data.dueDate))
    ensures Holds(DocumentPieces(data), ROOT, 5, CbcInvoiceTypeCode, true, Leaf(CbcInvoiceTypeCode, data.invoiceTypeCode))
    ensures Holds(DocumentPieces(data), ROOT, 6, CbcDocumentCurrencyCode, true, Leaf(CbcDocumentCurrencyCode, Or(data.currencyCode, "EUR")))
    ensures Holds(DocumentPieces(data), ROOT, 7, CbcBuyerReference, data.buyerReference != "", Leaf(CbcBuyerReference, data.buyerReference))
  {
    hide Leaf, CustomizationID, ProfileID, DocumentPieces, ROOT, Or;
    HeadRestShape(data);
    HeadRestNames();
  }

  lemma RootWhen(data: Invoice, creditNote: bool, j: nat, name: Name, present: bool, x: Xml)
    requires Holds(DocumentPieces(data), ROOT, j, name, present, x)
    ensures Prop(Collapse(BuildDocument(data, creditNote)), Child(name)) == if present then Collapse(x) else Undefined
  {
    hide DocumentPieces, Labelled, Collapse, Prop, RootAttrs, Holds, ROOT, Flat;
    RootLabels(data);
    PickWhen(BuildDocument(data, creditNote), DocumentPieces(data), ROOT, j, name, present, x);
  }

  lemma HeaderProps(data: Invoice, creditNote: bool, v: Js)
    requires v == Collapse(BuildDocument(data, creditNote))
    ensures Prop(v, Child(CbcCustomizationID)) == Collapse(CustomizationID())
    ensures Prop(v, Child(CbcProfileID)) == Collapse(ProfileID())
    ensures Prop(v, Child(CbcID)) == Collapse(Leaf(CbcID, data.id))
    ensures Prop(v, Child(CbcIssueDate)) == Collapse(Leaf(CbcIssueDate, data.issueDate))
  {
    hide Leaf, CustomizationID, ProfileID, DocumentPieces, Or, Collapse, Prop, BuildDocument, Holds, ROOT;
    HeadHolds(data);
    RootWhen(data, creditNote, 0, CbcCustomizationID, true, CustomizationID());
    RootWhen(data, creditNote, 1, CbcProfileID, true, ProfileID());
    RootWhen(data, creditNote, 2, CbcID, true, Leaf(CbcID, data.id));
    RootWhen(data, creditNote, 3, CbcIssueDate, true, Leaf(CbcIssueDate, data.issueDate));
  }

  lemma HeaderRest(data: Invoice, creditNote: bool, v: Js)
    requires v == Collapse(BuildDocument(data, creditNote))
    ensures Prop(v, Child(CbcDueDate)) == if data.dueDate != "" then Collapse(Leaf(CbcDueDate, data.dueDate)) else Undefined
    ensures Prop(v, Child(CbcInvoiceTypeCode)) == Collapse(Leaf(CbcInvoiceTypeCode, data.invoiceTypeCode))
    ensures Prop(v, Child(CbcDocumentCurrencyCode)) == Collapse(Leaf(CbcDocumentCurrencyCode, Or(data.currencyCode, "EUR")))
    ensures Prop(v, Child(CbcBuyerReference)) == if data.buyerReference != "" then Collapse(Leaf(CbcBuyerReference, data.buyerReference)) else Undefined
  {
    hide Leaf, DocumentPieces, Or, Collapse, Prop, BuildDocument, Holds, ROOT;
    HeadRestHolds(data);
    RootWhen(data, creditNote, 4, CbcDueDate, data.dueDate != "", Leaf(CbcDueDate, data.dueDate));
    RootWhen(data, creditNote, 5, CbcInvoiceTypeCode, true, Leaf(CbcInvoiceTypeCode, data.invoiceTypeCode));
    RootWhen(data, creditNote, 6, CbcDocumentCurrencyCode, true, Leaf(CbcDocumentCurrencyCode, Or(data.currencyCode, "EUR")));
    RootWhen(data, creditNote, 7, CbcBuyerReference, data.buyerReference != "", Leaf(CbcBuyerReference, data.buyerReference));
  }

  lemma SectionProps(data: Invoice, creditNote: bool, v: Js)
    requires v == Collapse(BuildDocument(data, creditNote))
    ensures Prop(v, Child(CacSupplierParty)) == Group(CollapseNamed(BuildSeller(data.seller), CacSupplierParty))
    ensures Prop(v, Child(CacCustomerParty)) == Group(CollapseNamed(BuildBuyer(data.buyer), CacCustomerParty))
    ensures Prop(v, Child(CacPaymentMeans)) == Group(CollapseNamed(PaymentSection(data.payment), CacPaymentMeans))
    ensures Prop(v, Child(CacTaxTotal)) == Group(CollapseNamed(VatSection(data.vatBreakdown), CacTaxTotal))
    ensures Prop(v, Child(CacLegalMonetaryTotal)) == Group(CollapseNamed(BuildMonetaryTotal(data.monetaryTotal), CacLegalMonetaryTotal))
    ensures Prop(v, Child(CacInvoiceLine)) == Group(CollapseNamed(LineSection(data.lines, data.currencyCode), CacInvoiceLine))
  {
    hide Leaf, CustomizationID, ProfileID, BuildSeller, BuildBuyer, PaymentSection, VatSection, BuildMonetaryTotal, LineSection, Or,
      Collapse, Prop, BuildDocument, CollapseNamed, Group;
    RootPick(data, creditNote, 8);
    RootPick(data, creditNote, 9);
    RootPick(data, creditNote, 10);
    RootPick(data, creditNote, 11);
    RootPick(data, creditNote, 12);
    RootPick(data, creditNote, 13);
  }

  predicate Plain(s: string) {
    forall i :: 0 <= i < |s| ==> s[i] != '&' && s[i] != '<' && s[i] != '>' && s[i] != '"' && s[i] != '\''
  }

  lemma FixedNorm()
    ensures Plain(NORM)
  {
  }

  lemma FixedCompliant()
    ensures Plain(COMPLIANT)
  {
  }

  lemma FixedPeppol()
    ensures Plain(PEPPOL)
  {
  }

  lemma FixedBilling()
    ensures Plain(BILLING)
  {
  }

  lemma FixedEnds()
    ensures Plain("3.0") && Plain("01:1.0")
  {
  }

  lemma PlainConcat(a: string, b: string)
    requires Plain(a) && Plain(b)
    ensures Plain(a + b)
  {
  }

  lemma PlainFixed()
    ensures Plain(CUSTOMIZATION_ID) && Plain(PROFILE_ID)
  {
    hide Plain;
    FixedNorm();
    FixedCompliant();
    FixedPeppol();
    FixedBilling();
    FixedEnds();
    PlainConcat(NORM, COMPLIANT);
    PlainConcat(PEPPOL, BILLING);
    PlainConcat(PEPPOL + BILLING, "3.0");
    PlainConcat(NORM + COMPLIANT, PEPPOL + BILLING + "3.0");
    PlainConcat(PEPPOL + BILLING, "01:1.0");
  }

  lemma EndsPlain(a: string, b: string)
    requires a != "" && b != "" && !IsSpace(a[0]) && !IsSpace(b[|b| - 1])
    ensures a + b != "" && !IsSpace((a + b)[0]) && !IsSpace((a + b)[|a + b| - 1])
  {
  }

  lemma FixedStarts()
    ensures NORM != "" && !IsSpace(NORM[0]) && PEPPOL != "" && !IsSpace(PEPPOL[0])
    ensures !IsSpace(NORM[|NORM| - 1]) && !IsSpace(PEPPOL[|PEPPOL| - 1]) && BILLING != "" && !IsSpace(BILLING[|BILLING| - 1])
    ensures COMPLIANT != "" && !IsSpace(COMPLIANT[|COMPLIANT| - 1])
  {
  }

  lemma FixedShape()
    ensures CUSTOMIZATION_ID != "" && !IsSpace(CUSTOMIZATION_ID[0]) && !IsSpace(CUSTOMIZATION_ID[|CUSTOMIZATION_ID| - 1])
    ensures PROFILE_ID != "" && !IsSpace(PROFILE_ID[0]) && !IsSpace(PROFILE_ID[|PROFILE_ID| - 1])
  {
    hide NORM, COMPLIANT, PEPPOL, BILLING, IsSpace;
    FixedStarts();
    LastDigits();
    EndsPlain(PEPPOL, BILLING);
    EndsPlain(PEPPOL + BILLING, "3.0");
    EndsPlain(PEPPOL + BILLING, "01:1.0");
    EndsPlain(NORM, COMPLIANT);
    EndsPlain(NORM + COMPLIANT, PEPPOL + BILLING + "3.0");
  }

  lemma LastDigits()
    ensures !IsSpace("3.0"[2]) && !IsSpace("01:1.0"[5])
  {
  }

  /** The fixed identifiers contain nothing to trim or decode. */
  lemma FixedIds()
    ensures Collapse(CustomizationID()) == Str(CUSTOMIZATION_ID) && CUSTOMIZATION_ID != ""
    ensures Collapse(ProfileID()) == Str(PROFILE_ID) && PROFILE_ID != ""
  {
    hide Esc, Trim, Collapse, CUSTOMIZATION_ID, PROFILE_ID, IsSpace;
    PlainFixed();
    FixedShape();
    PlainText(CUSTOMIZATION_ID, CbcCustomizationID);
    PlainText(PROFILE_ID, CbcProfileID);
  }

  lemma PlainMeans(s: string)
    requires Plain(s)
    ensures forall c <- s :: c !in SPECIALS
  {
    forall c | c in s ensures c !in SPECIALS {
      var i :| 0 <= i < |s| && s[i] == c;
    }
  }

  lemma PlainText(s: string, tag: Name)
    requires s != "" && Plain(s) && !IsSpace(s[0]) && !IsSpace(s[|s| - 1])
    ensures Collapse(Elem(tag, [], [], s)) == Str(s)
  {
    hide Trim, Collapse, Esc, Plain, SPECIALS, IsSpace;
    PlainMeans(s);
    EscIdentity(s);
    ReadLeaf(tag, s);
    TrimFixed(s);
  }

  lemma ReadHeader(data: Invoice, creditNote: bool, v: Js)
    requires v == Collapse(BuildDocument(data, creditNote))
    ensures ParseHeader(v, creditNote) == NormalHeader(data, creditNote)
  {
    hide Collapse, BuildDocument, Leaf, CustomizationID, ProfileID, Prop, Read, Trim, OrElse, Or;
    HeaderProps(data, creditNote, v);
    HeaderRest(data, creditNote, v);
    RootNone(data, creditNote);
    HeaderTexts(data, v);
    FixedIds();
    FixedRead(v, CbcCustomizationID, CUSTOMIZATION_ID);
    FixedRead(v, CbcProfileID, PROFILE_ID);
    DefaultRead(v, CbcInvoiceTypeCode, data.invoiceTypeCode, "380");
    DefaultRead(v, CbcDocumentCurrencyCode, Or(data.currencyCode, "EUR"), "EUR");
    ReadNothingAt(v, CbcTaxPointDate);
  }

  lemma HeaderTexts(data: Invoice, v: Js)
    requires Prop(v, Child(CbcID)) == Collapse(Leaf(CbcID, data.id))
    requires Prop(v, Child(CbcIssueDate)) == Collapse(Leaf(CbcIssueDate, data.issueDate))
    requires Prop(v, Child(CbcDueDate)) == if data.dueDate != "" then Collapse(Leaf(CbcDueDate, data.dueDate)) else Undefined
    requires Prop(v, Child(CbcBuyerReference)) == if data.buyerReference != "" then Collapse(Leaf(CbcBuyerReference, data.buyerReference)) else Undefined
    ensures Read(v, CbcID) == Trimmed(data.id) && Read(v, CbcIssueDate) == Trimmed(data.issueDate)
    ensures Read(v, CbcDueDate) == Trimmed(data.dueDate) && Read(v, CbcBuyerReference) == Trimmed(data.buyerReference)
  {
    hide Collapse, Leaf, Prop, Read, Trim;
    ReadOf(v, CbcDueDate, data.dueDate);
    ReadOf(v, CbcBuyerReference, data.buyerReference);
    LeafRead(v, CbcID, data.id);
    LeafRead(v, CbcIssueDate, data.issueDate);
  }

  lemma LeafRead(v: Js, tag: Name, s: string)
    requires Prop(v, Child(tag)) == Collapse(Leaf(tag, s))
    ensures Read(v, tag) == Trimmed(s)
  {
    hide Collapse, Leaf, Prop, Trim;
    ReadLeaf(tag, s);
  }

  lemma FixedRead(v: Js, tag: Name, s: string)
    requires Prop(v, Child(tag)) == Str(s) && s != ""
    ensures Read(v, tag) == Str(s)
  {
  }

  lemma DefaultRead(v: Js, tag: Name, s: string, d: string)
    requires Prop(v, Child(tag)) == Collapse(Leaf(tag, s))
    ensures OrElse(Get1(v, Child(tag)), Str(d)) == Str(Or(Trim(s), d))
  {
    hide Collapse, Leaf, Prop, Trim;
    ReadLeaf(tag, s);
  }

  lemma ReadNothingAt(v: Js, tag: Name)
    requires Prop(v, Child(tag)) == Undefined
    ensures Read(v, tag) == EMPTY
  {
  }

  // ----- the sections of the document

  /** A section of at most one element. */
  lemma OneElement(list: seq<Xml>, tag: Name)
    requires |list| <= 1 && Only(list, tag)
    ensures Group(CollapseNamed(list, tag)) == if list == [] then Undefined else Collapse(list[0])
  {
    hide Collapse;
    CollapseEach(list, tag);
  }

  lemma PartyHasKids(p: Party, scheme: string)
    ensures Node(CacParty, PartyPieces(p, scheme)).kids != []
  {
    hide AttrLeaf, AddressPieces, TaxSchemePieces, LegalPieces, ContactPieces, Or, Leaf;
    assert PartyPieces(p, scheme)[0] != [];
  }

  lemma OneKid(party: Name, inner: Xml)
    ensures Prop(Collapse(Node(party, [[inner]])), Child(inner.tag)) == Collapse(inner)
  {
    hide Collapse, Prop;
    FlatSnoc([], [inner]);
    assert Flat([[inner]]) == [inner];
    PickKid(Node(party, [[inner]]), 0);
  }

  lemma PartyInside(party: Name, p: Party, scheme: string)
    ensures var v := Collapse(Node(party, [[Node(CacParty, PartyPieces(p, scheme))]]));
      Prop(v, Child(CacParty)) == Collapse(Node(CacParty, PartyPieces(p, scheme)))
    ensures Bare(Collapse(Node(CacParty, PartyPieces(p, scheme)))) == Collapse(Node(CacParty, PartyPieces(p, scheme)))
    ensures Truthy(Collapse(Node(CacParty, PartyPieces(p, scheme))))
  {
    hide Collapse, Prop, PartyPieces, Node, Bare;
    var inner := Node(CacParty, PartyPieces(p, scheme));
    OneKid(party, inner);
    PartyHasKids(p, scheme);
    CollapseNode(inner);
  }

  lemma ReadSeller(data: Invoice, creditNote: bool, v: Js)
    requires v == Collapse(BuildDocument(data, creditNote))
    ensures var seller := Get2(v, Child(CacSupplierParty), Child(CacParty));
      && (Truthy(seller) <==> data.seller.Some?)
      && (data.seller.Some? ==> ParseParty(seller, false) == NormalParty(data.seller.value, false))
      && (data.seller.Some? ==>
            Optional(Get3(v, Child(CacSupplierParty), Child(CacParty), Child(CacContact)), ParseContact) == NormalContact(data.seller))
      && (data.seller.None? ==> NormalContact(data.seller) == None)
  {
    hide Collapse, BuildDocument, ParseParty, NormalParty, Prop, PartyPieces, ContactPieces, Node, CollapseNamed, Group, ParseContact, Trim;
    SectionProps(data, creditNote, v);
    SectionsOnly(data);
    OneElement(BuildSeller(data.seller), CacSupplierParty);
    PropUndefined(CacParty);
    if data.seller.Some? {
      var p := data.seller.value;
      PartyInside(CacSupplierParty, p, "");
      ReadParty(p, false, Node(CacParty, PartyPieces(p, "")));
      SellerContact(p, Collapse(Node(CacParty, PartyPieces(p, ""))));
    }
  }

  lemma PropUndefined(tag: Name)
    ensures Bare(Prop(Undefined, Child(tag))) == Undefined
  {
  }

  lemma BareUndefined()
    ensures !Truthy(Bare(Undefined))
  {
  }

  lemma SellerContact(p: Party, party: Js)
    requires party == Collapse(Node(CacParty, PartyPieces(p, "")))
    ensures Optional(Bare(Prop(party, Child(CacContact))), ParseContact) == NormalContact(Some(p))
  {
    hide Collapse, PartyPieces, ContactPieces, AddressPieces, TaxSchemePieces, LegalPieces, Node, Prop, ParseContact, Trimmed, Leaf, AttrLeaf, Bare, Truthy, Or;
    PartySections(p, "", Node(CacParty, PartyPieces(p, "")));
    BareUndefined();
    if p.contact.Some? {
      ReadContact(p.contact.value);
    }
  }

  lemma ReadBuyer(data: Invoice, creditNote: bool, v: Js)
    requires v == Collapse(BuildDocument(data, creditNote))
    ensures var buyer := Get2(v, Child(CacCustomerParty), Child(CacParty));
      && (Truthy(buyer) <==> data.buyer.Some?)
      && (data.buyer.Some? ==> ParseParty(buyer, true) == NormalParty(data.buyer.value, true))
  {
    hide Collapse, BuildDocument, ParseParty, NormalParty, Prop, PartyPieces, Node, CollapseNamed, Group, Trim;
    SectionProps(data, creditNote, v);
    SectionsOnly(data);
    OneElement(BuildBuyer(data.buyer), CacCustomerParty);
    PropUndefined(CacParty);
    if data.buyer.Some? {
      var p := data.buyer.value;
      PartyInside(CacCustomerParty, p, p.companyIDSchemeID);
      ReadParty(p, true, Node(CacParty, PartyPieces(p, p.companyIDSchemeID)));
    }
  }

  lemma ReadMeansSection(data: Invoice, creditNote: bool, v: Js)
    requires v == Collapse(BuildDocument(data, creditNote))
    ensures Optional(Get1(v, Child(CacPaymentMeans)), ParsePayment)
      == match data.payment { case None => None case Some(p) => Some(NormalPayment(p)) }
  {
    hide Collapse, BuildDocument, Prop, PaymentKids, CollapseNamed, Group, ParsePayment, NormalPayment;
    SectionProps(data, creditNote, v);
    SectionsOnly(data);
    OneElement(PaymentSection(data.payment), CacPaymentMeans);
    if data.payment.Some? {
      var e := Elem(CacPaymentMeans, [], PaymentKids(data.payment.value), "");
      PaymentNotEmpty(data.payment.value);
      CollapseNode(e);
      ReadPayment(data.payment.value, e);
    }
  }

  lemma PaymentNotEmpty(p: Payment)
    ensures PaymentKids(p) != []
  {
    hide Leaf, Account, Accounts, CardAccount, DebitedAccount;
  }

  lemma ReadTaxSection(data: Invoice, creditNote: bool, v: Js)
    requires v == Collapse(BuildDocument(data, creditNote))
    ensures Optional(Get1(v, Child(CacTaxTotal)), ParseTaxTotal) == NormalTaxTotal(data.vatBreakdown)
  {
    hide Collapse, BuildDocument, Prop, CollapseNamed, Group, ParseTaxTotal, VatHead, Subtotals, NormalVats, Cent, Sum;
    SectionProps(data, creditNote, v);
    SectionsOnly(data);
    OneElement(VatSection(data.vatBreakdown), CacTaxTotal);
    if data.vatBreakdown != [] {
      CollapseNode(VatSection(data.vatBreakdown)[0]);
      ReadTaxTotal(data.vatBreakdown, VatSection(data.vatBreakdown)[0]);
    }
  }

  lemma ReadTotalSection(data: Invoice, creditNote: bool, v: Js)
    requires v == Collapse(BuildDocument(data, creditNote))
    ensures Optional(Get1(v, Child(CacLegalMonetaryTotal)), ParseTotals)
      == match data.monetaryTotal { case None => None case Some(t) => Some(NormalTotals(t)) }
  {
    hide Collapse, BuildDocument, Prop, CollapseNamed, Group, ParseTotals, NormalTotals, TotalPieces;
    SectionProps(data, creditNote, v);
    SectionsOnly(data);
    OneElement(BuildMonetaryTotal(data.monetaryTotal), CacLegalMonetaryTotal);
    if data.monetaryTotal.Some? {
      var e := BuildMonetaryTotal(data.monetaryTotal)[0];
      TotalsNotEmpty(data.monetaryTotal.value);
      CollapseNode(e);
      ReadTotals(data.monetaryTotal.value, e);
    }
  }

  lemma TotalsNotEmpty(t: Totals)
    ensures Node(CacLegalMonetaryTotal, TotalPieces(t)).kids != []
  {
    hide Money;
  }

  /**
   * Parsing a generated document gives exactly the normal form, for every invoice whose lines' currency needs no escaping;
   * the documents of all others cannot be read as such (`UblWire.DocumentBack`).
   */
  lemma ParseGenerated(data: Invoice, creditNote: bool)
    requires PlainCurrency(data)
    ensures Parse(BuildDocument(data, creditNote)) == Some(NormalForm(data, creditNote))
  {
    hide Collapse, ParseHeader, NormalHeader, ParseParty, NormalParty, ParseContact, NormalContact, ParsePayment, Truthy,
      NormalPayment, ParseTaxTotal, NormalTaxTotal, ParseTotals, NormalTotals, ParseLines, NormalLines, Get1, Get2, Get3, BuildDocument;
    var e := BuildDocument(data, creditNote);
    var v := Collapse(e);
    RootIsObject(data, creditNote);
    ReadHeader(data, creditNote, v);
    ReadSeller(data, creditNote, v);
    ReadBuyer(data, creditNote, v);
    ReadMeansSection(data, creditNote, v);
    ReadTaxSection(data, creditNote, v);
    ReadTotalSection(data, creditNote, v);
    ReadLineSection(data, creditNote, v);
    var p, n := Parse(e).value, NormalForm(data, creditNote);
    assert p.sellerContact == n.sellerContact;
  }

  lemma ReadLineSection(data: Invoice, creditNote: bool, v: Js)
    requires PlainCurrency(data) && v == Collapse(BuildDocument(data, creditNote))
    ensures ParseLines(v) == NormalLines(data.lines)
  {
    hide Collapse, BuildDocument, Prop, Group, CollapseNamed, ParseLines, NormalLines, LineSection, MarkFree, Or;
    SectionProps(data, creditNote, v);
    ReadLines(v, data.lines, data.currencyCode);
  }

  lemma RootIsObject(data: Invoice, creditNote: bool)
    ensures Truthy(Collapse(BuildDocument(data, creditNote)))
    ensures BuildDocument(data, creditNote).tag == if creditNote then CreditNote else XmlTree.Invoice
  {
    hide DocumentPieces;
  }
}
