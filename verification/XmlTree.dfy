/**
 * XML documents as element trees with raw (still escaped) text, the JavaScript value the parser library
 * makes of such a tree, and the path lookup `getVal` on that value.
 */
module XmlTree {
  import opened Strings
  import opened XmlText

  /** The element names the source writes or reads (`Cbc` and `Cac` are the UBL name-space prefixes). */
  datatype Name =
    | Invoice | CreditNote
    | CbcCustomizationID | CbcProfileID | CbcID | CbcIssueDate | CbcDueDate | CbcTaxPointDate | CbcInvoiceTypeCode
    | CbcDocumentCurrencyCode | CbcBuyerReference
    | CacSupplierParty | CacCustomerParty | CacParty | CbcEndpointID | CacPartyName | CbcName | CacPostalAddress
    | CbcStreetName | CbcCityName | CbcPostalZone | CacCountry | CbcIdentificationCode | CacPartyTaxScheme
    | CbcCompanyID | CacTaxScheme | CacPartyLegalEntity | CbcRegistrationName | CacContact | CbcTelephone
    | CbcElectronicMail
    | CacPaymentMeans | CbcPaymentMeansCode | CbcPaymentNote | CbcPaymentoverteenyAmount
    | CacPayeeFinancialAccount | CacFinancialInstitutionBranch | CacCreditTransferAccount | CacCardAccount | CbcCardAccountID
    | CbcCardHolderName | CbcCardTypeCode | CacDebitedAccount
    | CacTaxTotal | CbcTaxAmount | CacTaxSubtotal | CbcTaxableAmount | CacTaxCategory | CbcPercent
    | CbcTaxExemptionReason | CbcTaxExemptionReasonCode
    | CacLegalMonetaryTotal | CbcLineExtensionAmount | CbcTaxExclusiveAmount | CbcTaxInclusiveAmount
    | CbcAllowanceTotalAmount | CbcChargeTotalAmount | CbcPayableAmount
    | CacInvoiceLine | CbcInvoicedQuantity | CacItem | CbcDescription | CacOriginCountry
    | CacClassifiedTaxCategory | CacPrice | CbcPriceAmount
    | StandardBusinessDocument | StandardBusinessDocumentHeader | HeaderVersion | Sender | Receiver | Identifier
    | DocumentIdentification | Standard | TypeVersion | InstanceIdentifier | Type | CreationDateAndTime
    | BusinessScope | Scope

  datatype AttrName = SchemeID | CurrencyID | UnitCode | Authority | Xmlns | XmlnsCac | XmlnsCbc

  datatype Attr = Attr(name: AttrName, raw: string)

  /** An element; `raw` is its own character data, white space between children left out. */
  datatype Xml = Elem(tag: Name, attrs: seq<Attr>, kids: seq<Xml>, raw: string)

  /** The property keys the library uses: a child's tag, `@_` and an attribute's name, or `#text`. */
  datatype Key = Child(tag: Name) | Attribute(name: AttrName) | Text

  datatype Js = Undefined | Str(s: string) | Obj(fields: map<Key, Js>) | Arr(items: seq<Js>)

  predicate Truthy(v: Js) {
    match v
    case Undefined => false
    case Str(s) => s != ""
    case _ => true
  }

  /** `v || d`. */
  function OrElse(v: Js, d: Js): Js {
    if Truthy(v) then v else d
  }

  // ----- what the library makes of a tree

  /** Character data as the library reports it: trimmed, then decoded. */
  function Content(raw: string): string {
    Decode(Trim(raw))
  }

  function CollapseNamed(kids: seq<Xml>, tag: Name): seq<Js> {
    if kids == [] then []
    else (if kids[0].tag == tag then [Collapse(kids[0])] else []) + CollapseNamed(kids[1..], tag)
  }

  /** One child of a name is an object, several are an array. */
  function Group(values: seq<Js>): Js {
    if |values| == 0 then Undefined else if |values| == 1 then values[0] else Arr(values)
  }

  function AttrValue(attrs: seq<Attr>, name: AttrName): Js {
    if attrs == [] then Undefined
    else if attrs[0].name == name then Str(Content(attrs[0].raw))
    else AttrValue(attrs[1..], name)
  }

  function Keys(e: Xml): set<Key> {
    (set a <- e.attrs :: Attribute(a.name)) + (set k <- e.kids :: Child(k.tag)) + if Content(e.raw) != "" then {Text} else {}
  }

  function Field(e: Xml, k: Key): Js {
    match k
    case Child(tag) => Group(CollapseNamed(e.kids, tag))
    case Attribute(name) => AttrValue(e.attrs, name)
    case Text => Str(Content(e.raw))
  }

  /** The JavaScript value of an element: its text, or an object when it has attributes or children. */
  function Collapse(e: Xml): Js
    decreases e
  {
    if e.attrs == [] && e.kids == [] then Str(Content(e.raw)) else Obj(map k | k in Keys(e) :: Field(e, k))
  }

  // ----- getVal

  function Prop(v: Js, k: Key): Js {
    if v.Obj? && k in v.fields then v.fields[k] else Undefined
  }

  function Walk(v: Js, path: seq<Key>): Js
    decreases |path|
  {
    if path == [] then v else Walk(Prop(v, path[0]), path[1..])
  }

  /** An object that carries attributes only reads as the empty string. */
  function Bare(v: Js): Js {
    if v.Obj? && v.fields != map[] && forall k <- v.fields :: k.Attribute? then Str("") else v
  }

  function GetVal(v: Js, path: seq<Key>): Js {
    Bare(Walk(v, path))
  }

  lemma WalkStep(v: Js, a: Key, rest: seq<Key>)
    ensures Walk(v, [a] + rest) == Walk(Prop(v, a), rest)
  {
    assert ([a] + rest)[1..] == rest;
  }

  function Get1(v: Js, a: Key): (r: Js)
    ensures r == Bare(Prop(v, a))
  {
    WalkStep(v, a, []);
    assert [a] + [] == [a];
    GetVal(v, [a])
  }

  function Get2(v: Js, a: Key, b: Key): (r: Js)
    ensures r == Bare(Prop(Prop(v, a), b))
  {
    WalkStep(v, a, [b]);
    WalkStep(Prop(v, a), b, []);
    assert [a] + [b] == [a, b];
    GetVal(v, [a, b])
  }

  function Get3(v: Js, a: Key, b: Key, c: Key): (r: Js)
    ensures r == Bare(Prop(Prop(Prop(v, a), b), c))
  {
    WalkStep(v, a, [b, c]);
    WalkStep(Prop(v, a), b, [c]);
    WalkStep(Prop(Prop(v, a), b), c, []);
    assert [b, c] == [b] + [c] && [a] + [b, c] == [a, b, c];
    GetVal(v, [a, b, c])
  }

  method ReadPath(v: Js, path: seq<Key>) returns (r: Js)
    ensures r == GetVal(v, path)
  {
    var obj := v;
    for i := 0 to |path|
      invariant Walk(v, path) == Walk(obj, path[i..])
    {
      if obj.Undefined? {
        WalkUndefined(path[i..]);
        return Undefined;
      }
      obj := Prop(obj, path[i]);
      assert path[i..][1..] == path[i + 1..];
    }
    assert path[|path|..] == [];
    r := Bare(obj);
  }

  lemma WalkUndefined(path: seq<Key>)
    ensures Walk(Undefined, path) == Undefined
  {
  }

  function EnsureArray(v: Js): seq<Js> {
    match v
    case Undefined => []
    case Arr(items) => items
    case _ => [v]
  }

  // ----- reading built trees

  lemma {:induction false} CollapseConcat(a: seq<Xml>, b: seq<Xml>, tag: Name)
    ensures CollapseNamed(a + b, tag) == CollapseNamed(a, tag) + CollapseNamed(b, tag)
  {
    hide Collapse;
    if a == [] {
      assert a + b == b;
    } else {
      assert (a + b)[0] == a[0] && (a + b)[1..] == a[1..] + b;
      CollapseConcat(a[1..], b, tag);
      var head := if a[0].tag == tag then [Collapse(a[0])] else [];
      assert head + (CollapseNamed(a[1..], tag) + CollapseNamed(b, tag)) == (head + CollapseNamed(a[1..], tag)) + CollapseNamed(b, tag);
    }
  }

  lemma CollapseOther(kids: seq<Xml>, tag: Name)
    requires forall x <- kids :: x.tag != tag
    ensures CollapseNamed(kids, tag) == []
  {
  }

  lemma CollapseSome(kids: seq<Xml>, tag: Name)
    requires exists x <- kids :: x.tag == tag
    ensures CollapseNamed(kids, tag) != []
  {
  }

  /** A child lookup on the value of an element depends on the children of that name only. */
  lemma PropChild(e: Xml, tag: Name)
    ensures Prop(Collapse(e), Child(tag)) == Group(CollapseNamed(e.kids, tag))
  {
    hide CollapseNamed, Content, AttrValue, Group;
    if forall x <- e.kids :: x.tag != tag {
      CollapseOther(e.kids, tag);
      GroupNothing();
    }
  }

  lemma GroupNothing()
    ensures Group([]) == Undefined
  {
  }

  lemma PropAttribute(e: Xml, name: AttrName)
    ensures Prop(Collapse(e), Attribute(name)) == AttrValue(e.attrs, name)
  {
    AttrKey(e.attrs, name);
  }

  lemma AttrKey(attrs: seq<Attr>, name: AttrName)
    ensures AttrValue(attrs, name) == Undefined <==> forall a <- attrs :: a.name != name
  {
  }

  /** The children as a list of pieces, most of them one optional element. */
  function Flat(pieces: seq<seq<Xml>>): seq<Xml> {
    if pieces == [] then [] else pieces[0] + Flat(pieces[1..])
  }

  predicate Only(piece: seq<Xml>, name: Name) {
    forall x <- piece :: x.tag == name
  }

  /** Every piece holds elements of its own name only, and no name heads two pieces. */
  predicate Labelled(pieces: seq<seq<Xml>>, names: seq<Name>) {
    && |pieces| == |names|
    && (forall i :: 0 <= i < |pieces| ==> Only(pieces[i], names[i]))
    && (forall i, j :: 0 <= i < j < |names| ==> names[i] != names[j])
  }

  lemma {:induction false} FlatNone(pieces: seq<seq<Xml>>, names: seq<Name>, tag: Name)
    requires Labelled(pieces, names) && tag !in names
    ensures CollapseNamed(Flat(pieces), tag) == []
  {
    if pieces != [] {
      CollapseConcat(pieces[0], Flat(pieces[1..]), tag);
      CollapseOther(pieces[0], tag);
      FlatNone(pieces[1..], names[1..], tag);
    }
  }

  lemma {:induction false} FlatPick(pieces: seq<seq<Xml>>, names: seq<Name>, j: nat)
    requires Labelled(pieces, names) && j < |names|
    ensures CollapseNamed(Flat(pieces), names[j]) == CollapseNamed(pieces[j], names[j])
  {
    var tag := names[j];
    CollapseConcat(pieces[0], Flat(pieces[1..]), tag);
    if j == 0 {
      FlatNone(pieces[1..], names[1..], tag);
    } else {
      CollapseOther(pieces[0], tag);
      FlatPick(pieces[1..], names[1..], j - 1);
    }
  }

  predicate Different(names: seq<Name>) {
    forall i, j :: 0 <= i < j < |names| ==> names[i] != names[j]
  }

  lemma LabelledBy(pieces: seq<seq<Xml>>, names: seq<Name>)
    requires |pieces| == |names| && Different(names) && forall i :: 0 <= i < |pieces| ==> Only(pieces[i], names[i])
    ensures Labelled(pieces, names)
  {
  }

  /** The piece that holds the children of a name decides what a lookup of the name finds. */
  lemma Pick(e: Xml, pieces: seq<seq<Xml>>, names: seq<Name>, j: nat)
    requires e.kids == Flat(pieces) && Labelled(pieces, names) && j < |names|
    ensures Prop(Collapse(e), Child(names[j])) == Group(CollapseNamed(pieces[j], names[j]))
    ensures |pieces[j]| == 1 ==> Prop(Collapse(e), Child(names[j])) == Collapse(pieces[j][0])
    ensures |pieces[j]| == 0 ==> Prop(Collapse(e), Child(names[j])) == Undefined
  {
    FlatPick(pieces, names, j);
    PropChild(e, names[j]);
    if |pieces[j]| == 1 {
      assert pieces[j][0] in pieces[j];
      assert pieces[j][1..] == [];
    }
  }

  /** When no two children share a name, a lookup finds the child. */
  lemma {:induction false} OneNamed(kids: seq<Xml>, j: nat)
    requires j < |kids| && forall i :: 0 <= i < |kids| && i != j ==> kids[i].tag != kids[j].tag
    ensures CollapseNamed(kids, kids[j].tag) == [Collapse(kids[j])]
  {
    if j == 0 {
      CollapseOther(kids[1..], kids[0].tag);
    } else {
      OneNamed(kids[1..], j - 1);
    }
  }

  lemma PickKid(e: Xml, j: nat)
    requires j < |e.kids| && forall i :: 0 <= i < |e.kids| && i != j ==> e.kids[i].tag != e.kids[j].tag
    ensures Prop(Collapse(e), Child(e.kids[j].tag)) == Collapse(e.kids[j])
  {
    OneNamed(e.kids, j);
    PropChild(e, e.kids[j].tag);
  }

  lemma PickNone(e: Xml, pieces: seq<seq<Xml>>, names: seq<Name>, tag: Name)
    requires e.kids == Flat(pieces) && Labelled(pieces, names) && tag !in names
    ensures Prop(Collapse(e), Child(tag)) == Undefined
  {
    FlatNone(pieces, names, tag);
    PropChild(e, tag);
  }

  /** An element with a child is an object that reads as itself. */
  lemma CollapseNode(e: Xml)
    requires e.kids != []
    ensures Collapse(e).Obj? && Truthy(Collapse(e)) && Bare(Collapse(e)) == Collapse(e)
  {
    assert e.kids[0] in e.kids;
    assert Child(e.kids[0].tag) in Collapse(e).fields;
  }

  // ----- lists of elements

  lemma {:induction false} CollapseEach(kids: seq<Xml>, tag: Name)
    requires forall x <- kids :: x.tag == tag
    ensures |CollapseNamed(kids, tag)| == |kids|
    ensures forall i :: 0 <= i < |kids| ==> CollapseNamed(kids, tag)[i] == Collapse(kids[i])
  {
    if kids != [] {
      CollapseEach(kids[1..], tag);
      forall i | 0 <= i < |kids| ensures CollapseNamed(kids, tag)[i] == Collapse(kids[i]) {
        if i > 0 {
          assert kids[i] == kids[1..][i - 1];
        }
      }
    }
  }

  /** None, one or several children: the array the parser works on has each of them once, in order. */
  lemma ArrayOf(kids: seq<Xml>, tag: Name)
    requires forall x <- kids :: x.tag == tag && x.kids != []
    ensures |EnsureArray(Bare(Group(CollapseNamed(kids, tag))))| == |kids|
    ensures forall i :: 0 <= i < |kids| ==> EnsureArray(Bare(Group(CollapseNamed(kids, tag))))[i] == Collapse(kids[i])
  {
    hide Collapse, CollapseNamed;
    CollapseEach(kids, tag);
    if |kids| == 1 {
      CollapseNode(kids[0]);
    }
  }

  // ----- leaves

  function Leaf(tag: Name, s: string): (e: Xml)
    ensures e.tag == tag
  {
    Elem(tag, [], [], Esc(s))
  }

  function Node(tag: Name, pieces: seq<seq<Xml>>): (e: Xml)
    ensures e.tag == tag
  {
    Elem(tag, [], Flat(pieces), "")
  }

  lemma NodeShape(tag: Name, pieces: seq<seq<Xml>>)
    ensures Node(tag, pieces) == Elem(tag, [], Flat(pieces), "")
  {
  }

  function When(c: bool, e: Xml): seq<Xml> {
    if c then [e] else []
  }

  /** The piece at `j` holds, under its name, one element that may be left out. */
  predicate Holds(pieces: seq<seq<Xml>>, names: seq<Name>, j: nat, name: Name, present: bool, x: Xml) {
    j < |pieces| && j < |names| && names[j] == name && pieces[j] == When(present, x)
  }

  /** A lookup in such a piece. */
  lemma PickWhen(e: Xml, pieces: seq<seq<Xml>>, names: seq<Name>, j: nat, name: Name, present: bool, x: Xml)
    requires e.kids == Flat(pieces) && Labelled(pieces, names) && Holds(pieces, names, j, name, present, x)
    ensures Prop(Collapse(e), Child(name)) == if present then Collapse(x) else Undefined
  {
    hide Flat, Collapse, Prop, CollapseNamed;
    Pick(e, pieces, names, j);
  }

  /** An escaped text reads back trimmed. */
  lemma ReadLeaf(tag: Name, s: string)
    ensures Collapse(Leaf(tag, s)) == Str(Trim(s))
  {
    ReadEscaped(s);
  }

  /** An element with one attribute: `#text` when its text is not blank, and the attribute's value. */
  lemma ReadLeafAttr(e: Xml, a: AttrName)
    requires e.kids == [] && |e.attrs| == 1 && e.attrs[0].name == a
    ensures Prop(Collapse(e), Text) == if Content(e.raw) != "" then Str(Content(e.raw)) else Undefined
    ensures Prop(Collapse(e), Attribute(a)) == Str(Content(e.attrs[0].raw))
    ensures Bare(Collapse(e)) == if Content(e.raw) != "" then Collapse(e) else Str("")
    ensures Collapse(e).Obj?
  {
    PropAttribute(e, a);
    var f := Collapse(e).fields;
    assert e.attrs[0] in e.attrs && Attribute(a) in f;
    assert Content(e.raw) != "" ==> Text in f;
  }
}
