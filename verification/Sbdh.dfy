/** The business document header around a UBL document: building, parsing, and what becomes of participant ids. */
module Sbdh {
  import opened Options
  import opened Strings
  import opened XmlText
  import opened XmlTree

  // ----- participant ids

  const ISO6523 := "iso6523-actorid-upis"
  const CANONICAL := "ISO6523_ACTORID_UPIS"

  /** `value.replace(/^0+/, '')` */
  function StripZeros(s: string): string {
    if s != "" && s[0] == '0' then StripZeros(s[1..]) else s
  }

  /** The value `splitParticipantID` sends: what follows the first colon, without leading zeros under the generic scheme. */
  function Value(id: string): string {
    var t := Trim(id);
    if ':' !in t then t
    else if Before(t, ':') == ISO6523 then Or(StripZeros(After(t, ':')), "0")
    else After(t, ':')
  }

  /** `toUpperCase` on ASCII letters. */
  function UpperChar(c: char): char {
    if 'a' <= c <= 'z' then (c as int - 32) as char else c
  }

  function Upper(s: string): string {
    if s == "" then "" else [UpperChar(s[0])] + Upper(s[1..])
  }

  /** `reconstructParticipantId` */
  function Reconstruct(auth: string, value: string): string {
    if auth == "" then value else Replace(Upper(auth), '-', "_") + ":" + value
  }

  function CanonicalChar(c: char): char {
    if c == '-' then '_' else UpperChar(c)
  }

  lemma {:induction false} CanonicalChars(s: string)
    ensures var t := Replace(Upper(s), '-', "_"); |t| == |s| && forall i :: 0 <= i < |s| ==> t[i] == CanonicalChar(s[i])
  {
    if s != "" {
      CanonicalChars(s[1..]);
      var t, tail := Replace(Upper(s), '-', "_"), Replace(Upper(s[1..]), '-', "_");
      assert Upper(s)[1..] == Upper(s[1..]);
      assert t == [CanonicalChar(s[0])] + tail;
    }
  }

  /** The one authority written reads back as the one canonical prefix. */
  lemma CanonicalScheme(value: string)
    ensures Reconstruct(ISO6523, value) == CANONICAL + ":" + value
  {
    hide Upper, Replace;
    CanonicalChars(ISO6523);
    CanonicalText(Replace(Upper(ISO6523), '-', "_"));
  }

  /** An id is prefixed exactly when there is an authority. */
  lemma PrefixedExactly(auth: string, value: string)
    ensures Reconstruct(auth, value) == value <==> auth == ""
  {
    CanonicalChars(auth);
    assert auth != "" ==> |Reconstruct(auth, value)| > |value|;
  }

  lemma CanonicalText(t: string)
    requires |t| == |ISO6523| && forall i :: 0 <= i < |t| ==> t[i] == CanonicalChar(ISO6523[i])
    ensures t == CANONICAL
  {
    assert t[0] == 'I' && t[1] == 'S' && t[2] == 'O' && t[3] == '6' && t[4] == '5' && t[5] == '2' && t[6] == '3';
    assert t[7] == '_' && t[8] == 'A' && t[9] == 'C' && t[10] == 'T' && t[11] == 'O' && t[12] == 'R' && t[13] == 'I' && t[14] == 'D';
    assert t[15] == '_' && t[16] == 'U' && t[17] == 'P' && t[18] == 'I' && t[19] == 'S';
  }

  // ----- the header

  datatype Params = Params(
    senderId: string, receiverId: string, instanceIdentifier: string, creationDateAndTime: string, documentType: string,
    documentTypeIdentifier: string, processID: string, countryC1: string)

  function StandardName(documentType: string): string {
    "urn:oasis:names:specification:ubl:schema:xsd:" + (if documentType == "CreditNote" then "CreditNote" else "Invoice") + "-2"
  }

  function IdentifierNode(id: string): (e: Xml)
    ensures e.tag == Identifier && e.kids == [] && e.attrs == [Attr(Authority, ISO6523)] && e.raw == Esc(Value(id))
  {
    Elem(Identifier, [Attr(Authority, ISO6523)], [], Esc(Value(id)))
  }

  function PartyNode(tag: Name, id: string): (e: Xml)
    ensures e.tag == tag
  {
    Elem(tag, [], [IdentifierNode(id)], "")
  }

  function DocumentNode(p: Params): (e: Xml)
    ensures e.tag == DocumentIdentification
  {
    Elem(DocumentIdentification, [],
      [ Leaf(Standard, StandardName(p.documentType)), Elem(TypeVersion, [], [], "2.0"), Leaf(InstanceIdentifier, p.instanceIdentifier),
        Leaf(Type, p.documentType), Leaf(CreationDateAndTime, p.creationDateAndTime) ], "")
  }

  /** A scope: its type, its value and, except for the country, the scheme of the value. */
  function ScopeNode(kind: string, value: string, scheme: seq<Xml>): (e: Xml)
    ensures e.tag == Scope
  {
    Elem(Scope, [], [Elem(Type, [], [], kind), Leaf(InstanceIdentifier, value)] + scheme, "")
  }

  const DOCUMENTID := "DOCUMENTID"
  const PROCESSID := "PROCESSID"
  const COUNTRY := "COUNTRY_C1"

  function Scopes(p: Params): seq<Xml> {
    [ ScopeNode(DOCUMENTID, p.documentTypeIdentifier, [Elem(Identifier, [], [], "busdox-docid-qns")]),
      ScopeNode(PROCESSID, p.processID, [Elem(Identifier, [], [], "cenbii-procid-ubl")]),
      ScopeNode(COUNTRY, Upper(Or(p.countryC1, "SK")), []) ]
  }

  function HeaderNode(p: Params): (e: Xml)
    ensures e.tag == StandardBusinessDocumentHeader
  {
    Elem(StandardBusinessDocumentHeader, [],
      [ Elem(HeaderVersion, [], [], "1.0"), PartyNode(Sender, p.senderId), PartyNode(Receiver, p.receiverId), DocumentNode(p),
        Elem(BusinessScope, [], Scopes(p), "") ], "")
  }

  /** `buildSBDH` around a UBL document, if there is one. */
  function BuildSbdh(p: Params, ubl: seq<Xml>): Xml {
    Elem(StandardBusinessDocument, [Attr(Xmlns, "http://www.unece.org/cefact/namespaces/StandardBusinessDocumentHeader")],
      [HeaderNode(p)] + ubl, "")
  }

  // ----- parsing

  /** Absent values are "". */
  datatype Parsed = Parsed(
    senderId: string, receiverId: string, instanceIdentifier: string, standard: string, typeVersion: string,
    documentType: string, creationDateAndTime: string, documentTypeIdentifier: string, processID: string, countryC1: string, errors: nat)

  function Plain(v: Js): string {
    if v.Str? then v.s else ""
  }

  /** `getVal(v, tag, '#text') || getVal(v, tag)` */
  function TextOf(v: Js, tag: Name): Js {
    OrElse(Get2(v, Child(tag), Text), Get1(v, Child(tag)))
  }

  /** The participant id of a party, "" if its identifier is blank. */
  function ParticipantOf(header: Js, tag: Name): string {
    var id := OrElse(Get3(header, Child(tag), Child(Identifier), Text), Get2(header, Child(tag), Child(Identifier)));
    if Truthy(id) then Reconstruct(Plain(Get3(header, Child(tag), Child(Identifier), Attribute(Authority))), Plain(id)) else ""
  }

  function VersionErrors(version: string): nat {
    if version != "" && version != "2.0" then 1 else 0
  }

  /** What the scopes say of one kind: the last one of that kind counts. */
  function ScopeValue(scopes: seq<Js>, kind: string): string {
    if scopes == [] then ""
    else
      var s := scopes[|scopes| - 1];
      if Plain(TextOf(s, Type)) == kind then Plain(TextOf(s, InstanceIdentifier)) else ScopeValue(scopes[..|scopes| - 1], kind)
  }

  function ScopesOf(header: Js): seq<Js> {
    EnsureArray(Get2(header, Child(BusinessScope), Child(Scope)))
  }

  function ReadHeader(header: Js): Parsed {
    var doc, scopes := Get1(header, Child(DocumentIdentification)), ScopesOf(header);
    var version := Plain(TextOf(doc, TypeVersion));
    Parsed(
      ParticipantOf(header, Sender), ParticipantOf(header, Receiver),
      Plain(TextOf(doc, InstanceIdentifier)), Plain(TextOf(doc, Standard)), version,
      Plain(TextOf(doc, Type)), Plain(TextOf(doc, CreationDateAndTime)),
      ScopeValue(scopes, DOCUMENTID), ScopeValue(scopes, PROCESSID), ScopeValue(scopes, COUNTRY), VersionErrors(version))
  }

  /** `parseSBDH` on the root element: no header is an error. */
  function ReadSbdh(root: Xml): Option<Parsed> {
    var header := if root.tag == StandardBusinessDocument then Prop(Collapse(root), Child(StandardBusinessDocumentHeader))
      else if root.tag == StandardBusinessDocumentHeader then Collapse(root) else Undefined;
    if Truthy(header) then Some(ReadHeader(header)) else None
  }

  /** The loop over the scopes. */
  method CollectScopes(scopes: seq<Js>) returns (documentTypeIdentifier: string, processID: string, countryC1: string)
    ensures documentTypeIdentifier == ScopeValue(scopes, DOCUMENTID)
    ensures processID == ScopeValue(scopes, PROCESSID) && countryC1 == ScopeValue(scopes, COUNTRY)
  {
    hide TextOf, Plain;
    documentTypeIdentifier, processID, countryC1 := "", "", "";
    for i := 0 to |scopes|
      invariant documentTypeIdentifier == ScopeValue(scopes[..i], DOCUMENTID)
      invariant processID == ScopeValue(scopes[..i], PROCESSID) && countryC1 == ScopeValue(scopes[..i], COUNTRY)
    {
      assert scopes[..i + 1][..i] == scopes[..i];
      var kind, value := Plain(TextOf(scopes[i], Type)), Plain(TextOf(scopes[i], InstanceIdentifier));
      KindsDiffer();
      if kind == DOCUMENTID {
        documentTypeIdentifier := value;
      } else if kind == PROCESSID {
        processID := value;
      } else if kind == COUNTRY {
        countryC1 := value;
      }
    }
    assert scopes[..|scopes|] == scopes;
  }

  method ParseSbdh(root: Xml) returns (result: Option<Parsed>)
    ensures result == ReadSbdh(root)
  {
    hide Collapse, TextOf, Plain, ParticipantOf, ScopeValue, ScopesOf, VersionErrors;
    var header := if root.tag == StandardBusinessDocument then Prop(Collapse(root), Child(StandardBusinessDocumentHeader))
      else if root.tag == StandardBusinessDocumentHeader then Collapse(root) else Undefined;
    if !Truthy(header) {
      return None;
    }
    var r := Parsed(ParticipantOf(header, Sender), ParticipantOf(header, Receiver), "", "", "", "", "", "", "", "", 0);
    var doc := Get1(header, Child(DocumentIdentification));
    r := r.(instanceIdentifier := Plain(TextOf(doc, InstanceIdentifier)), standard := Plain(TextOf(doc, Standard)));
    r := r.(typeVersion := Plain(TextOf(doc, TypeVersion)));
    r := r.(errors := VersionErrors(r.typeVersion));
    r := r.(documentType := Plain(TextOf(doc, Type)), creationDateAndTime := Plain(TextOf(doc, CreationDateAndTime)));
    var documentTypeIdentifier, processID, countryC1 := CollectScopes(ScopesOf(header));
    r := r.(documentTypeIdentifier := documentTypeIdentifier, processID := processID, countryC1 := countryC1);
    return Some(r);
  }

  lemma KindsDiffer()
    ensures DOCUMENTID != PROCESSID && PROCESSID != COUNTRY && DOCUMENTID != COUNTRY
  {
    assert DOCUMENTID[0] == 'D' && PROCESSID[0] == 'P' && COUNTRY[0] == 'C';
  }

  // ----- reading what was built

  lemma ContentEsc(s: string)
    ensures Content(Esc(s)) == Trim(s)
  {
    ReadEscaped(s);
  }

  lemma PartyKid(tag: Name, id: string)
    ensures Prop(Collapse(PartyNode(tag, id)), Child(Identifier)) == Collapse(IdentifierNode(id))
  {
    hide Value, Esc, Collapse;
    assert PartyNode(tag, id).kids == [IdentifierNode(id)];
    PickKid(PartyNode(tag, id), 0);
  }

  lemma ReadParty(header: Js, tag: Name, id: string)
    requires Prop(header, Child(tag)) == Collapse(PartyNode(tag, id))
    ensures ParticipantOf(header, tag) == if Trim(Value(id)) != "" then CANONICAL + ":" + Trim(Value(id)) else ""
  {
    hide Reconstruct, Value, Collapse, Content, PartyNode, IdentifierNode, Esc, Trim;
    var leaf := IdentifierNode(id);
    PartyKid(tag, id);
    ContentEsc(Value(id));
    ReadLeafAttr(leaf, Authority);
    AuthorityReads();
    CanonicalScheme(Trim(Value(id)));
    IdentifierReads(leaf, Trim(Value(id)));
  }

  lemma IdentifierReads(leaf: Xml, v: string)
    requires leaf.tag == Identifier && leaf.kids == [] && leaf.attrs == [Attr(Authority, ISO6523)] && Content(leaf.raw) == v
    ensures OrElse(Bare(Prop(Collapse(leaf), Text)), Bare(Collapse(leaf))) == Str(v)
  {
    hide Content, Collapse;
    ReadLeafAttr(leaf, Authority);
  }

  lemma AuthorityReads()
    ensures Content(ISO6523) == ISO6523
  {
    hide Decode, Esc, Trim;
    var s: string := ISO6523;
    assert s[0] == 'i' && s[|s| - 1] == 's';
    TrimFixed(s);
    PlainAuthority();
    EscIdentity(s);
    DecodeRestores(s);
  }

  lemma PlainAuthority()
    ensures forall c <- ISO6523 :: c !in SPECIALS
  {
  }

  lemma ReadText(v: Js, tag: Name, e: Xml, s: string)
    requires Prop(v, Child(tag)) == Collapse(e) && Collapse(e) == Str(s)
    ensures Plain(TextOf(v, tag)) == s
  {
    hide Collapse;
  }

  /** Text that neither trimming nor decoding changes. */
  predicate PlainWord(s: string) {
    (s != "" ==> !IsSpace(s[0]) && !IsSpace(s[|s| - 1])) && forall c <- s :: c !in SPECIALS
  }

  lemma ReadFixed(tag: Name, s: string)
    requires PlainWord(s)
    ensures Collapse(Elem(tag, [], [], s)) == Str(s)
  {
    hide Decode, Esc, Trim;
    TrimFixed(s);
    EscIdentity(s);
    DecodeRestores(s);
  }

  /** The child at `j` is the only one with its name. */
  predicate OnlyKid(e: Xml, j: nat, x: Xml) {
    j < |e.kids| && e.kids[j] == x && forall i :: 0 <= i < |e.kids| && i != j ==> e.kids[i].tag != x.tag
  }

  lemma KidFound(e: Xml, j: nat, x: Xml)
    requires OnlyKid(e, j, x)
    ensures Prop(Collapse(e), Child(x.tag)) == Collapse(x)
  {
    hide Collapse, Prop;
    PickKid(e, j);
  }

  /** A text is found behind attributes, too. */
  lemma TextBehind(e: Xml, j: nat, tag: Name, a: Attr, raw: string)
    requires OnlyKid(e, j, Elem(tag, [a], [], raw)) && Content(raw) != ""
    ensures TextOf(Collapse(e), tag) == Str(Content(raw))
  {
    hide Collapse, Prop, Content;
    var x := Elem(tag, [a], [], raw);
    KidFound(e, j, x);
    ReadLeafAttr(x, a.name);
  }

  lemma LeafReads(e: Xml, j: nat, tag: Name, s: string)
    requires OnlyKid(e, j, Leaf(tag, s))
    ensures Plain(TextOf(Collapse(e), tag)) == Trim(s)
  {
    hide Collapse, Leaf, Trim, TextOf, OnlyKid;
    KidFound(e, j, Leaf(tag, s));
    ReadLeaf(tag, s);
    ReadText(Collapse(e), tag, Leaf(tag, s), Trim(s));
  }

  lemma FixedReads(e: Xml, j: nat, tag: Name, s: string)
    requires OnlyKid(e, j, Elem(tag, [], [], s)) && PlainWord(s)
    ensures Plain(TextOf(Collapse(e), tag)) == s
  {
    hide Collapse, TextOf, OnlyKid;
    KidFound(e, j, Elem(tag, [], [], s));
    ReadFixed(tag, s);
    ReadText(Collapse(e), tag, Elem(tag, [], [], s), s);
  }

  const DOCUMENT := [Standard, TypeVersion, InstanceIdentifier, Type, CreationDateAndTime]

  lemma DocumentNames(p: Params)
    ensures |DocumentNode(p).kids| == 5 && forall i :: 0 <= i < 5 ==> DocumentNode(p).kids[i].tag == DOCUMENT[i]
  {
    hide Leaf, StandardName;
  }

  lemma DocumentNamesDiffer(j: nat)
    requires j < 5
    ensures forall i :: 0 <= i < 5 && i != j ==> DOCUMENT[i] != DOCUMENT[j]
  {
  }

  lemma DocumentAlone(p: Params, j: nat)
    requires j < 5
    ensures |DocumentNode(p).kids| == 5 && OnlyKid(DocumentNode(p), j, DocumentNode(p).kids[j])
  {
    hide DocumentNode, DOCUMENT;
    DocumentNames(p);
    DocumentNamesDiffer(j);
  }

  lemma DocumentParts(p: Params)
    ensures |DocumentNode(p).kids| == 5 && DocumentNode(p).kids[0] == Leaf(Standard, StandardName(p.documentType))
    ensures DocumentNode(p).kids[1] == Elem(TypeVersion, [], [], "2.0")
    ensures DocumentNode(p).kids[2] == Leaf(InstanceIdentifier, p.instanceIdentifier)
    ensures DocumentNode(p).kids[3] == Leaf(Type, p.documentType)
    ensures DocumentNode(p).kids[4] == Leaf(CreationDateAndTime, p.creationDateAndTime)
  {
    hide Leaf, StandardName;
  }

  lemma DocumentShape(p: Params)
    ensures OnlyKid(DocumentNode(p), 0, Leaf(Standard, StandardName(p.documentType)))
    ensures OnlyKid(DocumentNode(p), 1, Elem(TypeVersion, [], [], "2.0"))
    ensures OnlyKid(DocumentNode(p), 2, Leaf(InstanceIdentifier, p.instanceIdentifier))
    ensures OnlyKid(DocumentNode(p), 3, Leaf(Type, p.documentType))
    ensures OnlyKid(DocumentNode(p), 4, Leaf(CreationDateAndTime, p.creationDateAndTime))
  {
    hide Leaf, StandardName, OnlyKid, DocumentNode;
    DocumentParts(p);
    DocumentAlone(p, 0);
    DocumentAlone(p, 1);
    DocumentAlone(p, 2);
    DocumentAlone(p, 3);
    DocumentAlone(p, 4);
  }

  lemma DocumentReads(p: Params)
    ensures var doc := Collapse(DocumentNode(p));
      && Plain(TextOf(doc, InstanceIdentifier)) == Trim(p.instanceIdentifier)
      && Plain(TextOf(doc, Standard)) == Trim(StandardName(p.documentType))
      && Plain(TextOf(doc, Type)) == Trim(p.documentType)
      && Plain(TextOf(doc, CreationDateAndTime)) == Trim(p.creationDateAndTime)
  {
    hide Collapse, StandardName, Leaf, Trim, TextOf, Plain, OnlyKid, DocumentNode;
    var e := DocumentNode(p);
    DocumentShape(p);
    LeafReads(e, 0, Standard, StandardName(p.documentType));
    LeafReads(e, 2, InstanceIdentifier, p.instanceIdentifier);
    LeafReads(e, 3, Type, p.documentType);
    LeafReads(e, 4, CreationDateAndTime, p.creationDateAndTime);
  }

  lemma VersionReads(p: Params)
    ensures Plain(TextOf(Collapse(DocumentNode(p)), TypeVersion)) == "2.0"
  {
    hide Collapse, TextOf, OnlyKid, DocumentNode, Plain, PlainWord, Leaf;
    DocumentShape(p);
    VersionPlain();
    FixedReads(DocumentNode(p), 1, TypeVersion, "2.0");
  }

  lemma VersionPlain()
    ensures PlainWord("2.0")
  {
  }

  lemma ScopeShape(kind: string, value: string, scheme: seq<Xml>)
    requires scheme == [] || (|scheme| == 1 && scheme[0].tag == Identifier)
    ensures OnlyKid(ScopeNode(kind, value, scheme), 0, Elem(Type, [], [], kind))
    ensures OnlyKid(ScopeNode(kind, value, scheme), 1, Leaf(InstanceIdentifier, value))
  {
    hide Leaf;
    var e := ScopeNode(kind, value, scheme);
    assert e.kids[0].tag == Type && e.kids[1].tag == InstanceIdentifier;
    assert forall i :: 2 <= i < |e.kids| ==> e.kids[i] == scheme[i - 2];
  }

  lemma ScopeReads(kind: string, value: string, scheme: seq<Xml>)
    requires PlainWord(kind) && (scheme == [] || (|scheme| == 1 && scheme[0].tag == Identifier))
    ensures Plain(TextOf(Collapse(ScopeNode(kind, value, scheme)), Type)) == kind
    ensures Plain(TextOf(Collapse(ScopeNode(kind, value, scheme)), InstanceIdentifier)) == Trim(value)
  {
    hide Collapse, Leaf, Trim, TextOf, ScopeNode, OnlyKid, Plain, PlainWord;
    var e := ScopeNode(kind, value, scheme);
    ScopeShape(kind, value, scheme);
    FixedReads(e, 0, Type, kind);
    LeafReads(e, 1, InstanceIdentifier, value);
  }

  lemma DocumentIdPlain()
    ensures PlainWord(DOCUMENTID)
  {
  }

  lemma ProcessIdPlain()
    ensures PlainWord(PROCESSID)
  {
  }

  lemma CountryPlain()
    ensures PlainWord(COUNTRY)
  {
  }

  lemma KindsPlain()
    ensures PlainWord(DOCUMENTID) && PlainWord(PROCESSID) && PlainWord(COUNTRY)
  {
    hide PlainWord, DOCUMENTID, PROCESSID, COUNTRY;
    DocumentIdPlain();
    ProcessIdPlain();
    CountryPlain();
  }

  lemma ScopesRead(p: Params)
    ensures var scopes := [Collapse(Scopes(p)[0]), Collapse(Scopes(p)[1]), Collapse(Scopes(p)[2])];
      && ScopeValue(scopes, DOCUMENTID) == Trim(p.documentTypeIdentifier)
      && ScopeValue(scopes, PROCESSID) == Trim(p.processID)
      && ScopeValue(scopes, COUNTRY) == Trim(Upper(Or(p.countryC1, "SK")))
  {
    hide Collapse, Trim, TextOf, Plain, Upper, ScopeNode, PlainWord, DOCUMENTID, PROCESSID, COUNTRY, ScopeValue, Or;
    KindsPlain();
    var country := Upper(Or(p.countryC1, "SK"));
    ScopeReads(DOCUMENTID, p.documentTypeIdentifier, [Elem(Identifier, [], [], "busdox-docid-qns")]);
    ScopeReads(PROCESSID, p.processID, [Elem(Identifier, [], [], "cenbii-procid-ubl")]);
    ScopeReads(COUNTRY, country, []);
    ThreeScopes(Collapse(Scopes(p)[0]), Collapse(Scopes(p)[1]), Collapse(Scopes(p)[2]));
  }

  /** The three scopes say what they are. */
  lemma ScopesTyped(p: Params)
    ensures |Scopes(p)| == 3
    ensures Plain(TextOf(Collapse(Scopes(p)[0]), Type)) == "DOCUMENTID"
    ensures Plain(TextOf(Collapse(Scopes(p)[1]), Type)) == "PROCESSID"
    ensures Plain(TextOf(Collapse(Scopes(p)[2]), Type)) == "COUNTRY_C1"
  {
    hide Collapse, Trim, TextOf, Plain, Upper, ScopeNode, PlainWord, Or;
    KindsPlain();
    ScopeReads(DOCUMENTID, p.documentTypeIdentifier, [Elem(Identifier, [], [], "busdox-docid-qns")]);
    ScopeReads(PROCESSID, p.processID, [Elem(Identifier, [], [], "cenbii-procid-ubl")]);
    ScopeReads(COUNTRY, Upper(Or(p.countryC1, "SK")), []);
  }

  /** One scope of each kind: each value is found. */
  lemma ThreeScopes(a: Js, b: Js, c: Js)
    requires Plain(TextOf(a, Type)) == DOCUMENTID && Plain(TextOf(b, Type)) == PROCESSID && Plain(TextOf(c, Type)) == COUNTRY
    ensures ScopeValue([a, b, c], DOCUMENTID) == Plain(TextOf(a, InstanceIdentifier))
    ensures ScopeValue([a, b, c], PROCESSID) == Plain(TextOf(b, InstanceIdentifier))
    ensures ScopeValue([a, b, c], COUNTRY) == Plain(TextOf(c, InstanceIdentifier))
  {
    hide TextOf, Plain;
    KindsDiffer();
    assert [a, b, c][..2] == [a, b] && [a, b][..1] == [a];
    assert ScopeValue([a, b, c], DOCUMENTID) == ScopeValue([a, b], DOCUMENTID) == ScopeValue([a], DOCUMENTID);
    assert ScopeValue([a, b, c], PROCESSID) == ScopeValue([a, b], PROCESSID);
  }

  const HEADER := [HeaderVersion, Sender, Receiver, DocumentIdentification, BusinessScope]

  lemma HeaderNames(p: Params)
    ensures |HeaderNode(p).kids| == 5 && forall i :: 0 <= i < 5 ==> HeaderNode(p).kids[i].tag == HEADER[i]
  {
    hide PartyNode, DocumentNode, Scopes;
  }

  lemma HeaderNamesDiffer(j: nat)
    requires j < 5
    ensures forall i :: 0 <= i < 5 && i != j ==> HEADER[i] != HEADER[j]
  {
  }

  lemma HeaderParts(p: Params)
    ensures |HeaderNode(p).kids| == 5 && HeaderNode(p).kids[1] == PartyNode(Sender, p.senderId)
    ensures HeaderNode(p).kids[2] == PartyNode(Receiver, p.receiverId) && HeaderNode(p).kids[3] == DocumentNode(p)
    ensures HeaderNode(p).kids[4] == Elem(BusinessScope, [], Scopes(p), "")
  {
    hide PartyNode, DocumentNode, Scopes;
  }

  lemma HeaderAlone(p: Params, j: nat)
    requires j < 5
    ensures |HeaderNode(p).kids| == 5 && OnlyKid(HeaderNode(p), j, HeaderNode(p).kids[j])
  {
    hide HeaderNode, HEADER;
    HeaderNames(p);
    HeaderNamesDiffer(j);
  }

  lemma HeaderShape(p: Params)
    ensures OnlyKid(HeaderNode(p), 1, PartyNode(Sender, p.senderId))
    ensures OnlyKid(HeaderNode(p), 2, PartyNode(Receiver, p.receiverId))
    ensures OnlyKid(HeaderNode(p), 3, DocumentNode(p))
    ensures OnlyKid(HeaderNode(p), 4, Elem(BusinessScope, [], Scopes(p), ""))
  {
    hide PartyNode, DocumentNode, Scopes, HeaderNode, OnlyKid;
    HeaderParts(p);
    HeaderAlone(p, 1);
    HeaderAlone(p, 2);
    HeaderAlone(p, 3);
    HeaderAlone(p, 4);
  }

  lemma HeaderKids(p: Params)
    ensures var h := Collapse(HeaderNode(p));
      && Prop(h, Child(Sender)) == Collapse(PartyNode(Sender, p.senderId))
      && Prop(h, Child(Receiver)) == Collapse(PartyNode(Receiver, p.receiverId))
  {
    hide Collapse, Prop, PartyNode, HeaderNode, OnlyKid;
    HeaderShape(p);
    KidFound(HeaderNode(p), 1, PartyNode(Sender, p.senderId));
    KidFound(HeaderNode(p), 2, PartyNode(Receiver, p.receiverId));
  }

  lemma HeaderRest(p: Params)
    ensures var h := Collapse(HeaderNode(p));
      && Prop(h, Child(DocumentIdentification)) == Collapse(DocumentNode(p))
      && Prop(h, Child(BusinessScope)) == Collapse(Elem(BusinessScope, [], Scopes(p), ""))
  {
    hide Collapse, Prop, HeaderNode, DocumentNode, Scopes, OnlyKid;
    HeaderShape(p);
    KidFound(HeaderNode(p), 3, DocumentNode(p));
    KidFound(HeaderNode(p), 4, Elem(BusinessScope, [], Scopes(p), ""));
  }

  lemma ScopesFound(p: Params)
    ensures |Scopes(p)| == 3
    ensures ScopesOf(Collapse(HeaderNode(p))) == [Collapse(Scopes(p)[0]), Collapse(Scopes(p)[1]), Collapse(Scopes(p)[2])]
  {
    hide Collapse, CollapseNamed, HeaderNode, Bare, Group, Scopes, EnsureArray;
    HeaderRest(p);
    var e := Elem(BusinessScope, [], Scopes(p), "");
    PropChild(e, Scope);
    ScopeShapes(p);
    ArrayOf(e.kids, Scope);
    ThreeItems(EnsureArray(Bare(Group(CollapseNamed(e.kids, Scope)))), Scopes(p));
  }

  lemma ThreeItems(values: seq<Js>, kids: seq<Xml>)
    requires |values| == |kids| == 3 && forall i :: 0 <= i < 3 ==> values[i] == Collapse(kids[i])
    ensures values == [Collapse(kids[0]), Collapse(kids[1]), Collapse(kids[2])]
  {
    hide Collapse;
  }

  lemma ScopeShapes(p: Params)
    ensures |Scopes(p)| == 3 && forall x <- Scopes(p) :: x.tag == Scope && x.kids != []
  {
    hide ScopeNode;
    ScopeHasKids(DOCUMENTID, p.documentTypeIdentifier, [Elem(Identifier, [], [], "busdox-docid-qns")]);
    ScopeHasKids(PROCESSID, p.processID, [Elem(Identifier, [], [], "cenbii-procid-ubl")]);
    ScopeHasKids(COUNTRY, Upper(Or(p.countryC1, "SK")), []);
  }

  lemma ScopeHasKids(kind: string, value: string, scheme: seq<Xml>)
    ensures ScopeNode(kind, value, scheme).kids != []
  {
  }

  lemma DocumentFound(p: Params)
    ensures Get1(Collapse(HeaderNode(p)), Child(DocumentIdentification)) == Collapse(DocumentNode(p))
  {
    hide Collapse, HeaderNode, Bare;
    HeaderRest(p);
    DocumentKids(p);
    CollapseNode(DocumentNode(p));
  }

  lemma DocumentKids(p: Params)
    ensures DocumentNode(p).kids != []
  {
  }

  function PrefixedId(id: string): string {
    if Trim(Value(id)) != "" then CANONICAL + ":" + Trim(Value(id)) else ""
  }

  /** What parsing a built header gives. */
  function Expected(p: Params): Parsed {
    Parsed(PrefixedId(p.senderId), PrefixedId(p.receiverId), Trim(p.instanceIdentifier), Trim(StandardName(p.documentType)), "2.0",
      Trim(p.documentType), Trim(p.creationDateAndTime), Trim(p.documentTypeIdentifier), Trim(p.processID),
      Trim(Upper(Or(p.countryC1, "SK"))), 0)
  }

  lemma HeaderReads(p: Params)
    ensures ReadHeader(Collapse(HeaderNode(p))) == Expected(p)
  {
    hide Collapse, HeaderNode, PartyNode, DocumentNode, Scopes, ParticipantOf, TextOf, ScopeValue, ScopesOf, Value, Trim, StandardName, Upper, Plain;
    HeaderKids(p);
    ReadParty(Collapse(HeaderNode(p)), Sender, p.senderId);
    ReadParty(Collapse(HeaderNode(p)), Receiver, p.receiverId);
    DocumentFound(p);
    DocumentReads(p);
    VersionReads(p);
    ScopesFound(p);
    ScopesRead(p);
  }

  /** No embedded element is a header itself. */
  predicate OneHeader(embedded: seq<Xml>) {
    forall x <- embedded :: x.tag != StandardBusinessDocumentHeader
  }

  /** Building a header around any document and parsing it back gives the header, unless the document brings one along. */
  lemma ParseBuilt(p: Params, embedded: seq<Xml>)
    ensures ReadSbdh(BuildSbdh(p, embedded)) == Some(Expected(p)) <==> OneHeader(embedded)
  {
    hide Collapse, HeaderNode, Expected, ReadHeader;
    var e := BuildSbdh(p, embedded);
    HeaderKidsExist(p);
    CollapseNode(HeaderNode(p));
    if OneHeader(embedded) {
      assert forall i :: 0 < i < |e.kids| ==> e.kids[i] in embedded;
      PickKid(e, 0);
      HeaderReads(p);
    } else {
      TwoHeaders(p, embedded);
    }
  }

  /** A header that stands alone reads the same. */
  lemma ParseAlone(p: Params)
    ensures ReadSbdh(HeaderNode(p)) == Some(Expected(p))
  {
    hide Collapse, Expected, ReadHeader;
    HeaderKidsExist(p);
    CollapseNode(HeaderNode(p));
    NoHeaderInside(p);
    HeaderReads(p);
  }

  lemma NoHeaderInside(p: Params)
    ensures HeaderNode(p).tag == StandardBusinessDocumentHeader
    ensures Get1(Collapse(HeaderNode(p)), Child(StandardBusinessDocumentHeader)) == Undefined
  {
    hide Collapse, PartyNode, DocumentNode, Scopes, Prop;
    var e := HeaderNode(p);
    assert forall x <- e.kids :: x.tag != StandardBusinessDocumentHeader;
    CollapseOther(e.kids, StandardBusinessDocumentHeader);
    PropChild(e, StandardBusinessDocumentHeader);
  }

  predicate Empty(e: Xml) {
    e.attrs == [] && e.kids == [] && Content(e.raw) == ""
  }

  /** Parsing fails for want of a header: exactly when there is none where it belongs, or an empty one. */
  lemma HeaderWanted(root: Xml)
    ensures root.tag == StandardBusinessDocumentHeader ==> (ReadSbdh(root) == None <==> Empty(root))
    ensures root.tag != StandardBusinessDocumentHeader && (forall x <- root.kids :: x.tag != StandardBusinessDocumentHeader)
      ==> ReadSbdh(root) == None
    ensures root.tag == StandardBusinessDocument ==>
      forall j: nat :: j < |root.kids| && root.kids[j].tag == StandardBusinessDocumentHeader && OnlyKid(root, j, root.kids[j])
        ==> (ReadSbdh(root) == None <==> Empty(root.kids[j]))
    ensures root.tag !in {StandardBusinessDocument, StandardBusinessDocumentHeader} ==> ReadSbdh(root) == None
  {
    hide Collapse, Prop, ReadHeader;
    PropChild(root, StandardBusinessDocumentHeader);
    EmptyRead(root);
    if forall x <- root.kids :: x.tag != StandardBusinessDocumentHeader {
      CollapseOther(root.kids, StandardBusinessDocumentHeader);
    }
    forall j: nat | j < |root.kids| && OnlyKid(root, j, root.kids[j])
      ensures Prop(Collapse(root), Child(root.kids[j].tag)) == Collapse(root.kids[j])
      ensures Truthy(Collapse(root.kids[j])) <==> !Empty(root.kids[j])
    {
      KidFound(root, j, root.kids[j]);
      EmptyRead(root.kids[j]);
    }
  }

  lemma EmptyRead(e: Xml)
    ensures Truthy(Collapse(e)) <==> !Empty(e)
  {
    hide Content;
  }

  /** Several headers read as an array, which has none of a header's fields. */
  lemma TwoHeaders(p: Params, embedded: seq<Xml>)
    requires !OneHeader(embedded)
    ensures ReadSbdh(BuildSbdh(p, embedded)) != Some(Expected(p))
  {
    hide Collapse, HeaderNode, ReadHeader, CollapseNamed, Prop;
    var root, tag := BuildSbdh(p, embedded), StandardBusinessDocumentHeader;
    var headers := CollapseNamed(root.kids, tag);
    PropChild(root, tag);
    HeaderFirst(p, embedded);
    CollapseSome(embedded, tag);
    assert |headers| > 1;
    ArrayHasNoVersion(Group(headers));
    assert ReadSbdh(root) == Some(ReadHeader(Group(headers)));
  }

  lemma HeaderFirst(p: Params, embedded: seq<Xml>)
    ensures var tag := StandardBusinessDocumentHeader;
      CollapseNamed(BuildSbdh(p, embedded).kids, tag) == [Collapse(HeaderNode(p))] + CollapseNamed(embedded, tag)
  {
    hide Collapse, HeaderNode;
    var h := HeaderNode(p);
    assert [h][1..] == [];
    CollapseConcat([h], embedded, StandardBusinessDocumentHeader);
  }

  lemma ArrayHasNoVersion(header: Js)
    requires header.Arr?
    ensures ReadHeader(header).typeVersion != "2.0"
  {
    hide ParticipantOf, ScopeValue, ScopesOf;
    assert Get1(header, Child(DocumentIdentification)) == Undefined;
    assert TextOf(Undefined, TypeVersion) == Undefined;
  }

  lemma HeaderKidsExist(p: Params)
    ensures HeaderNode(p).kids != []
  {
  }

  // ----- ids

  lemma TrimEnds(v: string)
    requires Trim(v) != ""
    ensures Trim(CANONICAL + ":" + Trim(v)) == CANONICAL + ":" + Trim(v)
  {
    TrimStarts(v);
    var s := CANONICAL + ":" + Trim(v);
    assert s[0] == 'I';
    assert s[|s| - 1] == Trim(v)[|Trim(v)| - 1];
    TrimFixed(s);
  }

  lemma CanonicalHasNoColon()
    ensures ':' !in CANONICAL && CANONICAL != ISO6523
  {
    assert CANONICAL[0] == 'I' && ISO6523[0] == 'i';
  }

  /** The value of a result is the value it was built from. */
  lemma ValueOfResult(v: string)
    requires v != "" && Trim(v) == v
    ensures Value(CANONICAL + ":" + v) == v
  {
    hide Trim, Before, After;
    var s, c: string := CANONICAL + ":" + v, CANONICAL;
    TrimEnds(v);
    CanonicalHasNoColon();
    assert s == c + (":" + v) && (":" + v)[1..] == v;
    SplitParts(c, ':', ":" + v);
    assert s[|c|] == ':';
  }

  /** The standard named is that of a credit note for the document type CreditNote, and of an invoice for any other. */
  lemma StandardNamed(documentType: string)
    ensures StandardName(documentType)
      == "urn:oasis:names:specification:ubl:schema:xsd:" + if documentType == "CreditNote" then "CreditNote-2" else "Invoice-2"
  {
    assert "CreditNote" + "-2" == "CreditNote-2" && "Invoice" + "-2" == "Invoice-2";
    var space := "urn:oasis:names:specification:ubl:schema:xsd:";
    assert space + "CreditNote" + "-2" == space + ("CreditNote" + "-2");
    assert space + "Invoice" + "-2" == space + ("Invoice" + "-2");
  }

  lemma {:induction false} ZerosStripped(s: string)
    ensures exists n: nat :: n <= |s| && StripZeros(s) == s[n..] && (forall i :: 0 <= i < n ==> s[i] == '0') && (n < |s| ==> s[n] != '0')
  {
    if s != "" && s[0] == '0' {
      ZerosStripped(s[1..]);
      var n: nat :| n <= |s[1..]| && StripZeros(s[1..]) == s[1..][n..] && (forall i :: 0 <= i < n ==> s[1..][i] == '0')
        && (n < |s[1..]| ==> s[1..][n] != '0');
      assert s[1..][n..] == s[n + 1..];
      forall i | 0 <= i < n + 1 ensures s[i] == '0' {
        assert i > 0 ==> s[i] == s[1..][i - 1];
      }
    } else {
      assert s[0..] == s;
    }
  }

  /** `v` is `s` without the zeros it starts with, or a single one if it is nothing else. */
  predicate Unpadded(s: string, v: string) {
    exists n: nat :: n <= |s| && (forall i :: 0 <= i < n ==> s[i] == '0')
      && if n == |s| then v == "0" else s[n] != '0' && v == s[n..]
  }

  /** Split at the first colon. */
  predicate Splits(id: string, scheme: string, value: string) {
    ':' !in scheme && Trim(id) == scheme + ":" + value
  }

  lemma SchemeSent(id: string, scheme: string, value: string)
    requires Splits(id, scheme, value)
    ensures scheme == ISO6523 ==> Unpadded(value, Value(id))
    ensures scheme != ISO6523 ==> Value(id) == value
  {
    hide Trim, Before, After, ISO6523, StripZeros;
    var tail := ":" + value;
    assert Trim(id) == scheme + tail && tail[1..] == value;
    SplitParts(scheme, ':', tail);
    assert Trim(id)[|scheme|] == ':';
    ZerosStripped(value);
  }

  /**
   * What is sent for an id: without a colon the id itself, trimmed; otherwise what follows the first colon, without leading
   * zeros under the generic scheme and as it is under any other.
   */
  lemma ValueSent(id: string)
    ensures ':' !in Trim(id) ==> Value(id) == Trim(id)
    ensures forall scheme, value :: Splits(id, scheme, value) ==>
      if scheme == "iso6523-actorid-upis" then Unpadded(value, Value(id)) else Value(id) == value
  {
    hide Trim, Before, After, Unpadded, StripZeros, Splits;
    forall scheme, value | Splits(id, scheme, value)
      ensures if scheme == "iso6523-actorid-upis" then Unpadded(value, Value(id)) else Value(id) == value
    {
      SchemeSent(id, scheme, value);
    }
  }

  /** `toUpperCase` letter by letter. */
  lemma {:induction false} UpperIs(s: string)
    ensures |Upper(s)| == |s|
    ensures forall i :: 0 <= i < |s| ==>
      if 'a' <= s[i] <= 'z' then Upper(s)[i] as int == s[i] as int - 32 else Upper(s)[i] == s[i]
  {
    if s != "" {
      UpperIs(s[1..]);
    }
  }

  /** A type version that is there and not 2.0 is worth a remark, and nothing else is. */
  lemma VersionRemarked(header: Js)
    ensures ReadHeader(header).errors == if ReadHeader(header).typeVersion in {"", "2.0"} then 0 else 1
  {
    hide ParticipantOf, ScopeValue, ScopesOf, TextOf;
  }

  /** A second pass through building and parsing changes no participant id. */
  lemma SecondPass(id: string)
    ensures PrefixedId(PrefixedId(id)) == PrefixedId(id)
  {
    hide Value, Trim;
    TrimTwice(Value(id));
    if Trim(Value(id)) != "" {
      ValueOfResult(Trim(Value(id)));
    } else {
      EmptyValue();
    }
  }

  lemma EmptyValue()
    ensures Trim(Value("")) == ""
  {
  }

  /** Two ids give the same result exactly when their normalised values agree, whatever their schemes. */
  lemma SameResult(a: string, b: string)
    ensures PrefixedId(a) == PrefixedId(b) <==> Trim(Value(a)) == Trim(Value(b))
  {
    hide Value, Trim;
    var x, y, c: string := Trim(Value(a)), Trim(Value(b)), CANONICAL;
    assert (c + ":" + x)[|c| + 1..] == x && (c + ":" + y)[|c| + 1..] == y;
  }
}
