/** The three AS4 envelopes the access point writes, and the parser that reads them by text search. */
module As4Envelope {
  import opened Options
  import opened XmlText
  import opened TextSearch
  import opened As4Text
  import opened As4Search

  // ----- building blocks

  function Spaces(n: nat): (s: string)
    ensures Bracketless(s)
  {
    if n == 0 then "" else " " + Spaces(n - 1)
  }

  function Pad(n: nat): (t: Token)
    ensures t.Text? && Bracketless(t.s)
  {
    Text("\n" + Spaces(n))
  }

  function Break(): (t: Token)
    ensures t.Text? && Bracketless(t.s)
  {
    Text("\n")
  }

  function Plain(l: Label): Mark {
    Open(l, NoAttrs)
  }

  /** Constant text without markup characters and line terminators. */
  predicate IsSimple(s: string) {
    forall i :: 0 <= i < |s| ==> s[i] != '<' && s[i] != '>' && s[i] != '&' && s[i] != '"' && s[i] != '\'' && !LineEnd(s[i])
  }

  type Simple = s: string | IsSimple(s) witness ""

  function Fuse(a: Simple, b: Simple): Simple {
    a + b
  }

  const DOCS: Simple := Fuse("http://docs.oasis-", "open.org/ebxml-msg/")
  const NS: Simple := Fuse("ebms/v3.0/ns/core/", "200704/")
  const CORE: Simple := Fuse(DOCS, NS)
  const INITIATOR: Simple := Fuse(CORE, "initiator")
  const RESPONDER: Simple := Fuse(CORE, "responder")
  const AGREEMENTS: Simple := Fuse("urn:fdc:peppol.eu:", "2017:agreements:")
  const AGREEMENT: Simple := Fuse(AGREEMENTS, "tia:ap_provider")
  const PLACEHOLDER: Simple := "test-cert-placeholder"
  const FAILURE: Simple := "failure"
  const DOC_NAMES: Simple := Fuse("urn:oasis:names:", "specification:ubl:")
  const DOC_SPACE: Simple := Fuse(DOC_NAMES, "schema:xsd:")
  const DOC_NORM: Simple := Fuse("##urn:cen.eu:en16931", ":2017#compliant")
  const DOC_PROFILE: Simple := Fuse("#urn:fdc:peppol.eu:", "2017:poacc:billing:")
  const DOC_SUFFIX: Simple := Fuse(Fuse(DOC_NORM, DOC_PROFILE), "3.0::2.1")

  function DocKind(documentType: string): Simple {
    if documentType == "credit_note" || documentType == "CreditNote" then "CreditNote" else "Invoice"
  }

  function DocTypeIdentifier(documentType: string): Simple {
    var kind := DocKind(documentType);
    Fuse(Fuse(Fuse(DOC_SPACE, kind), Fuse("-2::", kind)), DOC_SUFFIX)
  }

  const QNS: Simple := "busdox-docid-qns::"

  // ----- the user message

  datatype Fields = Fields(
    messageId: string, fromApId: string, toApId: string, senderParticipantId: string, receiverParticipantId: string,
    documentType: string, processId: string, timestamp: string)

  /** `eb:From` or `eb:To`: a party id and a role. */
  function PartyTokens(apId: string, role: Simple): seq<Token> {
    [Pad(12)] + Leaf(Open(PartyId, ApType), Esc(apId)) + ([Pad(12)] + Leaf(Plain(Role), role) + [Pad(10)])
  }

  /** Up to `eb:Messaging` and down from it. */
  function Top(spaces: Attrs, messaging: Attrs): seq<Token> {
    [Tag(Open(XmlDecl, Declared)), Break(), Tag(Open(Envelope, spaces)), Pad(2), Tag(Plain(Header)), Pad(4),
     Tag(Open(Messaging, messaging)), Pad(6)]
  }

  function SecurityTokens(): seq<Token> {
    [Tag(Open(Security, Must)), Pad(6)] + Leaf(Open(BinarySecurityToken, TokenTypes), PLACEHOLDER) + [Pad(4), Tag(Close(Security))]
  }

  function UserBottom(): seq<Token> {
    [Pad(4), Tag(Close(Messaging)), Pad(4)] + SecurityTokens()
    + [Pad(2), Tag(Close(Header)), Pad(2), Tag(Plain(Body)), Pad(4), Tag(Open(Include, XopSpace)), Pad(2), Tag(Close(Body)),
       Break(), Tag(Close(Envelope))]
  }

  const SENDER := Open(Property, SenderName)
  const RECIPIENT := Open(Property, RecipientName)

  function UserPieces(f: Fields): seq<seq<Token>> {
    [ Top(UserSpaces, Must),
      [Tag(Plain(UserMessage))],
      [Pad(8), Tag(Plain(MessageInfo)), Pad(10)],
      Leaf(Plain(Timestamp), Esc(f.timestamp)),
      [Pad(10)],
      Leaf(Plain(MessageId), Esc(f.messageId)),
      [Pad(8), Tag(Close(MessageInfo)), Pad(8), Tag(Plain(PartyInfo)), Pad(10)],
      Block(Plain(From), PartyTokens(f.fromApId, INITIATOR)),
      [Pad(10)],
      Block(Plain(To), PartyTokens(f.toApId, RESPONDER)),
      [Pad(8), Tag(Close(PartyInfo)), Pad(8), Tag(Plain(CollaborationInfo)), Pad(10)],
      Leaf(Plain(AgreementRef), AGREEMENT),
      [Pad(10)],
      Leaf(Open(Service, ProcessType), Esc(f.processId)),
      [Pad(10)],
      Leaf(Plain(Action), QNS + Esc(DocTypeIdentifier(f.documentType))),
      [Pad(8), Tag(Close(CollaborationInfo)), Pad(8), Tag(Plain(PayloadInfo)), Pad(10)],
      [Tag(Open(PartInfo, PayloadCid)), Pad(12), Tag(Plain(PartProperties)), Pad(14)],
      Leaf(SENDER, Esc(f.senderParticipantId)),
      [Pad(14)],
      Leaf(RECIPIENT, Esc(f.receiverParticipantId)),
      [Pad(12), Tag(Close(PartProperties)), Pad(10), Tag(Close(PartInfo)), Pad(8), Tag(Close(PayloadInfo)), Pad(6)],
      [Tag(Close(UserMessage))],
      UserBottom() ]
  }

  function Flatten(pieces: seq<seq<Token>>): seq<Token> {
    if pieces == [] then [] else pieces[0] + Flatten(pieces[1..])
  }

  /** The SOAP part of `buildAS4Message`. */
  function BuildUserMessage(f: Fields): string {
    Render(Flatten(UserPieces(f)))
  }

  // ----- signals

  function SignalBottom(): seq<Token> {
    [Pad(2), Tag(Close(Header)), Pad(2), Tag(Open(Body, Slash)), Break(), Tag(Close(Envelope))]
  }

  /** `buildAS4Error`: description, with the details on a line of their own, and an optional reference. */
  datatype Failure = Failure(code: string, message: string, details: string, refMessageId: string, timestamp: string, errorMessageId: string)

  function DescriptionText(e: Failure): string {
    Esc(e.message) + if e.details != "" then "\n" + Esc(e.details) else ""
  }

  function RefTokens(ref: string): seq<Token> {
    if ref != "" then Leaf(Plain(RefToMessageId), Esc(ref)) else []
  }

  function ErrorPieces(e: Failure): seq<seq<Token>> {
    [ Top(SignalSpaces, Must),
      [Tag(Plain(SignalMessage))],
      [Pad(8), Tag(Plain(MessageInfo)), Pad(10)],
      Leaf(Plain(Timestamp), Esc(e.timestamp)),
      [Pad(10)],
      Leaf(Plain(MessageId), Esc(e.errorMessageId)),
      [Pad(8), Tag(Close(MessageInfo)), Pad(8)],
      [Tag(Open(Error, ErrorAttrs(e.code)))],
      [Pad(10)] + Leaf(Plain(Severity), FAILURE) + [Pad(10)],
      Leaf(Plain(Description), DescriptionText(e)),
      [Pad(10)],
      RefTokens(e.refMessageId),
      [Pad(8)],
      [Tag(Close(Error))],
      [Pad(6)],
      [Tag(Close(SignalMessage))],
      [Pad(4)],
      [Tag(Close(Messaging))],
      [Pad(4)] + SecurityTokens() + SignalBottom() ]
  }

  function BuildError(e: Failure): string {
    Render(Flatten(ErrorPieces(e)))
  }

  /** `buildMDNReceipt`, whose values are written as they are. */
  datatype Mdn = Mdn(originalMessageId: string, receiptMessageId: string, timestamp: string)

  function MdnPieces(r: Mdn): seq<seq<Token>> {
    [ Top(SignalSpaces, NoAttrs),
      [Tag(Plain(SignalMessage))],
      [Pad(8), Tag(Plain(MessageInfo)), Pad(10)],
      Leaf(Plain(Timestamp), r.timestamp),
      [Pad(10)],
      Leaf(Plain(MessageId), r.receiptMessageId),
      [Pad(8), Tag(Close(MessageInfo)), Pad(8)],
      [Tag(Plain(Receipt))],
      [Pad(10)],
      Leaf(Plain(RefToMessageId), r.originalMessageId),
      [Pad(8)],
      [Tag(Close(Receipt))],
      [Pad(6)],
      [Tag(Close(SignalMessage))],
      [Pad(4)],
      [Tag(Close(Messaging))],
      [Pad(4), Tag(Open(Security, MustEmpty))] + SignalBottom() ]
  }

  function BuildMdn(r: Mdn): string {
    Render(Flatten(MdnPieces(r)))
  }

  // ----- the parser

  datatype Kind = NoSignal | IsSignal | IsUser

  datatype Soap = Soap(
    signalType: Kind, refMessageId: Option<string>, messageId: Option<string>, timestamp: Option<string>,
    fromApId: Option<string>, toApId: Option<string>, senderParticipantId: Option<string>,
    receiverParticipantId: Option<string>, processId: Option<string>, documentTypeIdentifier: Option<string>)

  /** A user message with a malformed id is rejected with EB:003. */
  datatype Outcome = Parsed(soap: Soap) | Rejected(messageId: string)

  const SPACE := Run(Space, false, false)

  /** `<\?xml[^>]*\?>\s*<[^>]*:Envelope[^>]*>` … `:Messaging` … `:SignalMessage` … and their end tags. */
  const SIGNAL_MESSAGE := [
    Lit("<?xml"), ATTRS, Lit("?>"), SPACE, Lit("<"), ATTRS, Lit(":Envelope"), ATTRS, Lit(">"),
    STRETCH, Lit("<"), ATTRS, Lit(":Messaging"), STRETCH, Lit("<"), ATTRS, Lit(":SignalMessage"),
    STRETCH, Lit("</"), ATTRS, Lit(":SignalMessage"), STRETCH, Lit("</"), ATTRS, Lit(":Messaging>")]

  const USER_MESSAGE := [Lit("<"), ATTRS, Lit(":UserMessage"), STRETCH, Lit("</"), ATTRS, Lit(":UserMessage>")]

  function Classify(soap: string): Kind {
    if Test(soap, SIGNAL_MESSAGE) then IsSignal else if Test(soap, USER_MESSAGE) then IsUser else NoSignal
  }

  predicate Hex(s: string, from: nat, to: nat) {
    to <= |s| && forall i | from <= i < to :: '0' <= s[i] <= '9' || 'a' <= s[i] <= 'f'
  }

  /** `^uuid:[0-9a-f]{8}-[0-9a-f]{4}-[0-9a-f]{4}-[0-9a-f]{4}-[0-9a-f]{12}@[\w.-]+$` */
  predicate Uuid(s: string) {
    && |s| > 42 && s[..5] == "uuid:"
    && Hex(s, 5, 13) && s[13] == '-' && Hex(s, 14, 18) && s[18] == '-' && Hex(s, 19, 23) && s[23] == '-'
    && Hex(s, 24, 28) && s[28] == '-' && Hex(s, 29, 41) && s[41] == '@'
    && forall i | 42 <= i < |s| :: WordChar(s[i]) || s[i] == '.' || s[i] == '-'
  }

  function Find(soap: string, ps: seq<Piece>): Option<string> {
    Captured(Search(soap, ps))
  }

  /** The party id inside the first section of the name. */
  function FindParty(soap: string, m: Mark): Option<string> {
    match Search(soap, Section(m))
    case None => None
    case Some(section) => Find(section.all, LooseElement(PartyId, LINE))
  }

  function StripQns(action: string): string {
    if QNS <= action then action[|QNS|..] else action
  }

  function DocTypeOf(action: Option<string>): Option<string> {
    match action
    case None => None
    case Some(a) => Some(StripQns(a))
  }

  /** `/<eb:Error[^>]*\bcode="([^"]*)"[^>]*>/`; a boundary before `c` is a character that is not a word character. */
  const ERROR_CODE := [Lit("<" + Name(Error)), ATTRS, One(Border, false), Lit("code=\""), Run(NotQuote, false, true), Lit("\""), ATTRS, Lit(">")]

  function ReadSoap(soap: string): Outcome {
    var kind := Classify(soap);
    var id := Find(soap, Element(Plain(MessageId)));
    if id.Some? && kind == IsUser && !Uuid(id.value) then Rejected(id.value)
    else
      Parsed(Soap(
        kind,
        Find(soap, Element(Plain(RefToMessageId))),
        id,
        Find(soap, Element(Plain(Timestamp))),
        FindParty(soap, Plain(From)),
        FindParty(soap, Plain(To)),
        Find(soap, Element(SENDER)),
        Find(soap, Element(RECIPIENT)),
        Find(soap, LooseElement(Service, LINE)),
        DocTypeOf(Find(soap, Element(Plain(Action))))))
  }

  /** `parseAS4Message` from the SOAP text on: the result is filled in field by field. */
  method ParseSoap(soap: string) returns (out: Outcome)
    ensures out == ReadSoap(soap)
  {
    hide Classify, Search, Captured, Element, Section, LooseElement, Uuid, StripQns;
    var r := Soap(NoSignal, None, None, None, None, None, None, None, None, None);
    r := r.(signalType := Classify(soap));
    var ref := Find(soap, Element(Plain(RefToMessageId)));
    if ref.Some? {
      r := r.(refMessageId := ref);
    }
    var id := Find(soap, Element(Plain(MessageId)));
    if id.Some? {
      if r.signalType == IsUser && !Uuid(id.value) {
        return Rejected(id.value);
      }
      r := r.(messageId := id);
    }
    r := r.(timestamp := Find(soap, Element(Plain(Timestamp))));
    var from := Search(soap, Section(Plain(From)));
    if from.Some? {
      r := r.(fromApId := Find(from.value.all, LooseElement(PartyId, LINE)));
    }
    var to := Search(soap, Section(Plain(To)));
    if to.Some? {
      r := r.(toApId := Find(to.value.all, LooseElement(PartyId, LINE)));
    }
    r := r.(senderParticipantId := Find(soap, Element(SENDER)));
    r := r.(receiverParticipantId := Find(soap, Element(RECIPIENT)));
    r := r.(processId := Find(soap, LooseElement(Service, LINE)));
    var action := Find(soap, Element(Plain(Action)));
    if action.Some? {
      r := r.(documentTypeIdentifier := Some(StripQns(action.value)));
    }
    return Parsed(r);
  }
}
