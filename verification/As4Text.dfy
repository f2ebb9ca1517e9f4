/** The tags and texts the AS4 envelopes are made of, and where a search for an element can find one. */
module As4Text {
  import opened XmlText
  import opened TextSearch

  // ----- tags

  datatype Label =
    | XmlDecl | Envelope | Header | Body | Messaging | UserMessage | SignalMessage | MessageInfo | Timestamp | MessageId
    | PartyInfo | From | To | PartyId | Role | CollaborationInfo | AgreementRef | Service | Action
    | PayloadInfo | PartInfo | PartProperties | Property
    | Receipt | Error | Severity | Description | RefToMessageId
    | Security | BinarySecurityToken | Include

  predicate IsWord(s: string) {
    forall i :: 0 <= i < |s| ==> s[i] != '<' && s[i] != '>' && s[i] != '/'
  }

  type Word = s: string | IsWord(s) witness ""

  function Name(l: Label): Word {
    match l
    case XmlDecl => "?xml"
    case Envelope => "soap:Envelope"
    case Header => "soap:Header"
    case Body => "soap:Body"
    case Messaging => "eb:Messaging"
    case UserMessage => "eb:UserMessage"
    case SignalMessage => "eb:SignalMessage"
    case MessageInfo => "eb:MessageInfo"
    case Timestamp => "eb:Timestamp"
    case MessageId => "eb:MessageId"
    case _ => PartName(l)
  }

  function PartName(l: Label): Word {
    match l
    case PartyInfo => "eb:PartyInfo"
    case From => "eb:From"
    case To => "eb:To"
    case PartyId => "eb:PartyId"
    case Role => "eb:Role"
    case CollaborationInfo => "eb:CollaborationInfo"
    case AgreementRef => "eb:AgreementRef"
    case Service => "eb:Service"
    case Action => "eb:Action"
    case PayloadInfo => "eb:PayloadInfo"
    case PartInfo => "eb:PartInfo"
    case PartProperties => "eb:PartProperties"
    case Property => "eb:Property"
    case _ => SignalName(l)
  }

  function SignalName(l: Label): Word {
    match l
    case Receipt => "eb:Receipt"
    case Error => "eb:Error"
    case Severity => "eb:Severity"
    case Description => "eb:Description"
    case RefToMessageId => "eb:RefToMessageId"
    case Security => "wsse:Security"
    case BinarySecurityToken => "wsse:BinarySecurityToken"
    case Include => "xop:Include"
    case _ => ""
  }

  /** The label a tag's text starts with, read off a few of its characters. */
  function Guess(s: string): Label
    requires |s| >= 4
  {
    var c3, c4, c5 := s[3], At(s, 4), At(s, 5);
    if s[0] == '?' then XmlDecl
    else if s[0] == 's' then (if c5 == 'E' then Envelope else if c5 == 'H' then Header else Body)
    else if s[0] == 'w' then (if c5 == 'S' then Security else BinarySecurityToken)
    else if s[0] == 'x' then Include
    else if c3 == 'M' then (if At(s, 9) == 'i' then Messaging else if At(s, 11) == 'n' then MessageInfo else MessageId)
    else if c3 == 'U' then UserMessage
    else if c3 == 'T' then (if c4 == 'i' then Timestamp else To)
    else if c3 == 'F' then From
    else if c3 == 'C' then CollaborationInfo
    else if c3 == 'A' then (if c4 == 'g' then AgreementRef else Action)
    else if c3 == 'D' then Description
    else if c3 == 'E' then Error
    else if c3 == 'R' then (if c4 == 'o' then Role else if c5 == 'c' then Receipt else RefToMessageId)
    else if c3 == 'S' then (if c4 == 'i' then SignalMessage else if c5 == 'r' then Service else Severity)
    else if c4 == 'r' then Property
    else if c5 == 'y' then PayloadInfo
    else if At(s, 7) == 'P' then PartProperties
    else if At(s, 9) == 'f' then PartInfo
    else if At(s, 9) == 'n' then PartyInfo
    else PartyId
  }

  function At(s: string, i: nat): char {
    if i < |s| then s[i] else ' '
  }

  lemma HeaderNameStarts(l: Label, rest: string)
    requires l.XmlDecl? || l.Envelope? || l.Header? || l.Body? || l.Messaging? || l.UserMessage? || l.SignalMessage? || l.MessageInfo? || l.Timestamp? || l.MessageId?
    ensures |Name(l)| >= 4 && Guess(Name(l) + rest) == l
  {
    var s := Name(l) + rest;
    match l
    case XmlDecl => assert s[0] == '?';
    case Envelope => assert s[0] == 's' && s[5] == 'E';
    case Header => assert s[0] == 's' && s[5] == 'H';
    case Body => assert s[0] == 's' && s[5] == 'B';
    case Messaging => assert s[0] == 'e' && s[3] == 'M' && s[9] == 'i';
    case UserMessage => assert s[0] == 'e' && s[3] == 'U';
    case SignalMessage => assert s[0] == 'e' && s[3] == 'S' && s[4] == 'i';
    case MessageInfo => assert s[0] == 'e' && s[3] == 'M' && s[9] == 'e' && s[11] == 'n';
    case Timestamp => assert s[0] == 'e' && s[3] == 'T' && s[4] == 'i';
    case MessageId => assert s[0] == 'e' && s[3] == 'M' && s[9] == 'e' && s[11] == 'd';
  }

  lemma PartyNameStarts(l: Label, rest: string)
    requires l.PartyInfo? || l.From? || l.To? || l.PartyId? || l.Role? || l.CollaborationInfo? || l.AgreementRef?
    ensures |Name(l)| >= 4 && Guess(Name(l) + rest) == l
  {
    var s := Name(l) + rest;
    match l
    case PartyInfo => assert s[0] == 'e' && s[3] == 'P' && s[4] == 'a' && s[5] == 'r' && s[7] == 'y' && s[9] == 'n';
    case From => assert s[0] == 'e' && s[3] == 'F';
    case To => assert s[0] == 'e' && s[3] == 'T' && s[4] == 'o';
    case PartyId => assert s[0] == 'e' && s[3] == 'P' && s[4] == 'a' && s[5] == 'r' && s[7] == 'y' && s[9] == 'd';
    case Role => assert s[0] == 'e' && s[3] == 'R' && s[4] == 'o';
    case CollaborationInfo => assert s[0] == 'e' && s[3] == 'C';
    case AgreementRef => assert s[0] == 'e' && s[3] == 'A' && s[4] == 'g';
  }

  lemma PayloadNameStarts(l: Label, rest: string)
    requires l.Service? || l.Action? || l.PayloadInfo? || l.PartInfo? || l.PartProperties? || l.Property?
    ensures |Name(l)| >= 4 && Guess(Name(l) + rest) == l
  {
    var s := Name(l) + rest;
    match l
    case Service => assert s[0] == 'e' && s[3] == 'S' && s[4] == 'e' && s[5] == 'r';
    case Action => assert s[0] == 'e' && s[3] == 'A' && s[4] == 'c';
    case PayloadInfo => assert s[0] == 'e' && s[3] == 'P' && s[4] == 'a' && s[5] == 'y';
    case PartInfo => assert s[0] == 'e' && s[3] == 'P' && s[4] == 'a' && s[5] == 'r' && s[7] == 'I' && s[9] == 'f';
    case PartProperties => assert s[0] == 'e' && s[3] == 'P' && s[4] == 'a' && s[5] == 'r' && s[7] == 'P';
    case Property => assert s[0] == 'e' && s[3] == 'P' && s[4] == 'r';
  }

  lemma SignalNameStarts(l: Label, rest: string)
    requires l.Receipt? || l.Error? || l.Severity? || l.Description? || l.RefToMessageId?
    ensures |Name(l)| >= 4 && Guess(Name(l) + rest) == l
  {
    var s := Name(l) + rest;
    match l
    case Receipt => assert s[0] == 'e' && s[3] == 'R' && s[4] == 'e' && s[5] == 'c';
    case Error => assert s[0] == 'e' && s[3] == 'E';
    case Severity => assert s[0] == 'e' && s[3] == 'S' && s[4] == 'e' && s[5] == 'v';
    case Description => assert s[0] == 'e' && s[3] == 'D';
    case RefToMessageId => assert s[0] == 'e' && s[3] == 'R' && s[4] == 'e' && s[5] == 'f';
  }

  lemma SecurityNameStarts(l: Label, rest: string)
    requires l.Security? || l.BinarySecurityToken? || l.Include?
    ensures |Name(l)| >= 4 && Guess(Name(l) + rest) == l
  {
    var s := Name(l) + rest;
    match l
    case Security => assert s[0] == 'w' && s[5] == 'S';
    case BinarySecurityToken => assert s[0] == 'w' && s[5] == 'B';
    case Include => assert s[0] == 'x';
  }

  /** No label starts like another one. */
  lemma NameStarts(l: Label, rest: string)
    ensures |Name(l)| >= 4 && Guess(Name(l) + rest) == l
  {
    hide Guess, Name;
    match l
    case XmlDecl | Envelope | Header | Body | Messaging | UserMessage | SignalMessage | MessageInfo | Timestamp | MessageId => HeaderNameStarts(l, rest);
    case PartyInfo | From | To | PartyId | Role | CollaborationInfo | AgreementRef => PartyNameStarts(l, rest);
    case Service | Action | PayloadInfo | PartInfo | PartProperties | Property => PayloadNameStarts(l, rest);
    case Receipt | Error | Severity | Description | RefToMessageId => SignalNameStarts(l, rest);
    case Security | BinarySecurityToken | Include => SecurityNameStarts(l, rest);
  }

  // ----- attributes

  /** Constant text that opens or closes no tag and has no capital M (so it cannot say `:SignalMessage`). */
  predicate IsQuiet(s: string) {
    forall i :: 0 <= i < |s| ==> s[i] != '<' && s[i] != '>' && s[i] != 'M'
  }

  type Quiet = s: string | IsQuiet(s) witness ""

  function Glue(a: Quiet, b: Quiet): Quiet {
    a + b
  }

  const OASIS: Quiet := Glue("http://docs.oasis-", "open.org/")
  const EBMS: Quiet := Glue(Glue(OASIS, "ebxml-msg/ebms/v3.0/"), "ns/core/200704/")
  const WSS: Quiet := Glue(OASIS, "wss/2004/01/oasis-")
  const WSS_2004: Quiet := Glue(WSS, "200401-wss-")
  const WSU: Quiet := Glue(WSS_2004, "wssecurity-utility-1.0.xsd")
  const WSSE: Quiet := Glue(WSS_2004, "wssecurity-secext-1.0.xsd")
  const W3: Quiet := "http://www.w3.org/"
  const SOAP: Quiet := Glue(W3, "2003/05/soap-envelope")
  const XOP: Quiet := Glue(W3, "2004/08/xop/include")
  const XMLDSIG: Quiet := Glue(W3, "2000/09/xmldsig#")
  const SECURITY_1: Quiet := Glue(WSS_2004, "soap-message-security-1.0")
  const TOKEN_1: Quiet := Glue(WSS_2004, "x509-token-profile-1.0")
  const MARGIN: Quiet := "\n               "
  const MUST_UNDERSTAND: Quiet := Glue(" soap:mustUnder", "stand=\"true\"")
  const SLASH: Quiet := "/"
  const CID: Quiet := " href=\"cid:payload@sender\""

  function Xmlns(prefix: Quiet, uri: Quiet): Quiet {
    Glue(Glue(Glue("xmlns:", prefix), "=\""), Glue(uri, "\""))
  }

  function Next(attrs: Quiet, prefix: Quiet, uri: Quiet): Quiet {
    Glue(Glue(attrs, MARGIN), Xmlns(prefix, uri))
  }

  const AP_TYPE: Quiet := Glue(" type=\"urn:fdc:peppol", ".eu:2017:identifiers:ap\"")
  const PROCESS_TYPE: Quiet := Glue(" type=\"cenbii-", "procid-ubl\"")
  const SENDER_NAME: Quiet := " name=\"originalSender\""
  const RECIPIENT_NAME: Quiet := " name=\"finalRecipient\""
  const DECLARATION: Quiet := Glue(" version=\"1.0\"", " encoding=\"UTF-8\"")
  const ENCODING_TYPE: Quiet := Glue(Glue(" EncodingType=\"", SECURITY_1), "#Base64Binary\" ")
  const VALUE_TYPE: Quiet := Glue(Glue("ValueType=\"", TOKEN_1), "#X509v3\"")
  const CATEGORY: Quiet := Glue(Glue(" category=\"urn:oasis", ":names:ebxml-msg:errors"), ":ebms\"")
  const ERROR_CATEGORY: Quiet := Glue(CATEGORY, " code=\"")
  const SOAP_EB: Quiet := Next(Glue(" ", Xmlns("soap", SOAP)), "eb", EBMS)
  const USER_SPACES: Quiet := Next(Next(Next(Next(SOAP_EB, "wsu", WSU), "wsse", WSSE), "xop", XOP), "ds", XMLDSIG)
  const SIGNAL_SPACES: Quiet := Next(Next(Next(SOAP_EB, "wsse", WSSE), "wsu", WSU), "ds", XMLDSIG)
  const XOP_SPACE: Quiet := Glue(Glue(" ", Xmlns("xop", XOP)), Glue(CID, SLASH))

  datatype Attrs =
    | NoAttrs | Slash | Declared | UserSpaces | SignalSpaces | Must | MustEmpty | ApType | ProcessType
    | SenderName | RecipientName | PayloadCid | TokenTypes | XopSpace
    | ErrorAttrs(code: string)

  function FixedAttrs(a: Attrs): Quiet {
    match a
    case NoAttrs => ""
    case Slash => SLASH
    case Declared => Glue(DECLARATION, "?")
    case UserSpaces => USER_SPACES
    case SignalSpaces => SIGNAL_SPACES
    case Must => MUST_UNDERSTAND
    case MustEmpty => Glue(MUST_UNDERSTAND, SLASH)
    case ApType => AP_TYPE
    case ProcessType => PROCESS_TYPE
    case SenderName => SENDER_NAME
    case RecipientName => RECIPIENT_NAME
    case PayloadCid => CID
    case TokenTypes => Glue(ENCODING_TYPE, VALUE_TYPE)
    case XopSpace => XOP_SPACE
    case ErrorAttrs(_) => ERROR_CATEGORY
  }

  function AttrText(a: Attrs): string {
    match a
    case ErrorAttrs(code) => FixedAttrs(a) + Esc(code) + "\""
    case _ => FixedAttrs(a)
  }

  lemma AttrTextBracketless(a: Attrs)
    ensures Bracketless(AttrText(a))
  {
    hide FixedAttrs;
    match a
    case ErrorAttrs(code) => EscHasNoMarkup(code);
    case _ =>
  }

  // ----- tags and tokens

  datatype Mark = Open(l: Label, a: Attrs) | Close(l: Label)

  function Inner(m: Mark): string {
    match m
    case Open(l, a) => Name(l) + AttrText(a)
    case Close(l) => "/" + Name(l)
  }

  datatype Token = Tag(m: Mark) | Text(s: string)

  function Show(t: Token): string {
    match t
    case Tag(m) => Angle(Inner(m))
    case Text(s) => s
  }

  function Render(ts: seq<Token>): string {
    if ts == [] then "" else Show(ts[0]) + Render(ts[1..])
  }

  lemma {:induction false} RenderConcat(a: seq<Token>, b: seq<Token>)
    ensures Render(a + b) == Render(a) + Render(b)
  {
    if a == [] {
      assert a + b == b;
    } else {
      assert (a + b)[0] == a[0] && (a + b)[1..] == a[1..] + b;
      RenderConcat(a[1..], b);
    }
  }

  lemma InnerBracketless(m: Mark)
    ensures Bracketless(Inner(m))
  {
    hide Name, AttrText;
    match m
    case Open(l, a) => AttrTextBracketless(a);
    case Close(l) =>
  }
}
