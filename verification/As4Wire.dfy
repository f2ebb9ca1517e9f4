/** The parts of a user message in the text that goes out. */
module As4Wire {
  import opened XmlText
  import opened TextSearch
  import opened As4Text
  import opened As4Search
  import opened As4Envelope
  import opened As4Reading
  import opened As4RoundTrip

  // ----- message ids

  predicate HexDigits(s: string, n: nat) {
    |s| == n && forall c <- s :: '0' <= c <= '9' || 'a' <= c <= 'f'
  }

  predicate HostName(s: string) {
    s != "" && forall c <- s :: 'a' <= c <= 'z' || 'A' <= c <= 'Z' || '0' <= c <= '9' || c == '_' || c == '.' || c == '-'
  }

  /** Five groups of hexadecimal digits and a host. */
  predicate Grouped(s: string, a: string, b: string, c: string, d: string, e: string, host: string) {
    && HexDigits(a, 8) && HexDigits(b, 4) && HexDigits(c, 4) && HexDigits(d, 4) && HexDigits(e, 12) && HostName(host)
    && s == "uuid:" + a + "-" + b + "-" + c + "-" + d + "-" + e + "@" + host
  }

  lemma HexPart(s: string, from: nat, a: string, n: nat)
    requires HexDigits(a, n) && from + n <= |s| && s[from..from + n] == a
    ensures Hex(s, from, from + n)
  {
    forall i | from <= i < from + n ensures '0' <= s[i] <= '9' || 'a' <= s[i] <= 'f' {
      assert s[i] == a[i - from] && a[i - from] in a;
    }
  }

  lemma HostPart(s: string, host: string)
    requires HostName(host) && |s| > 42 && s[42..] == host
    ensures forall i | 42 <= i < |s| :: WordChar(s[i]) || s[i] == '.' || s[i] == '-'
  {
    forall i | 42 <= i < |s| ensures WordChar(s[i]) || s[i] == '.' || s[i] == '-' {
      assert s[i] == host[i - 42] && host[i - 42] in host;
    }
  }

  lemma GroupedIs(s: string, a: string, b: string, c: string, d: string, e: string, host: string)
    requires Grouped(s, a, b, c, d, e, host)
    ensures Uuid(s)
  {
    assert s[..5] == "uuid:" && s[5..13] == a && s[14..18] == b && s[19..23] == c && s[24..28] == d && s[29..41] == e && s[42..] == host;
    assert s[13] == s[18] == s[23] == s[28] == '-' && s[41] == '@';
    hide Hex, HexDigits, HostName, WordChar;
    HexPart(s, 5, a, 8);
    HexPart(s, 14, b, 4);
    HexPart(s, 19, c, 4);
    HexPart(s, 24, d, 4);
    HexPart(s, 29, e, 12);
    HostPart(s, host);
  }

  lemma Cut(s: string, i: nat, j: nat)
    requires i <= j <= |s|
    ensures s[i..] == s[i..j] + s[j..]
  {
  }

  lemma CutOne(s: string, i: nat, c: char)
    requires i < |s| && s[i] == c
    ensures s[i..] == [c] + s[i + 1..]
  {
  }

  lemma CutUp(s: string)
    requires |s| > 42 && s[..5] == "uuid:" && s[13] == s[18] == s[23] == s[28] == '-' && s[41] == '@'
    ensures s == "uuid:" + (s[5..13] + ("-" + (s[14..18] + ("-" + (s[19..23] + ("-" + (s[24..28] + ("-" + (s[29..41] + ("@" + s[42..]))))))))))
  {
    assert s == s[..5] + s[5..];
    Cut(s, 5, 13);
    CutOne(s, 13, '-');
    Cut(s, 14, 18);
    CutOne(s, 18, '-');
    Cut(s, 19, 23);
    CutOne(s, 23, '-');
    Cut(s, 24, 28);
    CutOne(s, 28, '-');
    Cut(s, 29, 41);
    CutOne(s, 41, '@');
  }

  lemma HexCut(s: string, from: nat, n: nat)
    requires from + n <= |s| && Hex(s, from, from + n)
    ensures HexDigits(s[from..from + n], n)
  {
    var a := s[from..from + n];
    forall c | c in a ensures '0' <= c <= '9' || 'a' <= c <= 'f' {
      var i :| 0 <= i < n && a[i] == c;
      assert c == s[from + i];
    }
  }

  lemma HostCut(s: string)
    requires |s| > 42 && forall i | 42 <= i < |s| :: WordChar(s[i]) || s[i] == '.' || s[i] == '-'
    ensures HostName(s[42..])
  {
    var host := s[42..];
    forall c | c in host ensures WordChar(c) || c == '.' || c == '-' {
      var i :| 0 <= i < |host| && host[i] == c;
      assert c == s[42 + i];
    }
  }

  lemma UuidGrouped(s: string) returns (a: string, b: string, c: string, d: string, e: string, host: string)
    requires Uuid(s)
    ensures Grouped(s, a, b, c, d, e, host)
  {
    hide Hex, HexDigits, HostName;
    a, b, c, d, e, host := s[5..13], s[14..18], s[19..23], s[24..28], s[29..41], s[42..];
    CutUp(s);
    Regrouped("uuid:", a, "-", b, c, d, e, "@", host);
    HexCut(s, 5, 8);
    HexCut(s, 14, 4);
    HexCut(s, 19, 4);
    HexCut(s, 24, 4);
    HexCut(s, 29, 12);
    HostCut(s);
  }

  lemma Regrouped(u: string, a: string, h: string, b: string, c: string, d: string, e: string, t: string, host: string)
    ensures u + (a + (h + (b + (h + (c + (h + (d + (h + (e + (t + host)))))))))) == u + a + h + b + h + c + h + d + h + e + t + host
  {
  }

  /** The ids a user message is accepted with. */
  lemma UuidForm(s: string)
    ensures Uuid(s) <==> exists a, b, c, d, e, host :: Grouped(s, a, b, c, d, e, host)
  {
    hide Uuid, Grouped;
    if Uuid(s) {
      var a, b, c, d, e, host := UuidGrouped(s);
    }
    if a, b, c, d, e, host :| Grouped(s, a, b, c, d, e, host) {
      GroupedIs(s, a, b, c, d, e, host);
    }
  }

  // ----- elements

  ghost predicate Contains(s: string, t: string) {
    exists a: string, b: string :: Around(s, a, t, b)
  }

  predicate Around(s: string, a: string, t: string, b: string) {
    s == a + t + b
  }

  function Tagged(name: string, attrs: string, text: string): string {
    "<" + name + attrs + ">" + text + "</" + name + ">"
  }

  lemma LeafText(l: Label, a: Attrs, v: string)
    ensures Render(Leaf(Open(l, a), v)) == Tagged(Name(l), AttrText(a), v)
  {
    hide Name, AttrText, Render, Leaf;
    RenderLeaf(Open(l, a), v);
    assert Angle(Name(l) + AttrText(a)) == "<" + Name(l) + AttrText(a) + ">";
    assert Angle("/" + Name(l)) == "</" + Name(l) + ">";
    assert "<" + Name(l) + AttrText(a) + ">" + v + ("</" + Name(l) + ">") == Tagged(Name(l), AttrText(a), v);
  }

  lemma PieceSent(f: Fields, j: nat)
    requires |UserPieces(f)| == 24 && j < 24
    ensures Contains(BuildUserMessage(f), Render(UserPieces(f)[j]))
  {
    hide UserPieces, Flatten, Render;
    var pieces := UserPieces(f);
    FlattenAt(pieces, j);
    var a, b := Flatten(pieces[..j]), Flatten(pieces[j + 1..]);
    RenderConcat(a + pieces[j], b);
    RenderConcat(a, pieces[j]);
    assert Around(BuildUserMessage(f), Render(a), Render(pieces[j]), Render(b));
  }

  lemma InfoNames()
    ensures Name(Timestamp) == "eb:Timestamp" && Name(MessageId) == "eb:MessageId"
  {
  }

  lemma PartyNames()
    ensures Name(From) == "eb:From" && Name(To) == "eb:To" && Name(PartyId) == "eb:PartyId" && Name(Role) == "eb:Role"
  {
  }

  lemma CollaborationNames()
    ensures Name(AgreementRef) == "eb:AgreementRef" && Name(Service) == "eb:Service" && Name(Action) == "eb:Action"
    ensures Name(Property) == "eb:Property"
  {
  }

  /** The time and the id of the message. */
  lemma InfoSent(f: Fields)
    ensures Contains(BuildUserMessage(f), Tagged("eb:Timestamp", "", Esc(f.timestamp)))
    ensures Contains(BuildUserMessage(f), Tagged("eb:MessageId", "", Esc(f.messageId)))
  {
    hide UserPieces, BuildUserMessage, Contains, Name, Tagged, Leaf, Render, Esc, DocTypeIdentifier;
    InfoNames();
    UserLeaves(f);
    NoAttributes();
    LeafText(Timestamp, NoAttrs, Esc(f.timestamp));
    LeafText(MessageId, NoAttrs, Esc(f.messageId));
    PieceSent(f, 3);
    PieceSent(f, 5);
  }

  lemma NoAttributes()
    ensures AttrText(NoAttrs) == ""
  {
  }

  // ----- the two access points

  /** An access point with its role. */
  function PartyText(name: string, apId: string, role: string): string {
    Tagged(name, "",
      Pad(12).s + Tagged("eb:PartyId", " type=\"urn:fdc:peppol" + ".eu:2017:identifiers:ap\"", Esc(apId))
      + Pad(12).s + Tagged("eb:Role", "", "http://docs.oasis-" + "open.org/ebxml-msg/" + ("ebms/v3.0/ns/core/" + "200704/") + role)
      + Pad(10).s)
  }

  lemma PartyRendered(l: Label, apId: string, role: Simple)
    requires l == From || l == To
    ensures Render(Block(Plain(l), PartyTokens(apId, role)))
      == Tagged(Name(l), "", Pad(12).s + Tagged(Name(PartyId), AttrText(ApType), Esc(apId))
                             + Pad(12).s + Tagged(Name(Role), "", role) + Pad(10).s)
  {
    hide Name, AttrText, Render, Leaf, Pad, Esc, Tagged;
    var id, roleLeaf := Leaf(Open(PartyId, ApType), Esc(apId)), Leaf(Plain(Role), role);
    var ts := PartyTokens(apId, role);
    assert ts == [Pad(12)] + id + ([Pad(12)] + roleLeaf + [Pad(10)]);
    RenderBlock(Plain(l), ts);
    RenderConcat([Pad(12)] + id, [Pad(12)] + roleLeaf + [Pad(10)]);
    RenderConcat([Pad(12)], id);
    RenderConcat([Pad(12)] + roleLeaf, [Pad(10)]);
    RenderConcat([Pad(12)], roleLeaf);
    RenderOne(Pad(12));
    RenderOne(Pad(10));
    LeafText(PartyId, ApType, Esc(apId));
    LeafText(Role, NoAttrs, role);
    NoAttributes();
    assert Inner(Plain(l)) == Name(l) + "" == Name(l);
    BlockText(Name(l), Render(ts));
    assert Show(Pad(12)) == Pad(12).s && Show(Pad(10)) == Pad(10).s;
    var p, q, r, s := Pad(12).s, Tagged(Name(PartyId), AttrText(ApType), Esc(apId)), Tagged(Name(Role), "", role), Pad(10).s;
    assert Render(ts) == (p + q) + ((p + r) + s) == p + q + p + r + s;
  }

  lemma BlockText(name: string, text: string)
    ensures Angle(name) + text + Angle("/" + name) == Tagged(name, "", text)
  {
    assert Angle(name) == "<" + name + "" + ">" && Angle("/" + name) == "</" + name + ">";
    assert "<" + name + "" + ">" + text + ("</" + name + ">") == Tagged(name, "", text);
  }

  lemma Roles()
    ensures INITIATOR == "http://docs.oasis-" + "open.org/ebxml-msg/" + ("ebms/v3.0/ns/core/" + "200704/") + "initiator"
    ensures RESPONDER == "http://docs.oasis-" + "open.org/ebxml-msg/" + ("ebms/v3.0/ns/core/" + "200704/") + "responder"
    ensures AttrText(ApType) == " type=\"urn:fdc:peppol" + ".eu:2017:identifiers:ap\""
  {
  }

  /** The sending access point goes out as the initiator and the receiving one as the responder. */
  lemma PartiesSent(f: Fields)
    ensures Contains(BuildUserMessage(f), PartyText("eb:From", f.fromApId, "initiator"))
    ensures Contains(BuildUserMessage(f), PartyText("eb:To", f.toApId, "responder"))
  {
    hide UserPieces, BuildUserMessage, Contains, Name, Tagged, Block, PartyTokens, Render, Esc, AttrText, Pad, INITIATOR, RESPONDER;
    PartyNames();
    Roles();
    UserBlocks(f);
    PartyRendered(From, f.fromApId, INITIATOR);
    PartyRendered(To, f.toApId, RESPONDER);
    PieceSent(f, 7);
    PieceSent(f, 9);
  }

  // ----- what the message is for

  lemma CollaborationTexts()
    ensures AGREEMENT == "urn:fdc:peppol.eu:" + "2017:agreements:" + "tia:ap_provider" && QNS == "busdox-docid-qns::"
    ensures AttrText(ProcessType) == " type=\"cenbii-" + "procid-ubl\""
    ensures AttrText(SenderName) == " name=\"originalSender\"" && AttrText(RecipientName) == " name=\"finalRecipient\""
  {
  }

  lemma AgreementPiece(f: Fields)
    ensures |UserPieces(f)| == 24 && UserPieces(f)[11] == Leaf(Plain(AgreementRef), AGREEMENT)
  {
    hide Bracketless, Pad, Break, Leaf, Block, Top, UserBottom, PartyTokens, DocTypeIdentifier, Esc;
  }

  /** Agreement, process, document type and the two participants, each under its own name. */
  lemma CollaborationSent(f: Fields)
    ensures Contains(BuildUserMessage(f), Tagged("eb:AgreementRef", "", "urn:fdc:peppol.eu:" + "2017:agreements:" + "tia:ap_provider"))
    ensures Contains(BuildUserMessage(f), Tagged("eb:Service", " type=\"cenbii-" + "procid-ubl\"", Esc(f.processId)))
    ensures Contains(BuildUserMessage(f), Tagged("eb:Property", " name=\"originalSender\"", Esc(f.senderParticipantId)))
    ensures Contains(BuildUserMessage(f), Tagged("eb:Property", " name=\"finalRecipient\"", Esc(f.receiverParticipantId)))
  {
    hide UserPieces, BuildUserMessage, Contains, Name, Tagged, Leaf, Render, Esc, AttrText, AGREEMENT, DocTypeIdentifier;
    CollaborationNames();
    CollaborationTexts();
    NoAttributes();
    AgreementPiece(f);
    UserLeaves(f);
    PropertyPieces(f);
    LeafText(AgreementRef, NoAttrs, AGREEMENT);
    LeafText(Service, ProcessType, Esc(f.processId));
    LeafText(Property, SenderName, Esc(f.senderParticipantId));
    LeafText(Property, RecipientName, Esc(f.receiverParticipantId));
    PieceSent(f, 11);
    PieceSent(f, 13);
    PieceSent(f, 18);
    PieceSent(f, 20);
  }

  // ----- errors

  lemma ErrorSentences(e: Failure)
    ensures |ErrorPieces(e)| == 19 && ErrorPieces(e)[8] == [Pad(10)] + Leaf(Plain(Severity), FAILURE) + [Pad(10)]
  {
    hide Pad, Leaf, Top, SignalBottom, SecurityTokens, RefTokens, DescriptionText, Esc;
  }

  /** An error signal is a failure. */
  lemma FailureSent(e: Failure)
    ensures Contains(BuildError(e), Tagged("eb:Severity", "", "failure"))
  {
    hide ErrorPieces, Name, Tagged, Leaf, Render, AttrText, Pad;
    var pieces, leaf := ErrorPieces(e), Leaf(Plain(Severity), FAILURE);
    ErrorSentences(e);
    FlattenAt(pieces, 8);
    var a, b := Flatten(pieces[..8]) + [Pad(10)], [Pad(10)] + Flatten(pieces[9..]);
    assert Flatten(pieces) == a + leaf + b;
    RenderConcat(a + leaf, b);
    RenderConcat(a, leaf);
    NoAttributes();
    LeafText(Severity, NoAttrs, FAILURE);
    SeverityName();
    assert Around(BuildError(e), Render(a), Render(leaf), Render(b));
  }

  lemma SeverityName()
    ensures Name(Severity) == "eb:Severity"
  {
  }

  lemma ActionSent(f: Fields)
    ensures var kind := if f.documentType == "credit_note" || f.documentType == "CreditNote" then "CreditNote" else "Invoice";
      Contains(BuildUserMessage(f), Tagged("eb:Action", "", "busdox-docid-qns::" + IdentifierText(kind)))
  {
    hide UserPieces, BuildUserMessage, Contains, Name, Tagged, Leaf, Render, Esc, DocTypeIdentifier, IdentifierText, IsSimple;
    CollaborationNames();
    CollaborationTexts();
    NoAttributes();
    UserLeaves(f);
    IdentifierIs(f.documentType);
    SimpleEsc(DocTypeIdentifier(f.documentType));
    LeafText(Action, NoAttrs, QNS + Esc(DocTypeIdentifier(f.documentType)));
    PieceSent(f, 15);
  }
}
