/** How a message is classified: by the tags it is made of, whatever its fields say. */
module As4Classify {
  import opened XmlText
  import opened TextSearch
  import opened As4Text
  import opened As4Search
  import opened As4Envelope
  import opened As4Reading

  const SIGNAL_NAME := ":SignalMessage"

  /** A token that cannot say `:SignalMessage` inside a tag. */
  predicate Silent(t: Token) {
    match t
    case Tag(Open(l, a)) => l != SignalMessage && !a.ErrorAttrs?
    case Tag(Close(l)) => l != SignalMessage
    case Text(s) => Bracketless(s)
  }

  predicate AllSilent(ts: seq<Token>) {
    forall t <- ts :: Silent(t)
  }

  // ----- no tag but its own says `:SignalMessage`

  /** Where a label has a capital M seven characters behind a colon, it is `eb:SignalMessage`. */
  lemma HeaderColon(l: Label, i: nat)
    requires l.XmlDecl? || l.Envelope? || l.Header? || l.Body? || l.Messaging? || l.UserMessage? || l.MessageInfo? || l.Timestamp? || l.MessageId?
    ensures i + 7 < |Name(l)| && Name(l)[i + 7] == 'M' ==> Name(l)[i] != ':'
  {
    hide Guess;
    match l
    case XmlDecl =>
    case Envelope =>
    case Header =>
    case Body =>
    case Messaging =>
    case UserMessage =>
    case MessageInfo =>
    case Timestamp =>
    case MessageId =>
  }

  lemma PartColon(l: Label, i: nat)
    requires l.PartyInfo? || l.From? || l.To? || l.PartyId? || l.Role? || l.CollaborationInfo? || l.AgreementRef? || l.Service? || l.Action?
      || l.PayloadInfo? || l.PartInfo? || l.PartProperties? || l.Property?
    ensures i + 7 < |Name(l)| && Name(l)[i + 7] == 'M' ==> Name(l)[i] != ':'
  {
    hide Guess;
    match l
    case PartyInfo =>
    case From =>
    case To =>
    case PartyId =>
    case Role =>
    case CollaborationInfo =>
    case AgreementRef =>
    case Service =>
    case Action =>
    case PayloadInfo =>
    case PartInfo =>
    case PartProperties =>
    case Property =>
  }

  lemma LastColon(l: Label, i: nat)
    requires l.Receipt? || l.Error? || l.Severity? || l.Description? || l.RefToMessageId?
    ensures i + 7 < |Name(l)| && Name(l)[i + 7] == 'M' ==> Name(l)[i] != ':'
  {
    hide Guess;
    match l
    case Receipt =>
    case Error =>
    case Severity =>
    case Description =>
    case RefToMessageId =>
  }

  lemma SecurityColon(l: Label, i: nat)
    requires l.Security? || l.BinarySecurityToken? || l.Include?
    ensures i + 7 < |Name(l)| && Name(l)[i + 7] == 'M' ==> Name(l)[i] != ':'
  {
    hide Guess;
    match l
    case Security =>
    case BinarySecurityToken =>
    case Include =>
  }

  lemma Colon(l: Label, i: nat)
    requires l != SignalMessage
    ensures i + 7 < |Name(l)| && Name(l)[i + 7] == 'M' ==> Name(l)[i] != ':'
  {
    hide Name, Guess;
    match l
    case XmlDecl | Envelope | Header | Body | Messaging | UserMessage | MessageInfo | Timestamp | MessageId => HeaderColon(l, i);
    case PartyInfo | From | To | PartyId | Role | CollaborationInfo | AgreementRef | Service | Action => PartColon(l, i);
    case PayloadInfo | PartInfo | PartProperties | Property => PartColon(l, i);
    case Receipt | Error | Severity | Description | RefToMessageId => LastColon(l, i);
    case Security | BinarySecurityToken | Include => SecurityColon(l, i);
  }

  lemma SignalNameChars(t: string)
    ensures SIGNAL_NAME <= t ==> |t| >= 14 && t[0] == ':' && t[7] == 'M'
  {
    if SIGNAL_NAME <= t {
      assert SIGNAL_NAME[0] == ':' && SIGNAL_NAME[7] == 'M' && |SIGNAL_NAME| == 14;
      assert t[0] == SIGNAL_NAME[0] && t[7] == SIGNAL_NAME[7];
    }
  }

  lemma OpenSilent(l: Label, attrs: Quiet, i: nat)
    requires l != SignalMessage && i <= |Name(l) + attrs|
    ensures !(SIGNAL_NAME <= (Name(l) + attrs)[i..])
  {
    hide Name, Guess;
    var body := Name(l) + attrs;
    SignalNameChars(body[i..]);
    Colon(l, i);
    assert i + 7 < |body| ==> body[i..][7] == body[i + 7] && body[i..][0] == body[i];
    assert |Name(l)| <= i + 7 < |body| ==> body[i + 7] == attrs[i + 7 - |Name(l)|];
    assert i + 7 < |Name(l)| ==> body[i + 7] == Name(l)[i + 7] && body[i] == Name(l)[i];
  }

  lemma CloseSilent(l: Label, i: nat)
    requires l != SignalMessage && i <= |"/" + Name(l)|
    ensures !(SIGNAL_NAME <= ("/" + Name(l))[i..])
  {
    hide Name, Guess;
    var body := "/" + Name(l);
    SignalNameChars(body[i..]);
    if i > 0 {
      Colon(l, i - 1);
      assert i + 7 < |body| ==> body[i..][7] == Name(l)[i - 1 + 7] && body[i..][0] == Name(l)[i - 1];
    } else {
      assert body[i..] == body && body[0] == '/';
    }
  }

  lemma TagSilent(m: Mark)
    requires Silent(Tag(m))
    ensures !Mentions(Inner(m), SIGNAL_NAME)
  {
    hide Name, Guess, FixedAttrs;
    forall i | 0 <= i <= |Inner(m)| ensures !(SIGNAL_NAME <= Inner(m)[i..]) {
      match m
      case Open(l, a) => OpenSilent(l, FixedAttrs(a), i);
      case Close(l) => CloseSilent(l, i);
    }
  }

  lemma {:induction false} SilentTokens(ts: seq<Token>)
    requires AllSilent(ts)
    ensures !Says(Render(ts), false, SIGNAL_NAME)
  {
    hide Name, Inner, Mentions;
    if ts != [] {
      SilentTokens(ts[1..]);
      assert ts[0] in ts;
      match ts[0]
      case Tag(m) =>
        TagSilent(m);
        InnerBracketless(m);
        assert '>' !in SIGNAL_NAME;
        SaysSkipTag(Inner(m), Render(ts[1..]), SIGNAL_NAME);
      case Text(s) =>
        SaysSkip(s, Render(ts[1..]), SIGNAL_NAME);
    }
  }

  lemma NotSignal(ts: seq<Token>)
    requires AllSilent(ts)
    ensures !Test(Render(ts), SIGNAL_MESSAGE)
  {
    hide Says, Test, AllSilent, Render;
    SilentTokens(ts);
    NotFound(Render(ts), SIGNAL_MESSAGE, 14, SIGNAL_NAME);
  }

  // ----- user messages

  lemma SilentLeaf(m: Mark, v: string)
    requires Bracketless(v) && Silent(Tag(m)) && m.Open?
    ensures AllSilent(Leaf(m, v))
  {
  }

  lemma SilentConcat(a: seq<Token>, b: seq<Token>)
    requires AllSilent(a) && AllSilent(b)
    ensures AllSilent(a + b)
  {
  }

  lemma SilentAround(a: seq<Token>, m: Mark, v: Simple, b: seq<Token>)
    requires AllSilent(a) && AllSilent(b) && Silent(Tag(m)) && m.Open?
    ensures AllSilent(a + Leaf(m, v) + b)
  {
    hide Bracketless, Leaf;
    SimpleEsc(v);
    SilentLeaf(m, v);
    SilentConcat(a, Leaf(m, v));
    SilentConcat(a + Leaf(m, v), b);
  }

  lemma SecuritySilent()
    ensures AllSilent(SecurityTokens())
  {
    hide Bracketless, Pad, Leaf;
    SilentAround([Tag(Open(Security, Must)), Pad(6)], Open(BinarySecurityToken, TokenTypes), PLACEHOLDER, [Pad(4), Tag(Close(Security))]);
  }

  lemma EndsSilent()
    ensures AllSilent(Top(UserSpaces, Must)) && AllSilent(UserBottom())
  {
    hide Bracketless, Pad, Break, SecurityTokens;
    SecuritySilent();
    SilentConcat([Pad(4), Tag(Close(Messaging)), Pad(4)], SecurityTokens());
  }

  lemma PartySilent(m: Mark, apId: string, role: Simple)
    requires m == Plain(From) || m == Plain(To)
    ensures AllSilent(Block(m, PartyTokens(apId, role)))
  {
    hide Bracketless, Pad, Esc;
    EscLines(apId);
    SimpleEsc(role);
  }

  lemma FirstSilent(f: Fields)
    ensures forall i <- [1, 2, 4, 6, 8, 10] :: AllSilent(UserPieces(f)[i])
  {
    hide Bracketless, Pad, Break, Leaf, Block, Top, UserBottom, PartyTokens, DocTypeIdentifier;
  }

  lemma LastSilent(f: Fields)
    ensures forall i <- [12, 14, 16, 17, 19, 21, 22] :: AllSilent(UserPieces(f)[i])
  {
    hide Bracketless, Pad, Break, Leaf, Block, Top, UserBottom, PartyTokens, DocTypeIdentifier;
  }

  lemma OuterSilent(f: Fields)
    ensures forall i <- [0, 7, 9, 23] :: AllSilent(UserPieces(f)[i])
  {
    hide Bracketless, Pad, Break, Leaf, Block, Top, UserBottom, PartyTokens, DocTypeIdentifier, AllSilent;
    EndsSilent();
    PartySilent(Plain(From), f.fromApId, INITIATOR);
    PartySilent(Plain(To), f.toApId, RESPONDER);
  }

  lemma LeavesSilent(f: Fields)
    ensures forall i <- [3, 5, 13, 18, 20] :: AllSilent(UserPieces(f)[i])
  {
    hide Bracketless, Pad, Break, Leaf, Block, Top, UserBottom, PartyTokens, DocTypeIdentifier, AllSilent, Esc;
    EscLines(f.timestamp);
    EscLines(f.messageId);
    EscLines(f.processId);
    EscLines(f.senderParticipantId);
    EscLines(f.receiverParticipantId);
    SilentLeaf(Plain(Timestamp), Esc(f.timestamp));
    SilentLeaf(Plain(MessageId), Esc(f.messageId));
    SilentLeaf(Open(Service, ProcessType), Esc(f.processId));
    SilentLeaf(SENDER, Esc(f.senderParticipantId));
    SilentLeaf(RECIPIENT, Esc(f.receiverParticipantId));
  }

  lemma SilentSimple(m: Mark, v: Simple)
    requires Silent(Tag(m)) && m.Open?
    ensures AllSilent(Leaf(m, v))
  {
    hide Bracketless, Leaf, AllSilent;
    SimpleEsc(v);
    SilentLeaf(m, v);
  }

  lemma ConstantsSilent(f: Fields)
    ensures forall i <- [11, 15] :: AllSilent(UserPieces(f)[i])
  {
    hide Bracketless, Pad, Break, Leaf, Block, Top, UserBottom, PartyTokens, DocTypeIdentifier, AllSilent, Esc;
    SilentSimple(Plain(AgreementRef), AGREEMENT);
    ActionText(f.documentType);
    SilentSimple(Plain(Action), Fuse(QNS, DocTypeIdentifier(f.documentType)));
  }

  lemma UserSilent(f: Fields)
    ensures AllSilent(Flatten(UserPieces(f)))
  {
    hide UserPieces, Silent;
    UserCount(f);
    FirstSilent(f);
    LastSilent(f);
    OuterSilent(f);
    LeavesSilent(f);
    ConstantsSilent(f);
    var ps := UserPieces(f);
    forall t | t in Flatten(ps) ensures Silent(t) {
      FlattenIn(ps, t);
      var i :| 0 <= i < |ps| && t in ps[i];
      assert i in [1, 2, 4, 6, 8, 10] || i in [12, 14, 16, 17, 19, 21, 22] || i in [0, 7, 9, 23] || i in [3, 5, 13, 18, 20] || i in [11, 15];
      assert AllSilent(ps[i]);
    }
  }

  /** A user message has its own tag, which the second test finds. */
  lemma UserTagFound(f: Fields)
    ensures Test(BuildUserMessage(f), USER_MESSAGE)
  {
    hide UserPieces, Render, Exec, Search;
    UserTags(f);
    var pieces, tail := UserPieces(f), UserPieces(f)[2..];
    FlattenAt(pieces, 1);
    FlattenAt(tail, 20);
    var a, b, c := Flatten(pieces[..1]), Flatten(tail[..20]), Flatten(tail[21..]);
    var doc := a + [Tag(Plain(UserMessage))] + (b + [Tag(Close(UserMessage))] + c);
    assert Flatten(pieces) == doc;
    assert doc == a + Block(Plain(UserMessage), b) + c;
    UserBlockFound(a, b, c);
  }

  lemma UserTags(f: Fields)
    ensures |UserPieces(f)| == 24 && UserPieces(f)[1] == [Tag(Plain(UserMessage))] && UserPieces(f)[22] == [Tag(Close(UserMessage))]
  {
    hide Bracketless, Pad, Break, Leaf, Block, Top, UserBottom, PartyTokens, DocTypeIdentifier, Esc;
  }

  lemma UserBlockFound(a: seq<Token>, b: seq<Token>, c: seq<Token>)
    ensures Test(Render(a + Block(Plain(UserMessage), b) + c), USER_MESSAGE)
  {
    hide Block, Render, Exec, Search;
    RenderConcat(a + Block(Plain(UserMessage), b), c);
    RenderConcat(a, Block(Plain(UserMessage), b));
    RenderBlock(Plain(UserMessage), b);
    var fill := ">" + Render(b);
    var cs := ["<", "eb", ":UserMessage", fill, "</", "eb", ":UserMessage>"];
    assert Fits(cs, USER_MESSAGE);
    FitsMatches(cs, USER_MESSAGE, Render(c));
    UserBlockText(b);
    SearchStarts(Join(cs) + Render(c), USER_MESSAGE);
    SearchReaches(Render(a), Join(cs) + Render(c), USER_MESSAGE);
    assert Render(a) + Render(Block(Plain(UserMessage), b)) + Render(c) == Render(a) + (Join(cs) + Render(c));
  }

  lemma SearchStarts(s: string, ps: seq<Piece>)
    requires Exec(s, ps).Some?
    ensures Search(s, ps).Some?
  {
  }

  lemma UserBlockText(b: seq<Token>)
    ensures Join(["<", "eb", ":UserMessage", ">" + Render(b), "</", "eb", ":UserMessage>"])
      == Angle(Inner(Plain(UserMessage))) + Render(b) + Angle("/" + Name(UserMessage))
  {
    hide Render, Inner, Name;
    var fill := ">" + Render(b);
    JoinThree("</", "eb", ":UserMessage>");
    JoinThree("<", "eb", ":UserMessage");
    JoinConcat(["<", "eb", ":UserMessage"], [fill] + ["</", "eb", ":UserMessage>"]);
    JoinConcat([fill], ["</", "eb", ":UserMessage>"]);
    assert Join([fill]) == fill + Join([]);
    assert ["<", "eb", ":UserMessage"] + ([fill] + ["</", "eb", ":UserMessage>"]) == ["<", "eb", ":UserMessage", fill, "</", "eb", ":UserMessage>"];
    UserTagText();
  }

  lemma UserTagText()
    ensures "<" + "eb" + ":UserMessage" + ">" == Angle(Inner(Plain(UserMessage)))
    ensures "</" + "eb" + ":UserMessage>" == Angle("/" + Name(UserMessage))
  {
  }

  lemma {:induction false} JoinConcat(a: seq<string>, b: seq<string>)
    ensures Join(a + b) == Join(a) + Join(b)
  {
    if a == [] {
      assert a + b == b;
    } else {
      assert (a + b)[1..] == a[1..] + b;
      JoinConcat(a[1..], b);
    }
  }

  /** Every user message is classified as one, whatever its fields contain. */
  lemma UserClassified(f: Fields)
    ensures Classify(BuildUserMessage(f)) == IsUser
  {
    hide Test, Flatten, UserPieces, AllSilent;
    UserSilent(f);
    NotSignal(Flatten(UserPieces(f)));
    UserTagFound(f);
  }

  // ----- signals

  lemma JoinTwo(a: string, b: string)
    ensures Join([a, b]) == a + b
  {
    JoinThree(a, b, "");
    JoinConcat([a, b], [""]);
    assert [a, b] + [""] == [a, b, ""];
    assert Join([""]) == "" + Join([]);
    assert a + b + "" == a + b;
  }

  lemma JoinOne(a: string)
    ensures Join([a]) == a
  {
    assert [a][1..] == [];
    assert a + "" == a;
  }

  /** The texts the signal pattern is matched with, from the declaration to the envelope tag. */
  function Opening(spaces: Attrs): seq<string> {
    ["<?xml", DECLARATION, "?>"] + ["\n"] + (["<", "soap", ":Envelope"] + [AttrText(spaces), ">"])
  }

  lemma OpeningText(spaces: Attrs)
    ensures Join(Opening(spaces)) == Show(Tag(Open(XmlDecl, Declared))) + "\n" + Show(Tag(Open(Envelope, spaces)))
  {
    hide Join, AttrText;
    JoinConcat(["<?xml", DECLARATION, "?>"] + ["\n"], ["<", "soap", ":Envelope"] + [AttrText(spaces), ">"]);
    JoinConcat(["<?xml", DECLARATION, "?>"], ["\n"]);
    JoinConcat(["<", "soap", ":Envelope"], [AttrText(spaces), ">"]);
    JoinThree("<?xml", DECLARATION, "?>");
    JoinThree("<", "soap", ":Envelope");
    JoinTwo(AttrText(spaces), ">");
    JoinOne("\n");
    DeclarationText();
    EnvelopeText(AttrText(spaces));
  }

  lemma DeclarationText()
    ensures "<?xml" + DECLARATION + "?>" == Show(Tag(Open(XmlDecl, Declared)))
  {
    var d: string := DECLARATION;
    assert AttrText(Declared) == d + "?";
    DeclarationShape(d);
  }

  lemma DeclarationShape(d: string)
    ensures "<?xml" + d + "?>" == Angle("?xml" + (d + "?"))
  {
  }

  lemma EnvelopeText(attrs: string)
    ensures "<" + "soap" + ":Envelope" + (attrs + ">") == Angle("soap:Envelope" + attrs)
  {
    assert "<" + "soap" + ":Envelope" == "<" + "soap:Envelope";
  }

  lemma OpeningFits(spaces: Attrs)
    ensures Fits(Opening(spaces), SIGNAL_MESSAGE[..9])
  {
    hide AttrText;
    AttrTextBracketless(spaces);
  }

  /** From the messaging tag to its end tag. */
  function Middle(gap: string, messaging: Attrs, pad: string, inner: string): seq<string> {
    [gap] + ["<", "eb", ":Messaging"] + [AttrText(messaging) + ">" + pad] + (["<", "eb", ":SignalMessage"] + [">" + inner]
    + (["</", "eb", ":SignalMessage"] + [">" + Pad(4).s] + ["</", "eb", ":Messaging>"]))
  }

  lemma MiddleFits(gap: string, messaging: Attrs, pad: string, inner: string)
    ensures Fits(Middle(gap, messaging, pad, inner), SIGNAL_MESSAGE[9..])
  {
    hide AttrText, Pad;
  }

  lemma TagTexts()
    ensures "<" + "eb" + ":Messaging" == "<" + Name(Messaging)
    ensures "<" + "eb" + ":SignalMessage" + ">" == Show(Tag(Plain(SignalMessage)))
  {
  }

  lemma EndTexts()
    ensures "</" + "eb" + ":SignalMessage" + ">" == Show(Tag(Close(SignalMessage)))
    ensures "</" + "eb" + ":Messaging>" == Show(Tag(Close(Messaging)))
  {
    EndShape("eb", ":SignalMessage");
    EndShape("eb", ":Messaging");
    assert Name(SignalMessage) == "eb" + ":SignalMessage" && Name(Messaging) == "eb" + ":Messaging";
    assert ":Messaging>" == ":Messaging" + ">";
  }

  lemma EndShape(a: string, b: string)
    ensures "</" + a + b + ">" == Angle("/" + (a + b)) && "</" + a + (b + ">") == Angle("/" + (a + b))
  {
  }

  lemma MiddleText(gap: string, messaging: Attrs, pad: string, inner: string)
    ensures Join(Middle(gap, messaging, pad, inner))
      == gap + Show(Tag(Open(Messaging, messaging))) + pad + Show(Tag(Plain(SignalMessage))) + inner
        + Show(Tag(Close(SignalMessage))) + Pad(4).s + Show(Tag(Close(Messaging)))
  {
    hide Join, AttrText, Pad, Name, Show;
    var last := ["</", "eb", ":SignalMessage"] + [">" + Pad(4).s] + ["</", "eb", ":Messaging>"];
    var second := ["<", "eb", ":SignalMessage"] + [">" + inner] + last;
    var first := [gap] + ["<", "eb", ":Messaging"] + [AttrText(messaging) + ">" + pad];
    MiddleParts(gap, messaging, pad, inner);
    JoinConcat(first, second);
    JoinConcat(["<", "eb", ":SignalMessage"] + [">" + inner], last);
    LastText();
    SecondText(inner);
    FirstText(gap, messaging, pad);
    SixShape(gap + Show(Tag(Open(Messaging, messaging))) + pad, Show(Tag(Plain(SignalMessage))), inner,
      Show(Tag(Close(SignalMessage))), Pad(4).s, Show(Tag(Close(Messaging))));
  }

  lemma MiddleParts(gap: string, messaging: Attrs, pad: string, inner: string)
    ensures Middle(gap, messaging, pad, inner)
      == ([gap] + ["<", "eb", ":Messaging"] + [AttrText(messaging) + ">" + pad])
        + (["<", "eb", ":SignalMessage"] + [">" + inner]
          + (["</", "eb", ":SignalMessage"] + [">" + Pad(4).s] + ["</", "eb", ":Messaging>"]))
  {
    hide AttrText, Pad;
  }

  lemma SixShape(x: string, a: string, b: string, c: string, d: string, e: string)
    ensures x + ((a + b) + (c + d + e)) == x + a + b + c + d + e
  {
  }

  lemma FirstText(gap: string, messaging: Attrs, pad: string)
    ensures Join([gap] + ["<", "eb", ":Messaging"] + [AttrText(messaging) + ">" + pad]) == gap + Show(Tag(Open(Messaging, messaging))) + pad
  {
    hide Join, AttrText, Name, Show;
    var attrs := AttrText(messaging);
    JoinConcat([gap] + ["<", "eb", ":Messaging"], [attrs + ">" + pad]);
    JoinConcat([gap], ["<", "eb", ":Messaging"]);
    JoinOne(gap);
    JoinOne(attrs + ">" + pad);
    JoinThree("<", "eb", ":Messaging");
    TagTexts();
    ShowOpen(Messaging, messaging);
    TagShape(gap, Name(Messaging), attrs, pad);
  }

  lemma ShowOpen(l: Label, a: Attrs)
    ensures Show(Tag(Open(l, a))) == Angle(Name(l) + AttrText(a))
  {
    hide Name, AttrText;
  }

  lemma TagShape(gap: string, name: string, attrs: string, pad: string)
    ensures gap + ("<" + name) + (attrs + ">" + pad) == gap + Angle(name + attrs) + pad
  {
  }

  lemma SecondText(inner: string)
    ensures Join(["<", "eb", ":SignalMessage"] + [">" + inner]) == Show(Tag(Plain(SignalMessage))) + inner
  {
    hide Join, Show, Name;
    JoinConcat(["<", "eb", ":SignalMessage"], [">" + inner]);
    JoinThree("<", "eb", ":SignalMessage");
    JoinOne(">" + inner);
    TagTexts();
    Regroup("<" + "eb" + ":SignalMessage", ">", inner);
  }

  lemma Regroup(a: string, b: string, c: string)
    ensures a + (b + c) == a + b + c
  {
  }

  lemma LastText()
    ensures Join(["</", "eb", ":SignalMessage"] + [">" + Pad(4).s] + ["</", "eb", ":Messaging>"])
      == Show(Tag(Close(SignalMessage))) + Pad(4).s + Show(Tag(Close(Messaging)))
  {
    hide Join, Show, Name, Pad;
    var pad := Pad(4).s;
    JoinConcat(["</", "eb", ":SignalMessage"] + [">" + pad], ["</", "eb", ":Messaging>"]);
    JoinConcat(["</", "eb", ":SignalMessage"], [">" + pad]);
    JoinThree("</", "eb", ":SignalMessage");
    JoinThree("</", "eb", ":Messaging>");
    JoinOne(">" + pad);
    EndTexts();
    Regroup("</" + "eb" + ":SignalMessage", ">", pad);
  }

  lemma FitsConcat(a: seq<string>, b: seq<string>, ps: seq<Piece>, j: nat)
    requires j <= |ps| && Fits(a, ps[..j]) && Fits(b, ps[j..])
    ensures Fits(a + b, ps)
  {
    forall i | 0 <= i < |ps|
      ensures match ps[i]
        case Lit(p) => (a + b)[i] == p
        case One(k, _) => |(a + b)[i]| == 1 && In((a + b)[i][0], k)
        case Run(k, _, _) => forall c <- (a + b)[i] :: In(c, k)
    {
      if i < j {
        assert ps[i] == ps[..j][i] && (a + b)[i] == a[i];
      } else {
        assert ps[i] == ps[j..][i - j] && (a + b)[i] == b[i - j];
      }
    }
  }

  /** A text with tags that say neither is not classified at all. */
  lemma Unclassified(s: string)
    requires !Says(s, false, ":SignalMessage") && !Says(s, false, ":UserMessage")
    ensures Classify(s) == NoSignal
  {
    hide Test, Says;
    NotFound(s, SIGNAL_MESSAGE, 14, ":SignalMessage");
    NotFound(s, USER_MESSAGE, 0, ":UserMessage");
  }
}
