/** What the parser recovers from the envelopes the access point builds. */
module As4Reading {
  import opened Options
  import opened XmlText
  import opened TextSearch
  import opened As4Text
  import opened As4Search
  import opened As4Envelope

  // ----- flattened pieces

  lemma {:induction false} FlattenSplit(pieces: seq<seq<Token>>, j: nat)
    requires j <= |pieces|
    ensures Flatten(pieces) == Flatten(pieces[..j]) + Flatten(pieces[j..])
  {
    if j == 0 {
      assert pieces[..0] == [] && pieces[0..] == pieces;
      assert [] + Flatten(pieces) == Flatten(pieces);
    } else {
      FlattenSplit(pieces[1..], j - 1);
      assert pieces[..j][1..] == pieces[1..][..j - 1] && pieces[j..] == pieces[1..][j - 1..];
      assert Flatten(pieces[..j]) == pieces[0] + Flatten(pieces[..j][1..]);
    }
  }

  lemma FlattenAt(pieces: seq<seq<Token>>, j: nat)
    requires j < |pieces|
    ensures Flatten(pieces) == Flatten(pieces[..j]) + pieces[j] + Flatten(pieces[j + 1..])
  {
    FlattenSplit(pieces, j);
    assert pieces[j..][1..] == pieces[j + 1..];
  }

  lemma {:induction false} FlattenIn(pieces: seq<seq<Token>>, t: Token)
    requires t in Flatten(pieces)
    ensures exists p <- pieces :: t in p
  {
    if t in pieces[0] {
      assert pieces[0] in pieces;
    } else {
      FlattenIn(pieces[1..], t);
      var p :| p in pieces[1..] && t in p;
      assert p in pieces;
    }
  }

  /** Every piece but one keeps clear of a name. */
  predicate OnlyAt(pieces: seq<seq<Token>>, j: nat, l: Label) {
    forall i :: 0 <= i < |pieces| && i != j ==> Avoids(pieces[i], l)
  }

  lemma AroundAvoids(pieces: seq<seq<Token>>, j: nat, l: Label)
    requires j < |pieces| && OnlyAt(pieces, j, l)
    ensures Avoids(Flatten(pieces[..j]), l) && Avoids(Flatten(pieces[j + 1..]), l)
  {
    forall t | t in Flatten(pieces[..j]) ensures Keeps(t, l) {
      FlattenIn(pieces[..j], t);
      var i :| 0 <= i < j && t in pieces[..j][i];
      assert Avoids(pieces[i], l);
    }
    forall t | t in Flatten(pieces[j + 1..]) ensures Keeps(t, l) {
      FlattenIn(pieces[j + 1..], t);
      var i :| 0 <= i < |pieces[j + 1..]| && t in pieces[j + 1..][i];
      assert Avoids(pieces[j + 1 + i], l);
    }
  }

  lemma ExtractPiece(pieces: seq<seq<Token>>, j: nat, m: Mark, v: string)
    requires j < |pieces| && m.Open? && pieces[j] == Leaf(m, v) && OnlyAt(pieces, j, m.l) && Bracketless(v)
    ensures Find(Render(Flatten(pieces)), Element(m)) == if LineFree(v) then Some(v) else None
  {
    hide Flatten, OnlyAt, Leaf, Element, Search, LineFree;
    FlattenAt(pieces, j);
    AroundAvoids(pieces, j, m.l);
    Extract(Flatten(pieces[..j]), m, v, Flatten(pieces[j + 1..]));
  }

  lemma ExtractLoosePiece(pieces: seq<seq<Token>>, j: nat, m: Mark, v: string, content: Piece)
    requires j < |pieces| && m.Open? && pieces[j] == Leaf(m, v) && OnlyAt(pieces, j, m.l) && Bracketless(v)
    requires content == LINE || content == CONTENT
    ensures Find(Render(Flatten(pieces)), LooseElement(m.l, content)) == if content == LINE && !LineFree(v) then None else Some(v)
  {
    hide Flatten, OnlyAt, Leaf, LooseElement, Search, LineFree;
    FlattenAt(pieces, j);
    AroundAvoids(pieces, j, m.l);
    ExtractLoose(Flatten(pieces[..j]), m, v, Flatten(pieces[j + 1..]), content);
  }

  lemma NoPiece(pieces: seq<seq<Token>>, l: Label, ps: seq<Piece>)
    requires Heads(ps, l) && forall i :: 0 <= i < |pieces| ==> Avoids(pieces[i], l)
    ensures Search(Render(Flatten(pieces)), ps) == None
  {
    forall t | t in Flatten(pieces) ensures Keeps(t, l) {
      FlattenIn(pieces, t);
      var i :| 0 <= i < |pieces| && t in pieces[i];
      assert Avoids(pieces[i], l);
    }
    NothingLeft(Flatten(pieces), l, ps);
  }

  // ----- escaped values

  /** What a field comes back as: its escaped form, or nothing when it has a line terminator. */
  function Back(v: string): Option<string> {
    if LineFree(v) then Some(Esc(v)) else None
  }

  lemma {:induction false} EscLines(v: string)
    ensures Bracketless(Esc(v)) && (LineFree(Esc(v)) <==> LineFree(v))
  {
    EscHasNoMarkup(v);
    if v == "" {
    } else {
      assert v == [v[0]] + v[1..];
      EscConcat([v[0]], v[1..]);
      EscLines(v[1..]);
      EntityLine(v[0]);
      assert v[0] in v;
      assert forall c <- v[1..] :: c in v;
    }
  }

  lemma EntityLine(c: char)
    ensures LineFree(Esc([c])) <==> !LineEnd(c)
  {
    EntityEnds(c);
    if c in SPECIALS {
      EntityLetters(c);
      assert LineFree("&;ampltgquos");
    } else {
      assert Entity(c) == [c] && c in [c];
    }
  }

  lemma SimpleEsc(s: Simple)
    ensures Esc(s) == s && Bracketless(s) && LineFree(s)
  {
    EscIdentity(s);
  }

  // ----- which piece of a user message has which name

  /** The piece that holds the element of a name, for the names that occur at most once. */
  function Place(l: Label): nat {
    match l
    case Timestamp => 3
    case MessageId => 5
    case From => 7
    case To => 9
    case Service => 13
    case Action => 15
    case _ => 24
  }

  predicate Searched(l: Label) {
    || l.Timestamp? || l.MessageId? || l.From? || l.To? || l.Service? || l.Action? || l.RefToMessageId? || l.Property?
    || l.Receipt? || l.Error? || l.Description?
  }

  lemma AvoidsLeaf(m: Mark, v: string, l: Label)
    requires Bracketless(v) && m.l != l
    ensures Avoids(Leaf(m, v), l)
  {
  }

  lemma AvoidsConcat(a: seq<Token>, b: seq<Token>, l: Label)
    requires Avoids(a, l) && Avoids(b, l)
    ensures Avoids(a + b, l)
  {
  }

  lemma TopAvoids(spaces: Attrs, messaging: Attrs, l: Label)
    requires Searched(l)
    ensures Avoids(Top(spaces, messaging), l)
  {
    hide Bracketless, Pad, Break;
  }

  lemma AvoidsSimple(m: Mark, v: Simple, l: Label)
    requires m.l != l
    ensures Avoids(Leaf(m, v), l)
  {
    hide Bracketless, Leaf;
    SimpleEsc(v);
    AvoidsLeaf(m, v, l);
  }

  lemma AvoidsAround(a: seq<Token>, m: Mark, v: Simple, b: seq<Token>, l: Label)
    requires Avoids(a, l) && Avoids(b, l) && m.l != l
    ensures Avoids(a + Leaf(m, v) + b, l)
  {
    hide Bracketless, Leaf;
    SimpleEsc(v);
    AvoidsLeaf(m, v, l);
    AvoidsConcat(a, Leaf(m, v), l);
    AvoidsConcat(a + Leaf(m, v), b, l);
  }

  lemma SecurityAvoids(l: Label)
    requires Searched(l)
    ensures Avoids(SecurityTokens(), l)
  {
    hide Bracketless, Pad, Leaf;
    AvoidsAround([Tag(Open(Security, Must)), Pad(6)], Open(BinarySecurityToken, TokenTypes), PLACEHOLDER, [Pad(4), Tag(Close(Security))], l);
  }

  lemma UserBottomAvoids(l: Label)
    requires Searched(l)
    ensures Avoids(UserBottom(), l)
  {
    hide SecurityTokens, Bracketless, Pad, Break;
    SecurityAvoids(l);
    AvoidsConcat([Pad(4), Tag(Close(Messaging)), Pad(4)], SecurityTokens(), l);
  }

  lemma PartyAvoids(m: Mark, apId: string, role: Simple, l: Label)
    requires Searched(l) && m.l != l && m.Open?
    ensures Avoids(Block(m, PartyTokens(apId, role)), l)
  {
    hide Bracketless, Pad, Break, Esc;
    EscLines(apId);
    SimpleEsc(role);
  }

  lemma FirstAvoids(f: Fields, l: Label)
    requires Searched(l)
    ensures forall i <- [1, 2, 4, 6, 8, 10] :: Avoids(UserPieces(f)[i], l)
  {
    hide Bracketless, Pad, Break, Leaf, Block, Top, UserBottom, PartyTokens, DocTypeIdentifier;
  }

  lemma LastAvoids(f: Fields, l: Label)
    requires Searched(l)
    ensures forall i <- [12, 14, 16, 17, 19, 21, 22] :: Avoids(UserPieces(f)[i], l)
  {
    hide Bracketless, Pad, Break, Leaf, Block, Top, UserBottom, PartyTokens, DocTypeIdentifier;
  }

  lemma EndsAvoid(f: Fields, l: Label)
    requires Searched(l)
    ensures Avoids(UserPieces(f)[0], l) && Avoids(UserPieces(f)[23], l)
  {
    hide Bracketless, Pad, Break, Leaf, Block, Top, UserBottom, PartyTokens, DocTypeIdentifier, Avoids;
    TopAvoids(UserSpaces, Must, l);
    UserBottomAvoids(l);
  }

  lemma PartiesAvoid(f: Fields, l: Label)
    requires Searched(l)
    ensures !l.From? ==> Avoids(UserPieces(f)[7], l)
    ensures !l.To? ==> Avoids(UserPieces(f)[9], l)
  {
    hide UserPieces, Block, PartyTokens, Avoids;
    UserBlocks(f);
    if !l.From? {
      PartyAvoids(Plain(From), f.fromApId, INITIATOR, l);
    }
    if !l.To? {
      PartyAvoids(Plain(To), f.toApId, RESPONDER, l);
    }
  }

  lemma UserBlocks(f: Fields)
    ensures |UserPieces(f)| == 24
    ensures UserPieces(f)[7] == Block(Plain(From), PartyTokens(f.fromApId, INITIATOR))
    ensures UserPieces(f)[9] == Block(Plain(To), PartyTokens(f.toApId, RESPONDER))
  {
    hide Bracketless, Pad, Break, Leaf, Block, Top, UserBottom, PartyTokens, DocTypeIdentifier, Esc;
  }

  lemma UserLeaves(f: Fields)
    ensures |UserPieces(f)| == 24
    ensures UserPieces(f)[3] == Leaf(Plain(Timestamp), Esc(f.timestamp))
    ensures UserPieces(f)[5] == Leaf(Plain(MessageId), Esc(f.messageId))
    ensures UserPieces(f)[13] == Leaf(Open(Service, ProcessType), Esc(f.processId))
    ensures UserPieces(f)[15] == Leaf(Plain(Action), QNS + Esc(DocTypeIdentifier(f.documentType)))
  {
    hide Bracketless, Pad, Break, Leaf, Block, Top, UserBottom, PartyTokens, DocTypeIdentifier, Esc;
  }

  lemma LeavesAvoid(f: Fields, l: Label)
    requires Searched(l)
    ensures !l.Timestamp? ==> Avoids(UserPieces(f)[3], l)
    ensures !l.MessageId? ==> Avoids(UserPieces(f)[5], l)
    ensures !l.Service? ==> Avoids(UserPieces(f)[13], l)
  {
    hide UserPieces, Leaf, Avoids, Esc, DocTypeIdentifier;
    UserLeaves(f);
    EscLines(f.timestamp);
    EscLines(f.messageId);
    EscLines(f.processId);
    if !l.Timestamp? {
      AvoidsLeaf(Plain(Timestamp), Esc(f.timestamp), l);
    }
    if !l.MessageId? {
      AvoidsLeaf(Plain(MessageId), Esc(f.messageId), l);
    }
    if !l.Service? {
      AvoidsLeaf(Open(Service, ProcessType), Esc(f.processId), l);
    }
  }

  lemma AgreementAvoids(f: Fields, l: Label)
    requires Searched(l)
    ensures Avoids(UserPieces(f)[11], l)
  {
    hide Bracketless, Pad, Break, Leaf, Block, Top, UserBottom, PartyTokens, DocTypeIdentifier, Avoids, Esc;
    AvoidsSimple(Plain(AgreementRef), AGREEMENT, l);
  }

  lemma ActionText(d: string)
    ensures QNS + Esc(DocTypeIdentifier(d)) == Fuse(QNS, DocTypeIdentifier(d))
  {
    hide DocTypeIdentifier;
    SimpleEsc(DocTypeIdentifier(d));
  }

  lemma MoreLeavesAvoid(f: Fields, l: Label)
    requires Searched(l)
    ensures !l.Action? ==> Avoids(UserPieces(f)[15], l)
    ensures !l.Property? ==> Avoids(UserPieces(f)[18], l) && Avoids(UserPieces(f)[20], l)
  {
    hide Bracketless, Pad, Break, Leaf, Block, Top, UserBottom, PartyTokens, DocTypeIdentifier, Avoids, Esc;
    if !l.Action? {
      ActionText(f.documentType);
      AvoidsSimple(Plain(Action), Fuse(QNS, DocTypeIdentifier(f.documentType)), l);
    }
    if !l.Property? {
      EscLines(f.senderParticipantId);
      EscLines(f.receiverParticipantId);
      AvoidsLeaf(SENDER, Esc(f.senderParticipantId), l);
      AvoidsLeaf(RECIPIENT, Esc(f.receiverParticipantId), l);
    }
  }

  lemma UserOnly(f: Fields, l: Label)
    requires Searched(l) && !l.Property?
    ensures OnlyAt(UserPieces(f), Place(l), l)
  {
    hide UserPieces, Avoids;
    UserCount(f);
    FirstAvoids(f, l);
    LastAvoids(f, l);
    EndsAvoid(f, l);
    PartiesAvoid(f, l);
    LeavesAvoid(f, l);
    MoreLeavesAvoid(f, l);
    AgreementAvoids(f, l);
    var ps := UserPieces(f);
    forall i | 0 <= i < |ps| && i != Place(l) ensures Avoids(ps[i], l) {
      if i in [1, 2, 4, 6, 8, 10] {
      } else if i in [12, 14, 16, 17, 19, 21, 22] {
      } else {
        assert i in [0, 3, 5, 7, 9, 11, 13, 15, 18, 20, 23];
      }
    }
  }

  lemma UserCount(f: Fields)
    ensures |UserPieces(f)| == 24
  {
  }

  // ----- what each search finds in a user message

  lemma UserFinds(f: Fields)
    ensures Find(BuildUserMessage(f), Element(Plain(MessageId))) == Back(f.messageId)
    ensures Find(BuildUserMessage(f), Element(Plain(Timestamp))) == Back(f.timestamp)
    ensures Find(BuildUserMessage(f), LooseElement(Service, LINE)) == Back(f.processId)
  {
    hide UserPieces, Flatten, OnlyAt, Leaf, Element, LooseElement, Esc, Bracketless, LineFree, Find, Render;
    UserLeaves(f);
    UserOnly(f, MessageId);
    EscLines(f.messageId);
    ExtractPiece(UserPieces(f), 5, Plain(MessageId), Esc(f.messageId));
    UserOnly(f, Timestamp);
    EscLines(f.timestamp);
    ExtractPiece(UserPieces(f), 3, Plain(Timestamp), Esc(f.timestamp));
    UserOnly(f, Service);
    EscLines(f.processId);
    ExtractLoosePiece(UserPieces(f), 13, Open(Service, ProcessType), Esc(f.processId), LINE);
  }

  lemma UserFindsAction(f: Fields)
    ensures Find(BuildUserMessage(f), Element(Plain(Action))) == Some(QNS + DocTypeIdentifier(f.documentType))
  {
    hide UserPieces, Flatten, OnlyAt, Leaf, Element, Esc, Bracketless, LineFree, Find, Render, DocTypeIdentifier;
    UserLeaves(f);
    UserOnly(f, Action);
    ActionText(f.documentType);
    SimpleEsc(Fuse(QNS, DocTypeIdentifier(f.documentType)));
    ExtractPiece(UserPieces(f), 15, Plain(Action), Fuse(QNS, DocTypeIdentifier(f.documentType)));
  }

  lemma UserHasNoRef(f: Fields)
    ensures Find(BuildUserMessage(f), Element(Plain(RefToMessageId))) == None
  {
    hide UserPieces, Flatten, OnlyAt, Leaf, Element, Esc, Bracketless, LineFree, Search, Render;
    UserCount(f);
    UserOnly(f, RefToMessageId);
    PatternHeads(Plain(RefToMessageId), LINE);
    NoRefAnywhere(f);
    NoPiece(UserPieces(f), RefToMessageId, Element(Plain(RefToMessageId)));
  }

  lemma NoRefAnywhere(f: Fields)
    ensures forall i :: 0 <= i < |UserPieces(f)| ==> Avoids(UserPieces(f)[i], RefToMessageId)
  {
    hide UserPieces, Avoids;
    UserCount(f);
    UserOnly(f, RefToMessageId);
  }

  // ----- the two parties

  lemma PartyInside(m: Mark, apId: string, role: Simple)
    requires m == Plain(From) || m == Plain(To)
    ensures Find(Render(Block(m, PartyTokens(apId, role))), LooseElement(PartyId, LINE)) == Back(apId)
  {
    hide Pad, Leaf, Esc, Bracketless, LineFree, LooseElement, Find, Render, Avoids;
    var before, leaf := [Tag(m), Pad(12)], Leaf(Open(PartyId, ApType), Esc(apId));
    var after := [Pad(12)] + Leaf(Plain(Role), role) + [Pad(10)] + [Tag(Close(m.l))];
    assert Block(m, PartyTokens(apId, role)) == before + leaf + after;
    EscLines(apId);
    PartyAround(m, role);
    FindLoose(before, Open(PartyId, ApType), Esc(apId), after);
  }

  lemma PartyAround(m: Mark, role: Simple)
    requires m == Plain(From) || m == Plain(To)
    ensures Avoids([Tag(m), Pad(12)], PartyId)
    ensures Avoids([Pad(12)] + Leaf(Plain(Role), role) + [Pad(10)] + [Tag(Close(m.l))], PartyId)
  {
    hide Pad, Leaf, Bracketless;
    AvoidsAround([Pad(12)], Plain(Role), role, [Pad(10)], PartyId);
    AvoidsConcat([Pad(12)] + Leaf(Plain(Role), role) + [Pad(10)], [Tag(Close(m.l))], PartyId);
  }

  lemma FindLoose(before: seq<Token>, m: Mark, v: string, after: seq<Token>)
    requires m.Open? && Avoids(before, m.l) && Avoids(after, m.l) && Bracketless(v)
    ensures Find(Render(before + Leaf(m, v) + after), LooseElement(m.l, LINE)) == if LineFree(v) then Some(v) else None
  {
    hide Avoids, Leaf, Bracketless, LineFree, LooseElement, Search, Render;
    ExtractLoose(before, m, v, after, LINE);
  }

  lemma PartyWithin(m: Mark, apId: string, role: Simple)
    requires m == Plain(From) || m == Plain(To)
    ensures Within(PartyTokens(apId, role), m.l)
  {
    hide Pad, Esc, Bracketless;
    EscLines(apId);
    SimpleEsc(role);
  }

  lemma UserParty(f: Fields, m: Mark, j: nat, apId: string, role: Simple)
    requires m == Plain(From) || m == Plain(To)
    requires j < |UserPieces(f)| && UserPieces(f)[j] == Block(m, PartyTokens(apId, role)) && OnlyAt(UserPieces(f), j, m.l)
    ensures FindParty(BuildUserMessage(f), m) == Back(apId)
  {
    hide UserPieces, Flatten, OnlyAt, Block, PartyTokens, Section, LooseElement, Search, Render, Avoids, Within;
    var pieces := UserPieces(f);
    FlattenAt(pieces, j);
    AroundAvoids(pieces, j, m.l);
    PartyWithin(m, apId, role);
    FindSection(Flatten(pieces[..j]), m, PartyTokens(apId, role), Flatten(pieces[j + 1..]));
    PartyInside(m, apId, role);
  }

  lemma UserParties(f: Fields)
    ensures FindParty(BuildUserMessage(f), Plain(From)) == Back(f.fromApId)
    ensures FindParty(BuildUserMessage(f), Plain(To)) == Back(f.toApId)
  {
    hide UserPieces, OnlyAt, Block, PartyTokens, FindParty, BuildUserMessage, Back;
    UserOnly(f, From);
    UserOnly(f, To);
    UserBlocks(f);
    UserParty(f, Plain(From), 7, f.fromApId, INITIATOR);
    UserParty(f, Plain(To), 9, f.toApId, RESPONDER);
  }
}
