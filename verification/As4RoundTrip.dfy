/** Reading back a user message. */
module As4RoundTrip {
  import opened Options
  import opened XmlText
  import opened TextSearch
  import opened As4Text
  import opened As4Search
  import opened As4Envelope
  import opened As4Reading
  import opened As4Classify

  // ----- the two properties, which share a name

  lemma PropertiesDiffer()
    ensures Inner(SENDER) != Inner(RECIPIENT)
  {
    assert Inner(SENDER) == Name(Property) + SENDER_NAME && Inner(RECIPIENT) == Name(Property) + RECIPIENT_NAME;
    var n := |Name(Property)|;
    assert SENDER_NAME[7] == 'o' && RECIPIENT_NAME[7] == 'f';
    assert Inner(SENDER)[n + 7] == 'o' && Inner(RECIPIENT)[n + 7] == 'f';
  }

  lemma SkipOther(m: Mark, other: Mark, v: string, rest: string)
    requires m.Open? && other.Open? && m.l == other.l && Inner(m) != Inner(other) && Bracketless(v)
    ensures Search(Render(Leaf(other, v)) + rest, Element(m)) == Search(rest, Element(m))
  {
    hide Name, Inner, Search, Render, Leaf;
    InnerBracketless(m);
    InnerBracketless(other);
    RenderLeaf(other, v);
    var tail := v + Angle("/" + Name(other.l)) + rest;
    HeadWithin(Inner(m), Inner(other), tail);
    assert Render(Leaf(other, v)) + rest == Angle(Inner(other)) + tail;
    PatternHeads(m, LINE);
    LeafEnd(other, v, rest, Element(m));
  }

  lemma FirstLeaf(before: seq<Token>, m: Mark, v: string, rest: string)
    requires m.Open? && Avoids(before, m.l) && Bracketless(v) && Search(rest, Element(m)) == None
    ensures Captured(Search(Render(before) + (Render(Leaf(m, v)) + rest), Element(m))) == if LineFree(v) then Some(v) else None
  {
    hide Name, Inner, Avoids, Leaf, Exec, Element, LineFree;
    PatternHeads(m, LINE);
    SkipTokens(before, Render(Leaf(m, v)) + rest, m.l, Element(m));
    LeafExec(m, v, rest);
    LeafEnd(m, v, rest, Element(m));
  }

  lemma TwoProperties(a: seq<Token>, s: string, b: seq<Token>, r: string, c: seq<Token>)
    requires Avoids(a, Property) && Avoids(b, Property) && Avoids(c, Property) && Bracketless(s) && Bracketless(r)
    ensures Find(Render(a + Leaf(SENDER, s) + (b + Leaf(RECIPIENT, r) + c)), Element(SENDER)) == if LineFree(s) then Some(s) else None
    ensures Find(Render(a + Leaf(SENDER, s) + (b + Leaf(RECIPIENT, r) + c)), Element(RECIPIENT)) == if LineFree(r) then Some(r) else None
  {
    hide Name, Inner, Avoids, Leaf, Search, Element, LineFree, Bracketless, Render;
    RenderConcat(a + Leaf(SENDER, s), b + Leaf(RECIPIENT, r) + c);
    RenderConcat(a, Leaf(SENDER, s));
    RenderConcat(b + Leaf(RECIPIENT, r), c);
    RenderConcat(b, Leaf(RECIPIENT, r));
    var second := Render(b) + (Render(Leaf(RECIPIENT, r)) + Render(c));
    assert Render(a + Leaf(SENDER, s) + (b + Leaf(RECIPIENT, r) + c)) == Render(a) + (Render(Leaf(SENDER, s)) + second);
    PropertiesDiffer();
    SenderSeen(a, s, b, r, c);
    RecipientSeen(a, s, b, r, c);
  }

  lemma SenderSeen(a: seq<Token>, s: string, b: seq<Token>, r: string, c: seq<Token>)
    requires Avoids(a, Property) && Avoids(b, Property) && Avoids(c, Property) && Bracketless(s) && Bracketless(r)
    ensures Captured(Search(Render(a) + (Render(Leaf(SENDER, s)) + (Render(b) + (Render(Leaf(RECIPIENT, r)) + Render(c)))), Element(SENDER)))
      == if LineFree(s) then Some(s) else None
  {
    hide Name, Inner, Avoids, Leaf, Search, Element, LineFree, Bracketless, Render, Captured;
    PropertiesDiffer();
    PatternHeads(SENDER, LINE);
    NothingLeft(c, Property, Element(SENDER));
    SkipOther(SENDER, RECIPIENT, r, Render(c));
    SkipTokens(b, Render(Leaf(RECIPIENT, r)) + Render(c), Property, Element(SENDER));
    FirstLeaf(a, SENDER, s, Render(b) + (Render(Leaf(RECIPIENT, r)) + Render(c)));
  }

  lemma RecipientSeen(a: seq<Token>, s: string, b: seq<Token>, r: string, c: seq<Token>)
    requires Avoids(a, Property) && Avoids(b, Property) && Avoids(c, Property) && Bracketless(s) && Bracketless(r)
    ensures Captured(Search(Render(a) + (Render(Leaf(SENDER, s)) + (Render(b) + (Render(Leaf(RECIPIENT, r)) + Render(c)))), Element(RECIPIENT)))
      == if LineFree(r) then Some(r) else None
  {
    hide Name, Inner, Avoids, Leaf, Search, Element, LineFree, Bracketless, Render, Captured;
    PropertiesDiffer();
    PatternHeads(RECIPIENT, LINE);
    var second := Render(b) + (Render(Leaf(RECIPIENT, r)) + Render(c));
    SkipTokens(a, Render(Leaf(SENDER, s)) + second, Property, Element(RECIPIENT));
    SkipOther(RECIPIENT, SENDER, s, second);
    NothingLeft(c, Property, Element(RECIPIENT));
    FirstLeaf(b, RECIPIENT, r, Render(c));
  }

  lemma UserProperties(f: Fields)
    ensures Find(BuildUserMessage(f), Element(SENDER)) == Back(f.senderParticipantId)
    ensures Find(BuildUserMessage(f), Element(RECIPIENT)) == Back(f.receiverParticipantId)
  {
    hide UserPieces, Flatten, Leaf, Element, Esc, Bracketless, LineFree, Find, Render, Avoids;
    UserCount(f);
    PropertyPieces(f);
    PropertyOnly(f);
    var pieces := UserPieces(f);
    FlattenAt(pieces, 18);
    var tail := pieces[19..];
    FlattenAt(tail, 1);
    EscLines(f.senderParticipantId);
    EscLines(f.receiverParticipantId);
    TwoProperties(Flatten(pieces[..18]), Esc(f.senderParticipantId), Flatten(tail[..1]), Esc(f.receiverParticipantId), Flatten(tail[2..]));
  }

  lemma PropertyPieces(f: Fields)
    ensures |UserPieces(f)| == 24
    ensures UserPieces(f)[18] == Leaf(SENDER, Esc(f.senderParticipantId)) && UserPieces(f)[20] == Leaf(RECIPIENT, Esc(f.receiverParticipantId))
  {
    hide Bracketless, Pad, Break, Leaf, Block, Top, UserBottom, PartyTokens, DocTypeIdentifier, Esc;
  }

  lemma PropertyOnly(f: Fields)
    ensures |UserPieces(f)| == 24
    ensures Avoids(Flatten(UserPieces(f)[..18]), Property) && Avoids(Flatten(UserPieces(f)[19..][..1]), Property)
    ensures Avoids(Flatten(UserPieces(f)[19..][2..]), Property)
  {
    hide UserPieces, Avoids;
    UserCount(f);
    FirstAvoids(f, Property);
    LastAvoids(f, Property);
    EndsAvoid(f, Property);
    PartiesAvoid(f, Property);
    LeavesAvoid(f, Property);
    MoreLeavesAvoid(f, Property);
    AgreementAvoids(f, Property);
    var ps := UserPieces(f);
    forall i | 0 <= i < 24 && i != 18 && i != 20 ensures Avoids(ps[i], Property) {
      assert i in [1, 2, 4, 6, 8, 10] || i in [12, 14, 16, 17, 19, 21, 22] || i in [0, 3, 5, 7, 9, 11, 13, 15, 23];
    }
    forall i | 0 <= i < 18 ensures Avoids(ps[..18][i], Property) { assert ps[..18][i] == ps[i]; }
    AllAvoid(ps[..18], Property);
    assert ps[19..][..1][0] == ps[19];
    AllAvoid(ps[19..][..1], Property);
    forall i | 0 <= i < 3 ensures Avoids(ps[19..][2..][i], Property) { assert ps[19..][2..][i] == ps[21 + i]; }
    AllAvoid(ps[19..][2..], Property);
  }

  lemma AllAvoid(ps: seq<seq<Token>>, l: Label)
    requires forall i :: 0 <= i < |ps| ==> Avoids(ps[i], l)
    ensures Avoids(Flatten(ps), l)
  {
    forall t | t in Flatten(ps) ensures Keeps(t, l) {
      FlattenIn(ps, t);
      var i :| 0 <= i < |ps| && t in ps[i];
      assert Avoids(ps[i], l);
    }
  }

  // ----- the main theorem

  lemma StripPrefix(d: string)
    ensures StripQns(QNS + d) == d
  {
    hide IsSimple;
    var q: string := QNS;
    StripAny(q, d);
  }

  lemma StripAny(q: string, d: string)
    ensures q <= q + d && (q + d)[|q|..] == d
  {
  }

  /** What the parser reports of a user message. */
  function UserResult(f: Fields): Outcome {
    if LineFree(f.messageId) && !Uuid(Esc(f.messageId)) then Rejected(Esc(f.messageId))
    else
      Parsed(Soap(IsUser, None, Back(f.messageId), Back(f.timestamp), Back(f.fromApId), Back(f.toApId),
        Back(f.senderParticipantId), Back(f.receiverParticipantId), Back(f.processId), Some(DocTypeIdentifier(f.documentType))))
  }

  /**
   * Every field comes back as its escaped form, unless it has a line terminator: then it comes back absent, never as
   * another field's text. The document type identifier comes back exactly.
   */
  lemma UserMessageReads(f: Fields)
    ensures ReadSoap(BuildUserMessage(f)) == UserResult(f)
  {
    hide BuildUserMessage, Find, FindParty, Classify, Uuid, Esc, LineFree, Element, LooseElement, DocTypeIdentifier, StripQns;
    UserClassified(f);
    UserFinds(f);
    UserFindsAction(f);
    UserHasNoRef(f);
    UserParties(f);
    UserProperties(f);
    StripPrefix(DocTypeIdentifier(f.documentType));
  }

  // ----- the document type, in its own text

  /** The identifier of the given kind. */
  function IdentifierText(kind: string): string {
    "urn:oasis:names:" + "specification:ubl:" + "schema:xsd:" + kind + ("-2::" + kind)
    + ("##urn:cen.eu:en16931" + ":2017#compliant" + ("#urn:fdc:peppol.eu:" + "2017:poacc:billing:") + "3.0::2.1")
  }

  /** Credit notes, under either of their two names, are sent as credit notes and everything else as an invoice. */
  lemma DocumentTypeSent(f: Fields)
    ensures var out, credit := ReadSoap(BuildUserMessage(f)), f.documentType == "credit_note" || f.documentType == "CreditNote";
      out.Parsed? ==>
        && (out.soap.documentTypeIdentifier == Some(IdentifierText("CreditNote")) <==> credit)
        && (out.soap.documentTypeIdentifier == Some(IdentifierText("Invoice")) <==> !credit)
  {
    hide BuildUserMessage, ReadSoap, DocTypeIdentifier, IdentifierText, Back;
    UserMessageReads(f);
    IdentifierIs(f.documentType);
    IdentifiersDiffer();
  }

  lemma IdentifierIs(documentType: string)
    ensures DocTypeIdentifier(documentType)
      == IdentifierText(if documentType == "credit_note" || documentType == "CreditNote" then "CreditNote" else "Invoice")
  {
    var kind: string := DocKind(documentType);
    var space: string, suffix: string := DOC_SPACE, DOC_SUFFIX;
    SpaceText();
    SuffixText();
    assert DocTypeIdentifier(documentType) == space + kind + ("-2::" + kind) + suffix;
  }

  lemma SpaceText()
    ensures DOC_SPACE == "urn:oasis:names:" + "specification:ubl:" + "schema:xsd:"
  {
  }

  lemma SuffixText()
    ensures DOC_SUFFIX == "##urn:cen.eu:en16931" + ":2017#compliant" + ("#urn:fdc:peppol.eu:" + "2017:poacc:billing:") + "3.0::2.1"
  {
  }

  lemma IdentifiersDiffer()
    ensures IdentifierText("CreditNote") != IdentifierText("Invoice")
  {
    var space: string := "urn:oasis:names:" + "specification:ubl:" + "schema:xsd:";
    var n := |space|;
    FirstOfKind(space, "CreditNote");
    FirstOfKind(space, "Invoice");
  }

  lemma FirstOfKind(space: string, kind: string)
    requires space == "urn:oasis:names:" + "specification:ubl:" + "schema:xsd:" && kind != ""
    ensures |IdentifierText(kind)| > |space| && IdentifierText(kind)[|space|] == kind[0]
  {
    var rest := ("-2::" + kind)
      + ("##urn:cen.eu:en16931" + ":2017#compliant" + ("#urn:fdc:peppol.eu:" + "2017:poacc:billing:") + "3.0::2.1");
    assert IdentifierText(kind) == space + kind + rest;
  }

  /** Without markup characters and line terminators a field comes back as it is. */
  lemma BackIdentity(v: string)
    ensures Back(v) == Some(v) <==> LineFree(v) && forall c <- v :: c !in SPECIALS
  {
    EscIdentity(v);
  }

  /** An accepted id has no character escaping changes, so it comes back exactly. */
  lemma AcceptedId(v: string)
    requires Uuid(Esc(v))
    ensures Esc(v) == v && Bracketless(v) && LineFree(v)
  {
    UuidPlain(Esc(v));
    NoAmpersand(v);
    EscHasNoMarkup(v);
  }

  lemma UuidPlain(s: string)
    requires Uuid(s)
    ensures '&' !in s && LineFree(s)
  {
    forall i | 0 <= i < |s| ensures s[i] != '&' && !LineEnd(s[i]) {
      if i < 5 {
        assert s[i] == s[..5][i] == "uuid:"[i];
      }
    }
  }

  lemma {:induction false} NoAmpersand(v: string)
    ensures '&' !in Esc(v) ==> Esc(v) == v
  {
    EscIsOnePass(v);
    if v != "" {
      assert v == [v[0]] + v[1..];
      EscIsOnePass(v[1..]);
      NoAmpersand(v[1..]);
      if v[0] in SPECIALS {
        EntityShape(v[0]);
        assert Esc(v)[0] == '&';
      } else {
        assert Esc(v) == [v[0]] + Esc(v[1..]);
      }
    }
  }

  /** The id comes back exactly if and only if it is well formed; a malformed one on one line is rejected. */
  lemma MessageIdAccepted(f: Fields)
    ensures var out := ReadSoap(BuildUserMessage(f));
      && (out.Rejected? <==> LineFree(f.messageId) && !Uuid(f.messageId))
      && (out.Parsed? && out.soap.messageId == Some(f.messageId) <==> Uuid(f.messageId))
  {
    hide BuildUserMessage, ReadSoap, DocTypeIdentifier, Uuid, LineFree, Esc;
    UserMessageReads(f);
    if Uuid(f.messageId) {
      UuidSimple(f.messageId);
    }
    if Uuid(Esc(f.messageId)) {
      AcceptedId(f.messageId);
    }
  }

  lemma UuidSimple(v: string)
    requires Uuid(v)
    ensures Esc(v) == v && LineFree(v) && Bracketless(v)
  {
    forall c | c in v ensures c !in SPECIALS && !LineEnd(c) {
      var i :| 0 <= i < |v| && v[i] == c;
      if i < 5 {
        assert v[i] == v[..5][i] == "uuid:"[i];
      }
    }
    EscIdentity(v);
  }
}
