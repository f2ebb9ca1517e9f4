/** Reading back the receipts and errors the access point sends, and the dispatch on them. */
module As4Signals {
  import opened Options
  import opened Strings
  import opened XmlText
  import opened TextSearch
  import opened As4Text
  import opened As4Search
  import opened As4Envelope
  import opened As4Reading
  import opened As4Classify
  import opened As4ErrorCode
  import opened As4RawText

  // ----- the signal pattern is found

  lemma RenderTop(spaces: Attrs, messaging: Attrs)
    ensures Render(Top(spaces, messaging))
      == Join(Opening(spaces)) + Render(Gap()) + Show(Tag(Open(Messaging, messaging))) + Pad(6).s
  {
    hide Render, Pad, Break, Inner, Opening, Gap;
    var decl, env, mess := Tag(Open(XmlDecl, Declared)), Tag(Open(Envelope, spaces)), Tag(Open(Messaging, messaging));
    TopParts(spaces, messaging);
    RenderConcat([decl] + [Break()] + [env] + Gap() + [mess], [Pad(6)]);
    RenderConcat([decl] + [Break()] + [env] + Gap(), [mess]);
    RenderConcat([decl] + [Break()] + [env], Gap());
    RenderConcat([decl] + [Break()], [env]);
    RenderConcat([decl], [Break()]);
    RenderOne(decl);
    RenderOne(Break());
    RenderOne(env);
    RenderOne(mess);
    RenderOne(Pad(6));
    OpeningText(spaces);
    BreakText();
  }

  lemma BreakText()
    ensures Show(Break()) == "\n"
  {
  }

  function Gap(): seq<Token> {
    [Pad(2), Tag(Plain(Header)), Pad(4)]
  }

  lemma TopParts(spaces: Attrs, messaging: Attrs)
    ensures Top(spaces, messaging)
      == [Tag(Open(XmlDecl, Declared))] + [Break()] + [Tag(Open(Envelope, spaces))] + Gap() + [Tag(Open(Messaging, messaging))] + [Pad(6)]
  {
    hide Pad, Break;
  }

  lemma SignalFound(spaces: Attrs, messaging: Attrs, inner: seq<Token>, rest: seq<Token>)
    ensures Test(Render(Top(spaces, messaging) + SignalBlock(inner) + rest), SIGNAL_MESSAGE)
  {
    hide Render, Pad, Show, Opening, Middle, Top, SignalBlock, SignalRest, Gap, Exec, Search, Fits;
    var gap, pad, body := Render(Gap()), Pad(6).s, Render(inner);
    RenderConcat(Top(spaces, messaging) + SignalBlock(inner), rest);
    RenderConcat(Top(spaces, messaging), SignalBlock(inner));
    RenderTop(spaces, messaging);
    RenderSignal(inner);
    OpeningFits(spaces);
    MiddleFits(gap, messaging, pad, body);
    FitsConcat(Opening(spaces), Middle(gap, messaging, pad, body), SIGNAL_MESSAGE, 9);
    FitsMatches(Opening(spaces) + Middle(gap, messaging, pad, body), SIGNAL_MESSAGE, Render(rest));
    JoinConcat(Opening(spaces), Middle(gap, messaging, pad, body));
    MiddleJoined(gap, messaging, pad, inner);
    SignalText(Join(Opening(spaces)), gap, Show(Tag(Open(Messaging, messaging))), pad, SignalRest(inner), Render(rest));
    SearchStarts(Render(Top(spaces, messaging) + SignalBlock(inner) + rest), SIGNAL_MESSAGE);
  }

  lemma SignalText(a: string, gap: string, m: string, pad: string, block: string, rest: string)
    ensures (a + gap + m + pad) + block + rest == a + (gap + m + pad + block) + rest
  {
  }

  lemma MiddleJoined(gap: string, messaging: Attrs, pad: string, inner: seq<Token>)
    ensures Join(Middle(gap, messaging, pad, Render(inner))) == gap + Show(Tag(Open(Messaging, messaging))) + pad + SignalRest(inner)
  {
    hide Join, Render, Show, Middle, Pad;
    MiddleText(gap, messaging, pad, Render(inner));
    Flat(gap + Show(Tag(Open(Messaging, messaging))) + pad, Show(Tag(Plain(SignalMessage))), Render(inner),
      Show(Tag(Close(SignalMessage))), Pad(4).s, Show(Tag(Close(Messaging))));
  }

  lemma Flat(x: string, a: string, b: string, c: string, d: string, e: string)
    ensures x + a + b + c + d + e == x + (a + b + c + d + e)
  {
  }

  function SignalBlock(inner: seq<Token>): seq<Token> {
    [Tag(Plain(SignalMessage))] + inner + [Tag(Close(SignalMessage))] + [Pad(4)] + [Tag(Close(Messaging))]
  }

  function SignalRest(inner: seq<Token>): string {
    Show(Tag(Plain(SignalMessage))) + Render(inner) + Show(Tag(Close(SignalMessage))) + Pad(4).s + Show(Tag(Close(Messaging)))
  }

  lemma RenderSignal(inner: seq<Token>)
    ensures Render(SignalBlock(inner)) == SignalRest(inner)
  {
    hide Render, Pad, Inner;
    var open, end, close := Tag(Plain(SignalMessage)), Tag(Close(SignalMessage)), Tag(Close(Messaging));
    RenderConcat([open] + inner + [end] + [Pad(4)], [close]);
    RenderConcat([open] + inner + [end], [Pad(4)]);
    RenderConcat([open] + inner, [end]);
    RenderConcat([open], inner);
    RenderOne(open);
    RenderOne(end);
    RenderOne(Pad(4));
    RenderOne(close);
  }

  /** The shape both signals share; the end tag of `eb:SignalMessage` is at place k. */
  predicate SignalShape(pieces: seq<seq<Token>>, messaging: Attrs, k: nat) {
    && 2 <= k && |pieces| == k + 4
    && pieces[0] == Top(SignalSpaces, messaging) && pieces[1] == [Tag(Plain(SignalMessage))]
    && pieces[k] == [Tag(Close(SignalMessage))] && pieces[k + 1] == [Pad(4)] && pieces[k + 2] == [Tag(Close(Messaging))]
  }

  lemma SignalClassified(pieces: seq<seq<Token>>, messaging: Attrs, k: nat)
    requires SignalShape(pieces, messaging, k)
    ensures Classify(Render(Flatten(pieces))) == IsSignal
  {
    hide Render, Pad, Top, Search;
    FlattenAt(pieces, 0);
    var tail := pieces[1..];
    FlattenAt(tail, k - 1);
    var inner := Flatten(tail[1..k - 1]);
    FlattenSplit(tail[..k - 1], 1);
    assert tail[..k - 1][..1] == [tail[0]] && tail[..k - 1][1..] == tail[1..k - 1];
    FlattenOne(tail[0]);
    var after := tail[k..];
    FlattenAt(after, 1);
    assert after[..1] == [after[0]];
    FlattenOne(after[0]);
    var rest := Flatten(after[2..]);
    assert Flatten(pieces[..0]) == [];
    assert Flatten(pieces) == Top(SignalSpaces, messaging) + SignalBlock(inner) + rest;
    SignalFound(SignalSpaces, messaging, inner, rest);
  }

  lemma FlattenOne(ts: seq<Token>)
    ensures Flatten([ts]) == ts
  {
    assert [ts][1..] == [];
    assert ts + [] == ts;
  }

  // ----- which piece has which name

  function ErrorPlace(l: Label): nat {
    match l
    case Timestamp => 3
    case MessageId => 5
    case Error => 7
    case Description => 9
    case RefToMessageId => 11
    case _ => 19
  }

  lemma SignalBottomAvoids(l: Label)
    requires Searched(l)
    ensures Avoids([Pad(4)] + SecurityTokens() + SignalBottom(), l)
    ensures Avoids([Pad(4), Tag(Open(Security, MustEmpty))] + SignalBottom(), l)
  {
    hide Bracketless, Pad, Break, SecurityTokens;
    SecurityAvoids(l);
    AvoidsConcat([Pad(4)], SecurityTokens(), l);
    AvoidsConcat([Pad(4)] + SecurityTokens(), SignalBottom(), l);
    AvoidsConcat([Pad(4), Tag(Open(Security, MustEmpty))], SignalBottom(), l);
  }

  lemma ErrorFirstAvoids(e: Failure, l: Label)
    requires Searched(l)
    ensures |ErrorPieces(e)| == 19
    ensures forall i <- [1, 2, 4, 6] :: Avoids(ErrorPieces(e)[i], l)
    ensures !l.Error? ==> Avoids(ErrorPieces(e)[7], l)
  {
    hide Bracketless, Pad, Break, Leaf, Top, SignalBottom, SecurityTokens, RefTokens, DescriptionText, Esc;
  }

  lemma ErrorLastAvoids(e: Failure, l: Label)
    requires Searched(l)
    ensures |ErrorPieces(e)| == 19
    ensures forall i <- [10, 12, 13, 14, 15, 16, 17] :: Avoids(ErrorPieces(e)[i], l)
  {
    hide Bracketless, Pad, Break, Leaf, Top, SignalBottom, SecurityTokens, RefTokens, DescriptionText, Esc;
  }

  lemma DescriptionPlain(e: Failure)
    ensures Bracketless(DescriptionText(e))
  {
    hide Esc;
    EscLines(e.message);
    EscLines(e.details);
  }

  lemma ErrorInfoAvoids(e: Failure, l: Label)
    requires Searched(l)
    ensures |ErrorPieces(e)| == 19
    ensures !l.Timestamp? ==> Avoids(ErrorPieces(e)[3], l)
    ensures !l.MessageId? ==> Avoids(ErrorPieces(e)[5], l)
  {
    hide Bracketless, Pad, Break, Leaf, Top, SignalBottom, SecurityTokens, DescriptionText, RefTokens, Esc, Avoids;
    EscLines(e.timestamp);
    EscLines(e.errorMessageId);
    if !l.Timestamp? {
      AvoidsLeaf(Plain(Timestamp), Esc(e.timestamp), l);
    }
    if !l.MessageId? {
      AvoidsLeaf(Plain(MessageId), Esc(e.errorMessageId), l);
    }
  }

  lemma RefTokensAvoid(ref: string, l: Label)
    ensures !l.RefToMessageId? || ref == "" ==> Avoids(RefTokens(ref), l)
  {
    hide Bracketless, Leaf, Esc;
    EscLines(ref);
    if !l.RefToMessageId? {
      AvoidsLeaf(Plain(RefToMessageId), Esc(ref), l);
    }
  }

  lemma ErrorLeavesAvoid(e: Failure, l: Label)
    requires Searched(l)
    ensures |ErrorPieces(e)| == 19
    ensures !l.Description? ==> Avoids(ErrorPieces(e)[9], l)
    ensures !l.RefToMessageId? || e.refMessageId == "" ==> Avoids(ErrorPieces(e)[11], l)
  {
    hide Bracketless, Pad, Break, Leaf, Top, SignalBottom, SecurityTokens, DescriptionText, RefTokens, Esc, Avoids;
    DescriptionPlain(e);
    RefTokensAvoid(e.refMessageId, l);
    if !l.Description? {
      AvoidsLeaf(Plain(Description), DescriptionText(e), l);
    }
  }

  lemma ErrorEndsAvoid(e: Failure, l: Label)
    requires Searched(l)
    ensures |ErrorPieces(e)| == 19
    ensures Avoids(ErrorPieces(e)[0], l) && Avoids(ErrorPieces(e)[8], l) && Avoids(ErrorPieces(e)[18], l)
  {
    hide Bracketless, Pad, Break, Leaf, Top, SignalBottom, SecurityTokens, RefTokens, DescriptionText, Esc, Avoids;
    TopAvoids(SignalSpaces, Must, l);
    SeverityAvoids(l);
    SignalBottomAvoids(l);
  }

  lemma SeverityAvoids(l: Label)
    requires Searched(l)
    ensures Avoids([Pad(10)] + Leaf(Plain(Severity), FAILURE) + [Pad(10)], l)
  {
    hide Bracketless, Pad, Leaf;
    AvoidsAround([Pad(10)], Plain(Severity), FAILURE, [Pad(10)], l);
  }

  lemma ErrorOnly(e: Failure, l: Label)
    requires Searched(l)
    ensures |ErrorPieces(e)| == 19 && OnlyAt(ErrorPieces(e), ErrorPlace(l), l)
    ensures l.RefToMessageId? && e.refMessageId == "" ==> Avoids(ErrorPieces(e)[11], l)
  {
    hide ErrorPieces, Avoids;
    ErrorFirstAvoids(e, l);
    ErrorLastAvoids(e, l);
    ErrorInfoAvoids(e, l);
    ErrorLeavesAvoid(e, l);
    ErrorEndsAvoid(e, l);
    var ps := ErrorPieces(e);
    forall i | 0 <= i < 19 && i != ErrorPlace(l) ensures Avoids(ps[i], l) {
      assert i in [1, 2, 4, 6] || i in [10, 12, 13, 14, 15, 16, 17] || i in [0, 3, 5, 7, 8, 9, 11, 18];
    }
  }

  function MdnPlace(l: Label): nat {
    match l
    case Timestamp => 3
    case MessageId => 5
    case Receipt => 7
    case RefToMessageId => 9
    case _ => 17
  }

  /** What the receipt's sender makes up itself has no markup; the message id is the other side's. */
  predicate OwnClean(r: Mdn) {
    Bracketless(r.receiptMessageId) && Bracketless(r.timestamp)
  }

  lemma MdnFirstAvoids(r: Mdn, l: Label)
    requires Searched(l)
    ensures |MdnPieces(r)| == 17
    ensures forall i <- [1, 2, 4, 6, 8] :: Avoids(MdnPieces(r)[i], l)
    ensures !l.Receipt? ==> Avoids(MdnPieces(r)[7], l)
  {
    hide Bracketless, Pad, Break, Leaf, Top, SignalBottom;
  }

  lemma MdnLastAvoids(r: Mdn, l: Label)
    requires Searched(l)
    ensures |MdnPieces(r)| == 17
    ensures forall i <- [10, 11, 12, 13, 14, 15] :: Avoids(MdnPieces(r)[i], l)
  {
    hide Bracketless, Pad, Break, Leaf, Top, SignalBottom;
  }

  lemma MdnLeavesAvoid(r: Mdn, l: Label)
    requires Searched(l) && OwnClean(r)
    ensures |MdnPieces(r)| == 17
    ensures Avoids(MdnPieces(r)[0], l) && Avoids(MdnPieces(r)[16], l)
    ensures !l.Timestamp? ==> Avoids(MdnPieces(r)[3], l)
    ensures !l.MessageId? ==> Avoids(MdnPieces(r)[5], l)
  {
    hide Bracketless, Pad, Break, Leaf, Top, SignalBottom, Avoids;
    TopAvoids(SignalSpaces, NoAttrs, l);
    SignalBottomAvoids(l);
    if !l.Timestamp? {
      AvoidsLeaf(Plain(Timestamp), r.timestamp, l);
    }
    if !l.MessageId? {
      AvoidsLeaf(Plain(MessageId), r.receiptMessageId, l);
    }
  }

  /** Apart from the element itself, only the message id can bring in another tag. */
  lemma MdnOnly(r: Mdn, l: Label)
    requires Searched(l) && OwnClean(r)
    ensures |MdnPieces(r)| == 17 && forall i :: 0 <= i < 17 && i != 9 && i != MdnPlace(l) ==> Avoids(MdnPieces(r)[i], l)
  {
    hide MdnPieces, Avoids;
    MdnFirstAvoids(r, l);
    MdnLastAvoids(r, l);
    MdnLeavesAvoid(r, l);
    var ps := MdnPieces(r);
    forall i | 0 <= i < 17 && i != 9 && i != MdnPlace(l) ensures Avoids(ps[i], l) {
      assert i in [1, 2, 4, 6, 8] || i in [10, 11, 12, 13, 14, 15] || i in [0, 3, 5, 7, 9, 16];
    }
  }

  // ----- dispatch

  /** A signal as the handler sees it; "" stands for an absent reference or message. */
  datatype Signal =
    | ReceiptSignal(ref: string)
    | ErrorSignal(ref: string, code: string, message: string)
    | UnknownSignal(ref: string)

  function Present(o: Option<string>): string {
    match o
    case None => ""
    case Some(s) => s
  }

  function CodeOf(raw: string): string {
    Or(Or(Present(Find(raw, ERROR_CODE)), Present(Find(raw, LooseElement(Error, CONTENT)))), "EB:000")
  }

  function MessageOf(raw: string): string {
    Trim(Present(Find(raw, LooseElement(Description, CONTENT))))
  }

  function ReadSignal(raw: string, refMessageId: Option<string>): Signal {
    var ref := Present(refMessageId);
    if Test(raw, Extent(Receipt)) then ReceiptSignal(ref)
    else if Test(raw, Extent(Error)) then ErrorSignal(ref, CodeOf(raw), MessageOf(raw))
    else UnknownSignal(ref)
  }

  /** A signal without the element of a receipt or of an error is neither. */
  lemma NeitherRead(ts: seq<Token>, ref: Option<string>)
    requires Avoids(ts, Receipt) && Avoids(ts, Error)
    ensures ReadSignal(Render(ts), ref) == UnknownSignal(Present(ref))
  {
    hide Avoids, Extent, Search, Render;
    PatternHeads(Plain(Receipt), LINE);
    PatternHeads(Plain(Error), LINE);
    NothingLeft(ts, Receipt, Extent(Receipt));
    NothingLeft(ts, Error, Extent(Error));
  }

  // ----- receipts

  lemma MdnParts(r: Mdn)
    ensures SignalShape(MdnPieces(r), NoAttrs, 13)
    ensures MdnPieces(r)[5] == Leaf(Plain(MessageId), r.receiptMessageId)
    ensures MdnPieces(r)[7] == [Tag(Plain(Receipt))] && MdnPieces(r)[11] == [Tag(Close(Receipt))]
    ensures MdnPieces(r)[9] == Leaf(Plain(RefToMessageId), r.originalMessageId)
  {
    hide Pad, Leaf, Top, SignalBottom;
  }

  lemma BlockFound(pieces: seq<seq<Token>>, i: nat, j: nat, m: Mark)
    requires i < j < |pieces| && m.Open? && pieces[i] == [Tag(m)] && pieces[j] == [Tag(Close(m.l))]
    ensures Test(Render(Flatten(pieces)), Extent(m.l))
  {
    hide Render, Search, Extent, Flatten, Test, Block;
    FlattenAt(pieces, i);
    var tail := pieces[i + 1..];
    FlattenAt(tail, j - i - 1);
    assert tail[j - i - 1] == pieces[j];
    var a, b, c := Flatten(pieces[..i]), Flatten(tail[..j - i - 1]), Flatten(tail[j - i..]);
    BlockJoin(a, m, b, c);
    ExtentFound(a, m, b, c);
  }

  lemma BlockJoin(a: seq<Token>, m: Mark, b: seq<Token>, c: seq<Token>)
    ensures a + [Tag(m)] + (b + [Tag(Close(m.l))] + c) == a + Block(m, b) + c
  {
  }

  /** The end tag behind the message id of a receipt. */
  function RefEnd(): string {
    Angle("/" + Name(RefToMessageId))
  }

  /** A message id that a receipt can carry: one line, without the end tag of the element it is written into. */
  predicate Carried(id: string) {
    LineFree(id) && !Occurs(RefEnd(), id)
  }

  lemma MdnRefOnly(r: Mdn)
    requires OwnClean(r)
    ensures OnlyAt(MdnPieces(r), 9, RefToMessageId) && |MdnPieces(r)| == 17
  {
    hide MdnPieces, Avoids;
    MdnOnly(r, RefToMessageId);
  }

  lemma MdnOwnId(r: Mdn)
    requires OwnClean(r) && LineFree(r.receiptMessageId)
    ensures Find(BuildMdn(r), Element(Plain(MessageId))) == Some(r.receiptMessageId)
  {
    hide MdnPieces, Flatten, Leaf, Element, Render, Avoids, Find, LineFree;
    MdnParts(r);
    MdnOnly(r, MessageId);
    NoTagIn(r.receiptMessageId, "/" + Name(MessageId));
    FirstPiece(MdnPieces(r), 5, Plain(MessageId), r.receiptMessageId);
  }

  lemma NoTagIn(s: string, body: string)
    requires Bracketless(s)
    ensures !Occurs(Angle(body), s)
  {
    forall k | 0 <= k <= |s| ensures !(Angle(body) <= s[k..]) {
      if k < |s| {
        assert s[k..][0] == s[k] && s[k] in s;
      }
    }
  }

  /**
   * A receipt is always read as a signal and dispatched as a receipt. It names the original message if and only if the
   * id, which is not escaped, is one line without the end tag.
   */
  lemma MdnReads(r: Mdn)
    requires OwnClean(r)
    ensures ReadSoap(BuildMdn(r)).Parsed?
    ensures var soap := ReadSoap(BuildMdn(r)).soap;
      && soap.signalType == IsSignal && ReadSignal(BuildMdn(r), soap.refMessageId) == ReceiptSignal(Present(soap.refMessageId))
      && (LineFree(r.receiptMessageId) ==> soap.messageId == Some(r.receiptMessageId))
      && (soap.refMessageId == Some(r.originalMessageId) <==> Carried(r.originalMessageId))
  {
    hide MdnPieces, Flatten, Leaf, Element, Render, Find, FindParty, LooseElement, Bracketless, LineFree, Uuid, OnlyAt, SignalShape, Classify, Test, Extent, Occurs, Angle;
    MdnParts(r);
    SignalClassified(MdnPieces(r), NoAttrs, 13);
    if LineFree(r.receiptMessageId) {
      MdnOwnId(r);
    }
    MdnRefOnly(r);
    RawPiece(MdnPieces(r), 9, Plain(RefToMessageId), r.originalMessageId);
    BlockFound(MdnPieces(r), 7, 11, Plain(Receipt));
  }

  lemma PlainCarried(id: string)
    requires Bracketless(id) && LineFree(id)
    ensures Carried(id)
  {
    hide Occurs, Angle;
    NoTagIn(id, "/" + Name(RefToMessageId));
  }

  /** The parser sees message ids without line terminators only, and checks those of user messages. */
  lemma SeenId(raw: string)
    ensures ReadSoap(raw).Parsed? && ReadSoap(raw).soap.messageId.Some? ==>
      var id := ReadSoap(raw).soap.messageId.value; LineFree(id) && (ReadSoap(raw).soap.signalType == IsUser ==> Uuid(id))
  {
    hide Element, Pattern, LineFree, Search, Inner, Angle, Uuid, Classify, FindParty, LooseElement;
    ElementIs(Plain(MessageId));
    SearchLine(raw, Inner(Plain(MessageId)), "/" + Name(MessageId));
  }

  /** An id with an end tag in it is cut there, and the receipt names another message. */
  lemma MdnCut(r: Mdn, p: string, q: string)
    requires OwnClean(r) && r.originalMessageId == p + RefEnd() + q && Carried(p)
    ensures ReadSoap(BuildMdn(r)).Parsed? && ReadSoap(BuildMdn(r)).soap.refMessageId == Some(p)
  {
    hide MdnPieces, Flatten, Leaf, Element, Render, Find, FindParty, LooseElement, Bracketless, LineFree, Uuid, OnlyAt, SignalShape, Classify, Test, Extent, Occurs, Angle;
    MdnReads(r);
    MdnParts(r);
    MdnRefOnly(r);
    CutPiece(MdnPieces(r), 9, Plain(RefToMessageId), p, q);
  }

  // ----- errors

  lemma ErrorParts(e: Failure)
    ensures SignalShape(ErrorPieces(e), Must, 15)
    ensures ErrorPieces(e)[5] == Leaf(Plain(MessageId), Esc(e.errorMessageId))
    ensures ErrorPieces(e)[7] == [Tag(Open(Error, ErrorAttrs(e.code)))]
    ensures ErrorPieces(e)[9] == Leaf(Plain(Description), DescriptionText(e))
    ensures ErrorPieces(e)[11] == RefTokens(e.refMessageId)
    ensures ErrorPieces(e)[13] == [Tag(Close(Error))]
    ensures ErrorPieces(e)[18] == [Pad(4)] + SecurityTokens() + SignalBottom()
  {
    hide Pad, Leaf, Top, SignalBottom, SecurityTokens, RefTokens, DescriptionText, Esc;
  }

  lemma ErrorRef(e: Failure)
    ensures Find(BuildError(e), Element(Plain(RefToMessageId))) == if e.refMessageId == "" then None else Back(e.refMessageId)
  {
    hide ErrorPieces, Flatten, Leaf, Element, Render, LineFree, Bracketless, OnlyAt, SignalShape, Esc, Search;
    ErrorParts(e);
    ErrorOnly(e, RefToMessageId);
    EscLines(e.refMessageId);
    if e.refMessageId != "" {
      ExtractPiece(ErrorPieces(e), 11, Plain(RefToMessageId), Esc(e.refMessageId));
    } else {
      NoRefIn(e);
      PatternHeads(Plain(RefToMessageId), LINE);
      NoPiece(ErrorPieces(e), RefToMessageId, Element(Plain(RefToMessageId)));
    }
  }

  lemma NoRefIn(e: Failure)
    requires e.refMessageId == ""
    ensures forall i :: 0 <= i < |ErrorPieces(e)| ==> Avoids(ErrorPieces(e)[i], RefToMessageId)
  {
    hide ErrorPieces, Avoids;
    ErrorOnly(e, RefToMessageId);
  }

  lemma ErrorHasNoReceipt(e: Failure)
    ensures !Test(BuildError(e), Extent(Receipt))
  {
    hide ErrorPieces, Flatten, Render, Avoids, Search, Extent;
    ErrorOnly(e, Receipt);
    PatternHeads(Plain(Receipt), LINE);
    NoPiece(ErrorPieces(e), Receipt, Extent(Receipt));
  }

  lemma ErrorMessage(e: Failure)
    ensures MessageOf(BuildError(e)) == Trim(DescriptionText(e))
  {
    hide ErrorPieces, Flatten, Leaf, LooseElement, Render, Bracketless, OnlyAt, SignalShape, DescriptionText, Find, Trim;
    ErrorParts(e);
    ErrorOnly(e, Description);
    DescriptionPlain(e);
    ExtractLoosePiece(ErrorPieces(e), 9, Plain(Description), DescriptionText(e), CONTENT);
  }

  // ----- the code

  lemma CodeHeads()
    ensures Heads(ERROR_CODE, Error)
  {
    assert Name(Error) == "eb:Error";
  }

  lemma SearchIsExec(s: string, ps: seq<Piece>)
    ensures Captured(Exec(s, ps)).Some? ==> Captured(Search(s, ps)) == Captured(Exec(s, ps))
  {
  }

  /** The search at the error tag. */
  lemma CodeAtTag(code: string, rest: string)
    ensures Captured(Exec(Angle(Inner(Open(Error, ErrorAttrs(code)))) + rest, ERROR_CODE))
      == Captured(Exec(CATEGORY + (Attribute(Esc(code)) + ">" + rest), [ATTRS] + TAIL))
  {
    hide Exec, Captured, Name, Esc;
    var head, tail := "<" + Name(Error), CATEGORY + (Attribute(Esc(code)) + ">" + rest);
    assert ERROR_CODE == [Lit(head)] + ([ATTRS] + TAIL);
    LitHere(head, head + tail, [ATTRS] + TAIL);
    assert head <= head + tail && (head + tail)[|head|..] == tail;
    ErrorTagText(code, rest);
  }

  lemma ErrorTagText(code: string, rest: string)
    ensures Angle(Inner(Open(Error, ErrorAttrs(code)))) + rest == "<" + Name(Error) + (CATEGORY + (Attribute(Esc(code)) + ">" + rest))
  {
    hide Name, Esc;
    var c: string, n, e := CATEGORY, Name(Error), Esc(code);
    assert AttrText(ErrorAttrs(code)) == c + " code=\"" + e + "\"";
    TagTextShape(n, c, e, rest);
  }

  lemma TagTextShape(n: string, c: string, e: string, rest: string)
    ensures Angle(n + (c + " code=\"" + e + "\"")) + rest == "<" + n + (c + (Attribute(e) + ">" + rest))
  {
  }

  /** After the error tag there is still a quoted attribute: that of `wsse:Security`. */
  lemma QuotedRest(e: Failure)
    ensures |ErrorPieces(e)| == 19 && Quoted(Render(Flatten(ErrorPieces(e)[8..])))
  {
    hide ErrorPieces, Render, Inner, SignalShape, Flatten, Pad, SecurityTokens, SignalBottom, Quoted;
    ErrorOnly(e, Error);
    ErrorParts(e);
    var tail := ErrorPieces(e)[8..];
    assert tail[10] == ErrorPieces(e)[18] && tail[11..] == [];
    FlattenAt(tail, 10);
    FlattenNothing(tail[11..]);
    RenderConcat(Flatten(tail[..10]), tail[10]);
    assert Flatten(tail) == Flatten(tail[..10]) + tail[10];
    QuotedBottom();
    QuotedConcat(Render(Flatten(tail[..10])), Render(tail[10]));
  }

  lemma FlattenNothing(pieces: seq<seq<Token>>)
    requires pieces == []
    ensures Flatten(pieces) == []
  {
  }

  lemma QuotedBottom()
    ensures Quoted(Render([Pad(4)] + SecurityTokens() + SignalBottom()))
  {
    hide Render, Pad, SignalBottom, Leaf, Quoted;
    var must := Tag(Open(Security, Must));
    var after := [Pad(6)] + Leaf(Open(BinarySecurityToken, TokenTypes), PLACEHOLDER) + [Pad(4), Tag(Close(Security))] + SignalBottom();
    BottomShape();
    RenderConcat([Pad(4)] + [must], after);
    RenderConcat([Pad(4)], [must]);
    RenderOne(must);
    MustQuoted(Render(after));
    QuotedConcat(Render([Pad(4)]), Show(must) + Render(after));
    assert Render([Pad(4)]) + Show(must) + Render(after) == Render([Pad(4)]) + (Show(must) + Render(after));
  }

  lemma BottomShape()
    ensures [Pad(4)] + SecurityTokens() + SignalBottom() == [Pad(4)] + [Tag(Open(Security, Must))]
      + ([Pad(6)] + Leaf(Open(BinarySecurityToken, TokenTypes), PLACEHOLDER) + [Pad(4), Tag(Close(Security))] + SignalBottom())
  {
    hide Pad, SignalBottom, Leaf;
  }

  lemma MustQuoted(rest: string)
    ensures Quoted(Show(Tag(Open(Security, Must))) + rest)
  {
    hide Name;
    var n, a: string := Name(Security), " soap:mustUnder";
    assert MUST_UNDERSTAND == a + "stand=\"true\"";
    MustShape(n, a, rest);
    QuotedTrue(rest);
    QuotedConcat("<" + n + a + "stand=", "\"true\">" + rest);
  }

  lemma MustShape(n: string, a: string, rest: string)
    ensures Angle(n + (a + "stand=\"true\"")) + rest == ("<" + n + a + "stand=") + ("\"true\">" + rest)
  {
    assert "stand=\"true\"" == "stand=" + "\"true\"";
    assert "\"true\">" == "\"true\"" + ">";
  }

  lemma QuotedTrue(rest: string)
    ensures Quoted("\"true\">" + rest)
  {
    var s := "\"true\">" + rest;
    assert s[0] == '"' && s[1..][5] == '>';
  }

  lemma ErrorCodeFound(e: Failure)
    ensures var g := Find(BuildError(e), ERROR_CODE);
      if EndsInCode(Esc(e.code)) then g.Some? && '>' in g.value else g == Some(Esc(e.code))
  {
    hide ErrorPieces, Flatten, Render, OnlyAt, SignalShape, Search, Exec, Esc, Inner, Quoted, EndsInCode, Bracketless, Captured, Attribute;
    ErrorParts(e);
    ErrorOnly(e, Error);
    AroundAvoids(ErrorPieces(e), 7, Error);
    var pieces, m := ErrorPieces(e), Open(Error, ErrorAttrs(e.code));
    var before, rest := Flatten(pieces[..7]), Render(Flatten(pieces[8..]));
    ErrorText(pieces, m);
    CodeHeads();
    SkipTokens(before, Angle(Inner(m)) + rest, Error, ERROR_CODE);
    CodeAtTag(e.code, rest);
    QuotedRest(e);
    CodeEither(e, rest);
    SearchIsExec(Angle(Inner(m)) + rest, ERROR_CODE);
  }

  lemma ErrorText(pieces: seq<seq<Token>>, m: Mark)
    requires |pieces| > 8 && pieces[7] == [Tag(m)]
    ensures Render(Flatten(pieces)) == Render(Flatten(pieces[..7])) + (Angle(Inner(m)) + Render(Flatten(pieces[8..])))
  {
    hide Flatten, Render, Inner;
    FlattenAt(pieces, 7);
    RenderConcat(Flatten(pieces[..7]) + pieces[7], Flatten(pieces[8..]));
    RenderConcat(Flatten(pieces[..7]), pieces[7]);
    RenderOne(Tag(m));
  }

  lemma CodeEither(e: Failure, rest: string)
    requires Quoted(rest)
    ensures var g := Captured(Exec(CATEGORY + (Attribute(Esc(e.code)) + ">" + rest), [ATTRS] + TAIL));
      if EndsInCode(Esc(e.code)) then g.Some? && '>' in g.value else g == Some(Esc(e.code))
  {
    hide Exec, Esc, Quoted, EndsInCode, Captured, Attribute;
    EscHasNoMarkup(e.code);
    var c: string := CATEGORY;
    QuietBracketless(CATEGORY);
    if EndsInCode(Esc(e.code)) {
      BadCode(c, Esc(e.code), rest);
    } else {
      GoodCode(c, Esc(e.code), rest);
    }
  }

  lemma QuietBracketless(s: Quiet)
    ensures Bracketless(s)
  {
  }

  /** The code the handler stores is the sender's, escaped, exactly when it is not empty and does not end in `code=`. */
  lemma CodeRecovered(e: Failure)
    ensures CodeOf(BuildError(e)) == Esc(e.code) <==> e.code != "" && !CodeTail(e.code)
  {
    hide BuildError, Find, Esc, LooseElement, EndsInCode, CodeTail;
    ErrorCodeFound(e);
    CodeTailEsc(e.code);
    EscHasNoMarkup(e.code);
    EscEmpty(e.code);
  }

  lemma EscEmpty(s: string)
    ensures Esc(s) == "" <==> s == ""
  {
    BorderEsc(s);
  }

  /**
   * An error is read as a signal that names the escaped reference, if it was given one without line terminators, and is
   * dispatched as an error with the escaped code and the trimmed, escaped description.
   */
  lemma ErrorReads(e: Failure)
    ensures var out, ref := ReadSoap(BuildError(e)), if e.refMessageId == "" then None else Back(e.refMessageId);
      && out.Parsed? && out.soap.signalType == IsSignal && out.soap.refMessageId == ref
      && out.soap.messageId == Back(e.errorMessageId)
      && ReadSignal(BuildError(e), ref) == ErrorSignal(Present(ref), CodeOf(BuildError(e)), Trim(DescriptionText(e)))
  {
    hide ErrorPieces, Flatten, Leaf, Element, Render, Find, FindParty, LooseElement, Bracketless, LineFree, Uuid, OnlyAt, SignalShape;
    hide Classify, Test, Extent, MessageOf, CodeOf, Esc, DescriptionText, Trim;
    ErrorParts(e);
    SignalClassified(ErrorPieces(e), Must, 15);
    ErrorOnly(e, MessageId);
    EscLines(e.errorMessageId);
    ExtractPiece(ErrorPieces(e), 5, Plain(MessageId), Esc(e.errorMessageId));
    ErrorRef(e);
    ErrorHasNoReceipt(e);
    ErrorMessage(e);
    BlockFound(ErrorPieces(e), 7, 13, Open(Error, ErrorAttrs(e.code)));
  }
}
