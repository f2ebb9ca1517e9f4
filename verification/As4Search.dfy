/** What the element searches of the message parser find in a rendered token list. */
module As4Search {
  import opened Options
  import opened TextSearch
  import opened As4Text

  // ----- the patterns

  const LINE := Run(NotNewline, true, true)
  const STRETCH := Run(Any, true, false)
  const CONTENT := Run(Any, true, true)
  const ATTRS := Run(NotGt, false, false)

  function OpenTag(m: Mark): Piece {
    Lit(Angle(Inner(m)))
  }

  function OpenName(l: Label): Piece {
    Lit("<" + Name(l))
  }

  function CloseTag(l: Label): Piece {
    Lit(Angle("/" + Name(l)))
  }

  /** `<tag>(.*?)</name>` */
  function Element(m: Mark): seq<Piece> {
    [OpenTag(m), LINE, CloseTag(m.l)]
  }

  /** `<name[^>]*>(.*?)</name>`, or with `[\s\S]` for the dot. */
  function LooseElement(l: Label, content: Piece): seq<Piece> {
    [OpenName(l), ATTRS, Lit(">"), content, CloseTag(l)]
  }

  /** `<tag>[\s\S]*?</name>` */
  function Section(m: Mark): seq<Piece> {
    [OpenTag(m), STRETCH, CloseTag(m.l)]
  }

  /** `<name[\s\S]*?</name>` */
  function Extent(l: Label): seq<Piece> {
    [OpenName(l), STRETCH, CloseTag(l)]
  }

  // ----- where a pattern cannot start

  predicate Heads(ps: seq<Piece>, l: Label) {
    ps != [] && ps[0].Lit? && "<" + Name(l) <= ps[0].p
  }

  lemma HeadsAngled(ps: seq<Piece>, l: Label)
    requires Heads(ps, l)
    ensures Angled(ps)
  {
    assert ("<" + Name(l))[0] == '<';
  }

  lemma PatternHeads(m: Mark, content: Piece)
    requires m.Open?
    ensures Heads(Element(m), m.l) && Heads(Section(m), m.l) && Heads(LooseElement(m.l, content), m.l) && Heads(Extent(m.l), m.l)
  {
    hide Name, AttrText;
    var n := Name(m.l);
    assert Angle(Inner(m)) == ("<" + n) + (AttrText(m.a) + ">");
  }

  lemma NotClosing(l: Label, k: Label)
    ensures !(Name(l) <= "/" + Name(k))
  {
    hide Guess, Name;
    NameStarts(l, "");
    assert Name(l)[0] in Name(l);
  }

  lemma SameLabel(l: Label, k: Label, rest: string)
    ensures Name(l) <= Name(k) + rest ==> l == k
  {
    hide Guess, Name;
    if Name(l) <= Name(k) + rest {
      var n := |Name(l)|;
      NameStarts(l, (Name(k) + rest)[n..]);
      NameStarts(k, rest);
      assert Name(k) + rest == Name(l) + (Name(k) + rest)[n..];
    }
  }

  /** A search for an element of one name can start at a tag of that name only. */
  lemma StartsAt(m: Mark, rest: string, ps: seq<Piece>, l: Label)
    requires Heads(ps, l)
    ensures ps[0].p <= Angle(Inner(m)) + rest ==> m.Open? && m.l == l
  {
    hide Guess, Name, AttrText;
    if ps[0].p <= Angle(Inner(m)) + rest {
      InnerBracketless(m);
      HeadWithin(Name(l), Inner(m), rest);
      match m
      case Open(k, a) => SameLabel(l, k, AttrText(a));
      case Close(k) => NotClosing(l, k);
    }
  }

  /** No opening tag of the name, and no angle bracket in the texts. */
  predicate Avoids(ts: seq<Token>, l: Label) {
    forall t <- ts :: Keeps(t, l)
  }

  predicate Keeps(t: Token, l: Label) {
    match t
    case Tag(Open(k, _)) => k != l
    case Tag(Close(_)) => true
    case Text(s) => Bracketless(s)
  }

  lemma {:induction false} SkipTokens(ts: seq<Token>, rest: string, l: Label, ps: seq<Piece>)
    requires Heads(ps, l) && Avoids(ts, l)
    ensures Search(Render(ts) + rest, ps) == Search(rest, ps)
  {
    hide Name, Inner, Search;
    HeadsAngled(ps, l);
    if ts == [] {
      assert Render(ts) + rest == rest;
    } else {
      var tail := Render(ts[1..]) + rest;
      SkipTokens(ts[1..], rest, l, ps);
      assert Render(ts) + rest == Show(ts[0]) + tail;
      match ts[0]
      case Tag(m) =>
        assert ts[0] in ts;
        StartsAt(m, tail, ps, l);
        InnerBracketless(m);
        SearchSkipTag(Inner(m), tail, ps);
      case Text(s) =>
        assert ts[0] in ts;
        SearchSkip(s, tail, ps);
    }
  }

  lemma NothingLeft(ts: seq<Token>, l: Label, ps: seq<Piece>)
    requires Heads(ps, l) && Avoids(ts, l)
    ensures Search(Render(ts), ps) == None
  {
    hide Name, Inner, Avoids;
    SkipTokens(ts, "", l, ps);
    assert Render(ts) + "" == Render(ts);
    assert ps[0].p[0] == ("<" + Name(l))[0];
    assert Exec("", ps) == None;
  }

  // ----- one element with a text

  function Leaf(m: Mark, v: string): seq<Token> {
    [Tag(m), Text(v), Tag(Close(m.l))]
  }

  /** From the start of the content to the end tag. */
  lemma ContentHit(v: string, l: Label, rest: string, content: Piece)
    requires Bracketless(v) && (content == LINE || content == CONTENT)
    ensures Exec(v + Angle("/" + Name(l)) + rest, [content, CloseTag(l)])
      == if content == LINE && !LineFree(v) then None else Some(Hit(v + Angle("/" + Name(l)), v))
  {
    hide Name;
    var ps, close := [CloseTag(l)], Angle("/" + Name(l));
    assert [content, CloseTag(l)] == [content] + ps;
    assert v + close + rest == v + (close + rest);
    if content == LINE && !LineFree(v) {
      LazyBlocked(v, close + rest, content, ps);
    } else {
      LazySkip(v, close + rest, content, ps);
      ExecLit(close, rest, []);
      assert [Lit(close)] + [] == ps;
      LazyStop(close + rest, content, ps);
      assert close + "" == close && v + "" == v;
    }
  }

  lemma LeafExec(m: Mark, v: string, rest: string)
    requires m.Open? && Bracketless(v)
    ensures Captured(Exec(Render(Leaf(m, v)) + rest, Element(m))) == if LineFree(v) then Some(v) else None
  {
    hide Name, Inner, LineFree;
    RenderLeaf(m, v);
    var open, close := Angle(Inner(m)), Angle("/" + Name(m.l));
    ContentHit(v, m.l, rest, LINE);
    ExecLit(open, v + close + rest, [LINE, CloseTag(m.l)]);
    assert [Lit(open)] + [LINE, CloseTag(m.l)] == Element(m);
    assert open + v + close + rest == open + (v + close + rest);
  }

  lemma RenderThree(a: Token, b: Token, c: Token)
    ensures Render([a, b, c]) == Show(a) + Show(b) + Show(c)
  {
    hide Show;
    assert [a, b, c][1..] == [b, c] && [b, c][1..] == [c] && [c][1..] == [];
    assert Render([c]) == Show(c) + "";
    assert Render([b, c]) == Show(b) + Show(c);
  }

  lemma RenderLeaf(m: Mark, v: string)
    ensures Render(Leaf(m, v)) == Angle(Inner(m)) + v + Angle("/" + Name(m.l))
  {
    hide Name, Render, Angle;
    RenderThree(Tag(m), Text(v), Tag(Close(m.l)));
  }

  lemma LooseExec(m: Mark, v: string, rest: string, content: Piece)
    requires m.Open? && Bracketless(v) && (content == LINE || content == CONTENT)
    ensures Captured(Exec(Render(Leaf(m, v)) + rest, LooseElement(m.l, content)))
      == if content == LINE && !LineFree(v) then None else Some(v)
  {
    hide Name, AttrText, LineFree, Exec, Captured, Render, Leaf, LooseElement, Angle, Bracketless;
    var head, attrs, close := "<" + Name(m.l), AttrText(m.a), Angle("/" + Name(m.l));
    var tail, ps := v + close + rest, [content, CloseTag(m.l)];
    LoosePieces(m.l, content);
    LooseText(m, v, rest);
    AttrTextBracketless(m.a);
    NoBracket(attrs);
    CapturedLit(head, attrs + ">" + tail, [ATTRS] + ([Lit(">")] + ps));
    CapturedAttrs(attrs, tail, ATTRS, ps);
    ContentCaptured(v, m.l, rest, content);
  }

  lemma NoBracket(s: string)
    requires Bracketless(s)
    ensures '>' !in s
  {
  }

  lemma LoosePieces(l: Label, content: Piece)
    ensures LooseElement(l, content) == [Lit("<" + Name(l))] + ([ATTRS] + ([Lit(">")] + [content, CloseTag(l)]))
  {
    hide Name;
  }

  lemma LooseText(m: Mark, v: string, rest: string)
    requires m.Open?
    ensures Render(Leaf(m, v)) + rest
      == ("<" + Name(m.l)) + (AttrText(m.a) + ">" + (v + Angle("/" + Name(m.l)) + rest))
  {
    hide Name, AttrText, Render, Leaf;
    RenderLeaf(m, v);
    var close := Angle("/" + Name(m.l));
    assert Angle(Inner(m)) == "<" + (Name(m.l) + AttrText(m.a)) + ">";
    assert Angle(Inner(m)) + v + close + rest
      == ("<" + Name(m.l)) + (AttrText(m.a) + ">" + (v + close + rest));
  }

  lemma ContentCaptured(v: string, l: Label, rest: string, content: Piece)
    requires Bracketless(v) && (content == LINE || content == CONTENT)
    ensures Captured(Exec(v + Angle("/" + Name(l)) + rest, [content, CloseTag(l)]))
      == if content == LINE && !LineFree(v) then None else Some(v)
  {
    hide Name, LineFree, Exec;
    ContentHit(v, l, rest, content);
  }

  lemma CloseInner(l: Label)
    ensures Inner(Close(l)) == "/" + Name(l)
  {
  }

  lemma LeafEnd(m: Mark, v: string, rest: string, ps: seq<Piece>)
    requires m.Open? && Bracketless(v) && Heads(ps, m.l)
    ensures Exec(Render(Leaf(m, v)) + rest, ps) == None ==> Search(Render(Leaf(m, v)) + rest, ps) == Search(rest, ps)
  {
    hide Name, Inner, Exec, Search, Render, Leaf, Heads;
    var open, close := Angle(Inner(m)), Angle("/" + Name(m.l));
    RenderLeaf(m, v);
    assert Render(Leaf(m, v)) + rest == (open + v) + (close + rest);
    if Exec(Render(Leaf(m, v)) + rest, ps) == None {
      HeadsAngled(ps, m.l);
      InnerBracketless(m);
      assert (open + v)[1..] == Inner(m) + ">" + v;
      SearchPast(open + v, close + rest, ps);
      SkipClose(m.l, rest, ps);
    }
  }

  lemma SkipClose(l: Label, rest: string, ps: seq<Piece>)
    requires Heads(ps, l)
    ensures Search(Angle("/" + Name(l)) + rest, ps) == Search(rest, ps)
  {
    hide Name, Inner, Exec, Search;
    HeadsAngled(ps, l);
    CloseInner(l);
    InnerBracketless(Close(l));
    StartsAt(Close(l), rest, ps, l);
    SearchSkipTag("/" + Name(l), rest, ps);
  }

  lemma RenderAround(before: seq<Token>, middle: seq<Token>, after: seq<Token>)
    ensures Render(before + middle + after) == Render(before) + (Render(middle) + Render(after))
  {
    hide Render;
    RenderConcat(before + middle, after);
    RenderConcat(before, middle);
    assert Render(before) + Render(middle) + Render(after) == Render(before) + (Render(middle) + Render(after));
  }

  /** The text of the only element of a name, unless it has a line terminator in it. */
  lemma Extract(before: seq<Token>, m: Mark, v: string, after: seq<Token>)
    requires m.Open? && Avoids(before, m.l) && Avoids(after, m.l) && Bracketless(v)
    ensures Captured(Search(Render(before + Leaf(m, v) + after), Element(m))) == if LineFree(v) then Some(v) else None
  {
    hide Name, Inner, Avoids, Leaf, Exec, Element, LineFree, Bracketless, Heads, Render;
    var rest, s := Render(after), Render(Leaf(m, v)) + Render(after);
    PatternHeads(m, LINE);
    RenderAround(before, Leaf(m, v), after);
    SkipTokens(before, s, m.l, Element(m));
    LeafExec(m, v, rest);
    LeafEnd(m, v, rest, Element(m));
    NothingLeft(after, m.l, Element(m));
  }

  lemma ExtractLoose(before: seq<Token>, m: Mark, v: string, after: seq<Token>, content: Piece)
    requires m.Open? && Avoids(before, m.l) && Avoids(after, m.l) && Bracketless(v) && (content == LINE || content == CONTENT)
    ensures Captured(Search(Render(before + Leaf(m, v) + after), LooseElement(m.l, content)))
      == if content == LINE && !LineFree(v) then None else Some(v)
  {
    hide Name, Inner, Avoids, Leaf, Exec, LooseElement, LineFree, Bracketless, Heads, Render;
    var rest, s, ps := Render(after), Render(Leaf(m, v)) + Render(after), LooseElement(m.l, content);
    PatternHeads(m, content);
    RenderAround(before, Leaf(m, v), after);
    SkipTokens(before, s, m.l, ps);
    LooseExec(m, v, rest, content);
    LeafEnd(m, v, rest, ps);
    NothingLeft(after, m.l, ps);
  }

  // ----- sections

  /** No end tag of the name, and no angle bracket in the texts. */
  predicate Within(ts: seq<Token>, l: Label) {
    forall t <- ts :: if t.Tag? then t.m != Close(l) else Bracketless(t.s)
  }

  lemma EndsAt(m: Mark, rest: string, l: Label)
    ensures Angle("/" + Name(l)) <= Angle(Inner(m)) + rest ==> m == Close(l)
  {
    hide Guess, Name, AttrText;
    if Angle("/" + Name(l)) <= Angle(Inner(m)) + rest {
      CloseInner(l);
      InnerBracketless(Close(l));
      InnerBracketless(m);
      HeadWithin("/" + Name(l), Inner(m), rest);
      match m
      case Open(k, a) => SlashNotOpen(l, k, AttrText(a));
      case Close(k) =>
        assert ("/" + Name(l))[1..] == Name(l) && ("/" + Name(k))[1..] == Name(k);
        assert Name(k) + "" == Name(k);
        SameLabel(l, k, "");
    }
  }

  lemma SlashNotOpen(l: Label, k: Label, attrs: string)
    ensures "/" + Name(l) != Name(k) + attrs
  {
    hide Guess, Name;
    NameStarts(k, "");
    assert Name(k)[0] in Name(k);
    assert (Name(k) + attrs)[0] == Name(k)[0];
  }

  lemma StretchEnd(l: Label, rest: string)
    ensures Exec(Angle("/" + Name(l)) + rest, [STRETCH, CloseTag(l)]) == Some(Hit(Angle("/" + Name(l)), ""))
  {
    hide Name, Exec;
    var close := Angle("/" + Name(l));
    assert [STRETCH, CloseTag(l)] == [STRETCH] + [CloseTag(l)];
    ExecLit(close, rest, []);
    EmptyExec(rest);
    assert [Lit(close)] + [] == [CloseTag(l)];
    assert close + "" == close;
    LazyStop(close + rest, STRETCH, [CloseTag(l)]);
  }

  lemma StretchStep(t: Token, l: Label, tail: string)
    requires Within([t], l)
    ensures Exec(Show(t) + tail, [STRETCH, CloseTag(l)]) == Grow(Exec(tail, [STRETCH, CloseTag(l)]), Show(t), false)
  {
    hide Name, Inner, Exec, Grow;
    assert [STRETCH, CloseTag(l)] == [STRETCH] + [CloseTag(l)];
    assert t in [t];
    match t
    case Tag(m) =>
      EndsAt(m, tail, l);
      InnerBracketless(m);
      LazySkipTag(Inner(m), tail, STRETCH, [CloseTag(l)]);
    case Text(s) =>
      LazySkip(s, tail, STRETCH, [CloseTag(l)]);
  }

  lemma StretchShape(a: string, b: string, close: string, rest: string)
    ensures (a + b) + close + rest == a + (b + close + rest) && (a + b) + close == a + (b + close)
  {
  }

  lemma {:induction false} StretchOver(ts: seq<Token>, l: Label, rest: string)
    requires Within(ts, l)
    ensures Exec(Render(ts) + Angle("/" + Name(l)) + rest, [STRETCH, CloseTag(l)]) == Some(Hit(Render(ts) + Angle("/" + Name(l)), ""))
  {
    hide Name, Inner, Exec, Show, CloseTag, Angle;
    var close := Angle("/" + Name(l));
    if ts == [] {
      assert Render(ts) + close + rest == close + rest && Render(ts) + close == close;
      StretchEnd(l, rest);
    } else {
      StretchOver(ts[1..], l, rest);
      StretchStep(ts[0], l, Render(ts[1..]) + close + rest);
      StretchShape(Show(ts[0]), Render(ts[1..]), close, rest);
    }
  }

  lemma EmptyExec(s: string)
    ensures Exec(s, []) == Some(Hit("", ""))
  {
  }

  function Block(m: Mark, ts: seq<Token>): seq<Token> {
    [Tag(m)] + ts + [Tag(Close(m.l))]
  }

  lemma RenderBlock(m: Mark, ts: seq<Token>)
    ensures Render(Block(m, ts)) == Angle(Inner(m)) + Render(ts) + Angle("/" + Name(m.l))
  {
    hide Name;
    RenderConcat([Tag(m)] + ts, [Tag(Close(m.l))]);
    RenderConcat([Tag(m)], ts);
    RenderOne(Tag(m));
    RenderOne(Tag(Close(m.l)));
  }

  lemma RenderOne(t: Token)
    ensures Render([t]) == Show(t)
  {
    hide Show;
    assert [t][1..] == [];
    assert Render([]) == "";
    assert Show(t) + "" == Show(t);
  }

  /** A section search finds the first block of the name, whole. */
  lemma FindSection(before: seq<Token>, m: Mark, ts: seq<Token>, after: seq<Token>)
    requires m.Open? && Avoids(before, m.l) && Within(ts, m.l)
    ensures Search(Render(before + Block(m, ts) + after), Section(m)) == Some(Hit(Render(Block(m, ts)), ""))
  {
    hide Name, Inner, Avoids, Block, Exec, Section, Within, Render;
    var rest := Render(after);
    PatternHeads(m, LINE);
    RenderConcat(before + Block(m, ts), after);
    RenderConcat(before, Block(m, ts));
    SkipTokens(before, Render(Block(m, ts)) + rest, m.l, Section(m));
    assert Render(before) + Render(Block(m, ts)) + rest == Render(before) + (Render(Block(m, ts)) + rest);
    SectionExec(m, ts, rest);
  }

  lemma SectionExec(m: Mark, ts: seq<Token>, rest: string)
    requires m.Open? && Within(ts, m.l)
    ensures Exec(Render(Block(m, ts)) + rest, Section(m)) == Some(Hit(Render(Block(m, ts)), ""))
  {
    hide Name, Inner, Block, Exec, Within, Render;
    RenderBlock(m, ts);
    var open, body, close := Angle(Inner(m)), Render(ts), Angle("/" + Name(m.l));
    StretchOver(ts, m.l, rest);
    ExecLit(open, body + close + rest, [STRETCH, CloseTag(m.l)]);
    assert [Lit(open)] + [STRETCH, CloseTag(m.l)] == Section(m);
    assert open + body + close + rest == open + (body + close + rest);
    assert open + (body + close) == open + body + close;
  }

  /** `<name[\s\S]*?</name>` is found wherever there is a block of the name. */
  lemma ExtentFound(before: seq<Token>, m: Mark, ts: seq<Token>, after: seq<Token>)
    requires m.Open?
    ensures Test(Render(before + Block(m, ts) + after), Extent(m.l))
  {
    hide Name, Block, Exec, Render, AttrText;
    RenderConcat(before + Block(m, ts), after);
    RenderConcat(before, Block(m, ts));
    RenderBlock(m, ts);
    var head, fill, close := "<" + Name(m.l), AttrText(m.a) + ">" + Render(ts), Angle("/" + Name(m.l));
    var cs := [head, fill, close];
    assert Fits(cs, Extent(m.l));
    FitsMatches(cs, Extent(m.l), Render(after));
    JoinThree(head, fill, close);
    assert Render(Block(m, ts)) == head + fill + close;
    SearchReaches(Render(before), Render(Block(m, ts)) + Render(after), Extent(m.l));
    assert Render(before) + Render(Block(m, ts)) + Render(after) == Render(before) + (Render(Block(m, ts)) + Render(after));
  }

  lemma JoinThree(a: string, b: string, c: string)
    ensures Join([a, b, c]) == a + b + c
  {
    assert [a, b, c][1..] == [b, c] && [b, c][1..] == [c] && [c][1..] == [];
    assert Join([c]) == c + "" && Join([b, c]) == b + Join([c]);
  }
}
