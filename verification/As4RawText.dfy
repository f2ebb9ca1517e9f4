/** Searching for an element whose value was written without escaping. */
module As4RawText {
  import opened Options
  import opened TextSearch
  import opened As4Text
  import opened As4Search
  import opened As4Envelope
  import opened As4Reading

  /** `x` occurs in `s`. */
  predicate Occurs(x: string, s: string) {
    exists k | 0 <= k <= |s| :: x <= s[k..]
  }

  // ----- a tag cannot begin before and end behind the beginning of another

  lemma TagInside(b: string, i: nat)
    requires Bracketless(b) && 1 <= i < |Angle(b)|
    ensures Angle(b)[i] != '<'
  {
    if i <= |b| {
      assert Angle(b)[i] == b[i - 1];
    }
  }

  lemma TagNotAcross(x: string, a: string, b: string, rest: string)
    requires Bracketless(a) && x != "" && |x| < |Angle(a)|
    ensures !(Angle(a) <= x + (Angle(b) + rest))
  {
    TagInside(a, |x|);
    assert (x + (Angle(b) + rest))[|x|] == '<';
  }

  lemma TagAhead(x: string, a: string, b: string, rest: string)
    requires Bracketless(a) && x != ""
    ensures Angle(a) <= x + (Angle(b) + rest) ==> |Angle(a)| <= |x| && Angle(a) <= x
  {
    hide Angle, Bracketless;
    var s := x + (Angle(b) + rest);
    if |x| < |Angle(a)| {
      TagNotAcross(x, a, b, rest);
    } else {
      assert s[..|Angle(a)|] == x[..|Angle(a)|];
    }
  }

  // ----- the lazy group

  /** Without an end tag or a line terminator inside, the whole value is captured. */
  lemma {:induction false} RawHit(v: string, b: string, rest: string)
    requires Bracketless(b) && LineFree(v) && !Occurs(Angle(b), v)
    ensures Exec(v + (Angle(b) + rest), [LINE, Lit(Angle(b))]) == Some(Hit(v + Angle(b), v))
  {
    hide Angle, Occurs, Exec, Bracketless, LineFree;
    var close := Angle(b);
    if v == "" {
      assert v + (close + rest) == close + rest && v + close == close;
      CloseHit(close, rest);
    } else {
      NotHere(v, b, rest);
      OccursLater(close, v);
      FirstLineFree(v);
      RawHit(v[1..], b, rest);
      StepShape(v, close, rest);
      LazyStep(v + (close + rest), close);
    }
  }

  lemma CloseHit(close: string, rest: string)
    ensures Exec(close + rest, [LINE, Lit(close)]) == Some(Hit(close, ""))
  {
    hide Exec;
    assert [LINE, Lit(close)] == [LINE] + [Lit(close)] && [Lit(close)] + [] == [Lit(close)];
    ExecLit(close, rest, []);
    EmptyExec(rest);
    assert close + "" == close;
    LazyStop(close + rest, LINE, [Lit(close)]);
  }

  lemma FirstLineFree(v: string)
    requires v != "" && LineFree(v)
    ensures !LineEnd(v[0]) && LineFree(v[1..])
  {
  }

  lemma StepShape(v: string, close: string, rest: string)
    requires v != ""
    ensures (v + (close + rest))[1..] == v[1..] + (close + rest) && (v + (close + rest))[0] == v[0]
    ensures [v[0]] + (v[1..] + close) == v + close && [v[0]] + v[1..] == v
  {
  }

  lemma NotHere(v: string, b: string, rest: string)
    requires Bracketless(b) && v != "" && !Occurs(Angle(b), v)
    ensures !(Angle(b) <= v + (Angle(b) + rest))
  {
    hide Angle, Bracketless;
    TagAhead(v, b, b, rest);
    assert v[0..] == v;
  }

  lemma OccursLater(x: string, v: string)
    requires v != ""
    ensures Occurs(x, v[1..]) ==> Occurs(x, v)
  {
    if k :| 0 <= k <= |v[1..]| && x <= v[1..][k..] {
      assert v[1..][k..] == v[k + 1..];
    }
  }

  lemma LazyStep(s: string, close: string)
    requires s != "" && !(close <= s) && !LineEnd(s[0])
    ensures Exec(s, [LINE, Lit(close)]) == Grow(Exec(s[1..], [LINE, Lit(close)]), [s[0]], true)
  {
    assert [LINE, Lit(close)][1..] == [Lit(close)];
    assert Exec(s, [Lit(close)]) == None;
  }

  /** The group reaches no further than any end tag. */
  lemma {:induction false} GroupEnds(s: string, close: string, k: nat)
    requires k <= |s| && close <= s[k..]
    ensures Exec(s, [LINE, Lit(close)]).Some? ==> |Exec(s, [LINE, Lit(close)]).value.group| <= k
  {
    assert [LINE, Lit(close)][1..] == [Lit(close)];
    StopGroup(s, close);
    if k > 0 {
      assert s[1..][k - 1..] == s[k..];
      GroupEnds(s[1..], close, k - 1);
    } else {
      assert s[0..] == s;
      ExecLit(close, s[|close|..], []);
      assert close + s[|close|..] == s && [Lit(close)] + [] == [Lit(close)];
      EmptyExec(s[|close|..]);
    }
  }

  /** The end tag itself captures nothing. */
  lemma StopGroup(s: string, close: string)
    ensures Exec(s, [Lit(close)]).Some? ==> Exec(s, [Lit(close)]).value.group == ""
  {
    assert [Lit(close)][1..] == [];
  }

  lemma {:induction false} GroupLine(s: string, close: string)
    ensures Exec(s, [LINE, Lit(close)]).Some? ==> LineFree(Exec(s, [LINE, Lit(close)]).value.group)
  {
    assert [LINE, Lit(close)][1..] == [Lit(close)];
    StopGroup(s, close);
    if s != "" {
      GroupLine(s[1..], close);
    }
  }

  // ----- the search

  function Pattern(a: string, b: string): seq<Piece> {
    [Lit(Angle(a)), LINE, Lit(Angle(b))]
  }

  lemma PatternExec(s: string, a: string, b: string)
    ensures var h := Exec(s, Pattern(a, b)); h.Some? ==>
      && Angle(a) <= s && Exec(s[|Angle(a)|..], [LINE, Lit(Angle(b))]).Some?
      && h.value.group == Exec(s[|Angle(a)|..], [LINE, Lit(Angle(b))]).value.group
  {
    hide Angle;
    assert Pattern(a, b)[1..] == [LINE, Lit(Angle(b))];
  }

  lemma {:induction false} SearchLine(s: string, a: string, b: string)
    ensures Search(s, Pattern(a, b)).Some? ==> LineFree(Search(s, Pattern(a, b)).value.group)
  {
    hide Exec, Angle, Pattern, LineFree;
    PatternExec(s, a, b);
    if Exec(s, Pattern(a, b)).Some? {
      GroupLine(s[|Angle(a)|..], Angle(b));
    } else if s != "" {
      SearchLine(s[1..], a, b);
    }
  }

  /** What is found before an end tag, with nothing behind it, is shorter than what stands before it. */
  lemma {:induction false} SearchShort(x: string, a: string, b: string, rest: string)
    requires Bracketless(a) && Search(Angle(b) + rest, Pattern(a, b)) == None
    ensures var h := Search(x + (Angle(b) + rest), Pattern(a, b)); h.Some? ==> |h.value.group| + |Angle(a)| <= |x|
  {
    hide Exec, Angle, Pattern;
    var s := x + (Angle(b) + rest);
    if x == "" {
      assert s == Angle(b) + rest;
    } else {
      PatternExec(s, a, b);
      if Exec(s, Pattern(a, b)).Some? {
        TagAhead(x, a, b, rest);
        var k := |x| - |Angle(a)|;
        assert s[|Angle(a)|..][k..] == Angle(b) + rest;
        GroupEnds(s[|Angle(a)|..], Angle(b), k);
      } else {
        assert s[1..] == x[1..] + (Angle(b) + rest);
        SearchShort(x[1..], a, b, rest);
      }
    }
  }

  /** A value between its tags is captured exactly when it has no line terminator and no end tag in it. */
  lemma RawSearch(v: string, a: string, b: string, rest: string)
    requires Bracketless(a) && Bracketless(b) && Search(Angle(b) + rest, Pattern(a, b)) == None
    ensures Captured(Search(Angle(a) + v + (Angle(b) + rest), Pattern(a, b))) == Some(v) <==> LineFree(v) && !Occurs(Angle(b), v)
  {
    hide Exec, Angle, Pattern, LineFree, Occurs;
    var s := Angle(a) + v + (Angle(b) + rest);
    SearchLine(s, a, b);
    if LineFree(v) && !Occurs(Angle(b), v) {
      RawFirst(v, a, b, rest);
    } else if Occurs(Angle(b), v) {
      CutShort(v, a, b, rest);
    }
  }

  lemma RawFirst(v: string, a: string, b: string, rest: string)
    requires Bracketless(b) && LineFree(v) && !Occurs(Angle(b), v)
    ensures Captured(Search(Angle(a) + v + (Angle(b) + rest), Pattern(a, b))) == Some(v)
  {
    hide Angle, LineFree, Occurs, Exec;
    RawHit(v, b, rest);
    assert Angle(a) + v + (Angle(b) + rest) == Angle(a) + (v + (Angle(b) + rest));
    CapturedLit(Angle(a), v + (Angle(b) + rest), [LINE, Lit(Angle(b))]);
    assert Pattern(a, b) == [Lit(Angle(a))] + [LINE, Lit(Angle(b))];
  }

  lemma CutShort(v: string, a: string, b: string, rest: string)
    requires Bracketless(a) && Search(Angle(b) + rest, Pattern(a, b)) == None && Occurs(Angle(b), v)
    ensures Captured(Search(Angle(a) + v + (Angle(b) + rest), Pattern(a, b))) != Some(v)
  {
    hide Exec, Pattern, Occurs, Search, Angle;
    var s := Angle(a) + v + (Angle(b) + rest);
    if Exec(s, Pattern(a, b)).Some? {
      CutHere(v, a, b, Angle(b) + rest);
      SearchHit(s, Pattern(a, b));
    } else {
      CutLater(v, a, b, rest);
    }
  }

  lemma SearchHit(s: string, ps: seq<Piece>)
    requires Exec(s, ps).Some?
    ensures Search(s, ps) == Exec(s, ps)
  {
    hide Exec;
  }

  lemma CutHere(v: string, a: string, b: string, rest: string)
    requires Occurs(Angle(b), v) && Exec(Angle(a) + v + rest, Pattern(a, b)).Some?
    ensures Captured(Exec(Angle(a) + v + rest, Pattern(a, b))) != Some(v)
  {
    hide Exec, Pattern, Angle;
    var open, s := Angle(a), Angle(a) + v + rest;
    var k :| 0 <= k <= |v| && Angle(b) <= v[k..];
    PatternExec(s, a, b);
    assert s[|open|..] == v + rest;
    assert s[|open|..][k..] == v[k..] + rest;
    GroupEnds(s[|open|..], Angle(b), k);
    CloseLong(b);
  }

  lemma CloseLong(b: string)
    ensures |Angle(b)| > 0
  {
  }

  lemma CutLater(v: string, a: string, b: string, rest: string)
    requires Bracketless(a) && Search(Angle(b) + rest, Pattern(a, b)) == None
    requires Exec(Angle(a) + v + (Angle(b) + rest), Pattern(a, b)) == None
    ensures Captured(Search(Angle(a) + v + (Angle(b) + rest), Pattern(a, b))) != Some(v)
  {
    hide Exec, Pattern;
    var open, s := Angle(a), Angle(a) + v + (Angle(b) + rest);
    assert s[1..] == (open + v)[1..] + (Angle(b) + rest);
    SearchShort((open + v)[1..], a, b, rest);
  }

  // ----- in a rendered envelope

  lemma AfterClose(m: Mark, after: seq<Token>)
    requires m.Open? && Avoids(after, m.l)
    ensures Search(Angle("/" + Name(m.l)) + Render(after), Element(m)) == None
  {
    hide Name, Inner, Avoids, Exec, Element, Heads, Render;
    PatternHeads(m, LINE);
    SkipClose(m.l, Render(after), Element(m));
    NothingLeft(after, m.l, Element(m));
  }

  lemma ElementIs(m: Mark)
    requires m.Open?
    ensures Element(m) == Pattern(Inner(m), "/" + Name(m.l)) && Bracketless(Inner(m)) && Bracketless("/" + Name(m.l))
  {
    hide Name, Inner, Angle, Bracketless;
    InnerBracketless(m);
    CloseInner(m.l);
    InnerBracketless(Close(m.l));
  }

  /** Before the element no tag of its name opens: the search comes to it. */
  lemma ComesToIt(before: seq<Token>, m: Mark, v: string, after: seq<Token>)
    requires m.Open? && Avoids(before, m.l)
    ensures Search(Render(before + Leaf(m, v) + after), Element(m))
      == Search(Angle(Inner(m)) + v + (Angle("/" + Name(m.l)) + Render(after)), Element(m))
  {
    hide Name, Inner, Avoids, Leaf, Exec, Element, Heads, Render, Search, Angle;
    var rest := Render(after);
    PatternHeads(m, LINE);
    RenderAround(before, Leaf(m, v), after);
    SkipTokens(before, Render(Leaf(m, v)) + rest, m.l, Element(m));
    RenderLeaf(m, v);
    assert Angle(Inner(m)) + v + Angle("/" + Name(m.l)) + rest == Angle(Inner(m)) + v + (Angle("/" + Name(m.l)) + rest);
  }

  /** An element with any text at all comes back exactly when it has neither a line terminator nor its own end tag. */
  lemma ExtractRaw(before: seq<Token>, m: Mark, v: string, after: seq<Token>)
    requires m.Open? && Avoids(before, m.l) && Avoids(after, m.l)
    ensures Captured(Search(Render(before + Leaf(m, v) + after), Element(m))) == Some(v)
      <==> LineFree(v) && !Occurs(Angle("/" + Name(m.l)), v)
  {
    hide Name, Inner, Avoids, Leaf, Element, Pattern, Render, Search, Angle, Occurs, LineFree, Bracketless;
    ComesToIt(before, m, v, after);
    AfterClose(m, after);
    ElementIs(m);
    RawSearch(v, Inner(m), "/" + Name(m.l), Render(after));
  }

  /** Otherwise it is cut at the first end tag, if no line terminator comes before. */
  lemma ExtractCut(before: seq<Token>, m: Mark, p: string, q: string, after: seq<Token>)
    requires m.Open? && Avoids(before, m.l) && LineFree(p) && !Occurs(Angle("/" + Name(m.l)), p)
    ensures Captured(Search(Render(before + Leaf(m, p + Angle("/" + Name(m.l)) + q) + after), Element(m))) == Some(p)
  {
    hide Name, Inner, Avoids, Leaf, Element, Pattern, Render, Search, Angle, Occurs, LineFree, Bracketless;
    var close := Angle("/" + Name(m.l));
    ComesToIt(before, m, p + close + q, after);
    ElementIs(m);
    RawFirst(p, Inner(m), "/" + Name(m.l), q + (close + Render(after)));
    CutShape(Angle(Inner(m)), p, close, q, close + Render(after));
  }

  lemma CutShape(open: string, p: string, close: string, q: string, rest: string)
    ensures open + (p + close + q) + rest == open + p + (close + (q + rest))
  {
  }

  lemma RawPiece(pieces: seq<seq<Token>>, j: nat, m: Mark, v: string)
    requires j < |pieces| && m.Open? && pieces[j] == Leaf(m, v) && OnlyAt(pieces, j, m.l)
    ensures Find(Render(Flatten(pieces)), Element(m)) == Some(v) <==> LineFree(v) && !Occurs(Angle("/" + Name(m.l)), v)
  {
    hide Flatten, OnlyAt, Leaf, Element, Search, LineFree, Occurs, Name, Avoids, Render, Captured, Angle;
    FlattenAt(pieces, j);
    AroundAvoids(pieces, j, m.l);
    ExtractRaw(Flatten(pieces[..j]), m, v, Flatten(pieces[j + 1..]));
  }

  lemma CutPiece(pieces: seq<seq<Token>>, j: nat, m: Mark, p: string, q: string)
    requires j < |pieces| && m.Open? && pieces[j] == Leaf(m, p + Angle("/" + Name(m.l)) + q) && OnlyAt(pieces, j, m.l)
    requires LineFree(p) && !Occurs(Angle("/" + Name(m.l)), p)
    ensures Find(Render(Flatten(pieces)), Element(m)) == Some(p)
  {
    hide Flatten, OnlyAt, Leaf, Element, Search, LineFree, Occurs, Name;
    FlattenAt(pieces, j);
    AroundAvoids(pieces, j, m.l);
    ExtractCut(Flatten(pieces[..j]), m, p, q, Flatten(pieces[j + 1..]));
  }

  /** A first element without end tag or line terminator is found whatever comes behind it. */
  lemma FirstPiece(pieces: seq<seq<Token>>, j: nat, m: Mark, v: string)
    requires j < |pieces| && m.Open? && pieces[j] == Leaf(m, v) && (forall i :: 0 <= i < j ==> Avoids(pieces[i], m.l))
    requires LineFree(v) && !Occurs(Angle("/" + Name(m.l)), v)
    ensures Find(Render(Flatten(pieces)), Element(m)) == Some(v)
  {
    hide Flatten, Leaf, Element, Search, LineFree, Occurs, Name, Inner, Render, Avoids, Angle;
    FlattenAt(pieces, j);
    FrontAvoids(pieces, j, m.l);
    ComesToIt(Flatten(pieces[..j]), m, v, Flatten(pieces[j + 1..]));
    ElementIs(m);
    RawFirst(v, Inner(m), "/" + Name(m.l), Render(Flatten(pieces[j + 1..])));
  }

  lemma FrontAvoids(pieces: seq<seq<Token>>, j: nat, l: Label)
    requires j <= |pieces| && forall i :: 0 <= i < j ==> Avoids(pieces[i], l)
    ensures Avoids(Flatten(pieces[..j]), l)
  {
    forall t | t in Flatten(pieces[..j]) ensures Keeps(t, l) {
      FlattenIn(pieces[..j], t);
      var i :| 0 <= i < j && t in pieces[..j][i];
      assert Avoids(pieces[i], l);
    }
  }
}
