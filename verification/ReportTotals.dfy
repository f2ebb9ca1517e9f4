/** The amount a report takes for a stored document: a search in its text, not a parse. */
module ReportTotals {
  import opened Options
  import opened TextSearch
  import opened Decimals

  const OUTER := "TaxInclusiveAmount"
  const PAYABLE := "PayableAmount"
  const LINES := "LineExtensionAmount"

  /** `<name[^>]*>([^<]+)<\/[^>]+>` */
  function Priced(name: string): seq<Piece> {
    [Lit("<" + name)] + InTag()
  }

  function InTag(): seq<Piece> {
    [Run(NotGt, false, false)] + ([Lit(">")] + Figures())
  }

  function Figures(): seq<Piece> {
    [One(NotLt, true)] + ([Run(NotLt, false, true)] + Ending())
  }

  function Ending(): seq<Piece> {
    [Lit("</")] + ([One(NotGt, false)] + ([Run(NotGt, false, false)] + [Lit(">")]))
  }

  /** `(?:…|…)`: the leftmost place where one of the two matches, the first one tried first. */
  function SearchEither(s: string, ps: seq<Piece>, qs: seq<Piece>): Option<Hit> {
    var here := if Exec(s, ps).Some? then Exec(s, ps) else Exec(s, qs);
    if here.Some? || s == "" then here else SearchEither(s[1..], ps, qs)
  }

  function Figure(text: string): real {
    match ParseFloat(text)
    case NaN => 0.0
    case Fin(x) => x
  }

  /** `extractMonetaryTotal`. */
  function MonetaryTotal(ublXml: string): real {
    match Captured(SearchEither(ublXml, Priced(OUTER), Priced(PAYABLE)))
    case Some(text) => Figure(text)
    case None =>
      match Captured(Search(ublXml, Priced(LINES)))
      case Some(text) => Figure(text)
      case None => 0.0
  }

  // ----- where nothing is found

  /** No tag of the text begins with the name. */
  predicate Nowhere(s: string, name: string) {
    forall i :: 0 <= i <= |s| ==> !("<" + name <= s[i..])
  }

  lemma NowhereTail(s: string, name: string)
    requires Nowhere(s, name) && s != ""
    ensures Nowhere(s[1..], name)
  {
    forall i | 0 <= i <= |s[1..]| ensures !("<" + name <= s[1..][i..]) {
      assert s[1..][i..] == s[i + 1..];
    }
  }

  lemma NotHere(s: string, name: string)
    requires !("<" + name <= s)
    ensures Exec(s, Priced(name)) == None
  {
    assert Priced(name)[0] == Lit("<" + name);
  }

  lemma {:induction false} NothingFound(s: string, name: string)
    requires Nowhere(s, name)
    ensures Search(s, Priced(name)) == None
  {
    hide Exec, Priced, Nowhere;
    StartsNot(s, name);
    NotHere(s, name);
    if s != "" {
      NowhereTail(s, name);
      NothingFound(s[1..], name);
    }
  }

  lemma StartsNot(s: string, name: string)
    requires Nowhere(s, name)
    ensures !("<" + name <= s)
  {
    assert s[0..] == s;
  }

  lemma {:induction false} NeitherFound(s: string, name: string, other: string)
    requires Nowhere(s, name) && Nowhere(s, other)
    ensures SearchEither(s, Priced(name), Priced(other)) == None
  {
    hide Exec, Priced, Nowhere;
    StartsNot(s, name);
    NotHere(s, name);
    StartsNot(s, other);
    NotHere(s, other);
    if s != "" {
      NowhereTail(s, name);
      NowhereTail(s, other);
      NeitherFound(s[1..], name, other);
    }
  }

  /** A text none of whose tags begins with one of the three names is worth nothing. */
  lemma WorthNothing(s: string)
    requires Nowhere(s, OUTER) && Nowhere(s, PAYABLE) && Nowhere(s, LINES)
    ensures MonetaryTotal(s) == 0.0
  {
    hide Nowhere, Priced, SearchEither, Search, OUTER, PAYABLE, LINES;
    NeitherFound(s, OUTER, PAYABLE);
    NothingFound(s, LINES);
  }

  // ----- where an amount is found

  /** A greedy run over everything up to a literal `<` or `>` takes exactly that. */
  lemma {:induction false} GreedyTo(c: string, stop: string, rest: string, k: Class, group: bool, ps: seq<Piece>)
    requires stop != "" && (forall x <- c :: In(x, k) && x != stop[0]) && !In(stop[0], k)
    ensures Exec(c + stop + rest, [Run(k, false, group)] + ([Lit(stop)] + ps)) == Grow(Grow(Exec(rest, ps), stop, false), c, group)
  {
    var r, s, tail := Run(k, false, group), c + stop + rest, [Lit(stop)] + ps;
    assert ([r] + tail)[1..] == tail;
    ExecLit(stop, rest, ps);
    if c == "" {
      assert s == stop + rest;
      GrowNothing(Exec(stop + rest, tail), group);
    } else {
      assert s[0] == c[0] && s[1..] == c[1..] + stop + rest;
      GreedyTo(c[1..], stop, rest, k, group, ps);
      assert !(stop <= s);
      GrowTwice(Exec(stop + rest, tail), [c[0]], c[1..], group);
      assert [c[0]] + c[1..] == c;
    }
  }

  lemma CapturedGrow(h: Option<Hit>, c: string, group: bool)
    ensures Captured(Grow(h, c, group)) == match Captured(h) case None => None case Some(g) => Some(if group then c + g else g)
  {
  }

  lemma ExecOne(c: char, rest: string, k: Class, group: bool, ps: seq<Piece>)
    requires In(c, k)
    ensures Exec([c] + rest, [One(k, group)] + ps) == Grow(Exec(rest, ps), [c], group)
  {
    assert ([One(k, group)] + ps)[1..] == ps && ([c] + rest)[1..] == rest;
  }

  lemma EndingHit(end: string, after: string)
    requires end != "" && '>' !in end
    ensures Captured(Exec("</" + end + ">" + after, Ending())) == Some("")
  {
    hide Exec, Captured, Grow;
    var last, rest := [Run(NotGt, false, false)] + [Lit(">")], end[1..] + ">" + after;
    ExecLit("</", end + ">" + after, [One(NotGt, false)] + last);
    assert "</" + end + ">" + after == "</" + (end + ">" + after);
    ExecOne(end[0], rest, NotGt, false, last);
    assert end + ">" + after == [end[0]] + rest;
    assert [Lit(">")] == [Lit(">")] + [];
    GreedyTo(end[1..], ">", after, NotGt, false, []);
    EmptyHit(after);
    CapturedGrow(Exec(after, []), ">", false);
    CapturedGrow(Grow(Exec(after, []), ">", false), end[1..], false);
    CapturedGrow(Exec(rest, last), [end[0]], false);
    CapturedGrow(Exec(end + ">" + after, [One(NotGt, false)] + last), "</", false);
  }

  lemma EmptyHit(s: string)
    ensures Captured(Exec(s, [])) == Some("")
  {
  }

  /** `[^<]+` and the end tag: the text up to the end tag is captured. */
  lemma FiguresHit(text: string, end: string, after: string)
    requires text != "" && '<' !in text && end != "" && '>' !in end
    ensures Captured(Exec(text + "</" + end + ">" + after, Figures())) == Some(text)
  {
    hide Exec, Captured, Grow;
    var tail := end + ">" + after;
    var more := [One(NotGt, false)] + ([Run(NotGt, false, false)] + [Lit(">")]);
    EndingHit(end, after);
    assert "</" + end + ">" + after == "</" + tail;
    ExecLit("</", tail, more);
    GreedyText(text[1..], tail, more);
    ExecOne(text[0], text[1..] + "</" + tail, NotLt, true, [Run(NotLt, false, true)] + Ending());
    assert text + "</" + end + ">" + after == [text[0]] + (text[1..] + "</" + tail);
    CapturedGrow(Exec("</" + tail, Ending()), text[1..], true);
    CapturedGrow(Exec(text[1..] + "</" + tail, [Run(NotLt, false, true)] + Ending()), [text[0]], true);
    assert [text[0]] + (text[1..] + "") == text;
  }

  lemma GreedyText(c: string, tail: string, ps: seq<Piece>)
    requires '<' !in c
    ensures Exec(c + "</" + tail, [Run(NotLt, false, true)] + ([Lit("</")] + ps)) == Grow(Exec("</" + tail, [Lit("</")] + ps), c, true)
  {
    hide Exec, Grow;
    GreedyTo(c, "</", tail, NotLt, true, ps);
    ExecLit("</", tail, ps);
  }

  /** A whole element of the name. */
  function Element(name: string, attrs: string, text: string, end: string): string {
    "<" + name + attrs + ">" + text + "</" + end + ">"
  }

  lemma ElementHit(name: string, attrs: string, text: string, end: string, after: string)
    requires '>' !in attrs && text != "" && '<' !in text && end != "" && '>' !in end
    ensures Captured(Exec(Element(name, attrs, text, end) + after, Priced(name))) == Some(text)
  {
    hide Exec, Captured, Figures;
    var inner := text + "</" + end + ">" + after;
    FiguresHit(text, end, after);
    CapturedAttrs(attrs, inner, Run(NotGt, false, false), Figures());
    CapturedLit("<" + name, attrs + ">" + inner, InTag());
    assert Element(name, attrs, text, end) + after == ("<" + name) + (attrs + ">" + inner);
  }

  /** Neither name begins a tag within the first n characters. */
  predicate NeitherBefore(s: string, n: nat, name: string, other: string)
    requires n <= |s|
  {
    forall i :: 0 <= i < n ==> !("<" + name <= s[i..]) && !("<" + other <= s[i..])
  }

  lemma {:induction false} SearchFirst(s: string, n: nat, name: string, other: string)
    requires n <= |s| && NeitherBefore(s, n, name, other)
    ensures SearchEither(s, Priced(name), Priced(other)) == SearchEither(s[n..], Priced(name), Priced(other))
  {
    hide Exec, Priced;
    if n == 0 {
      assert s[0..] == s;
    } else {
      assert s[0..] == s;
      NotHere(s, name);
      NotHere(s, other);
      forall i | 0 <= i < n - 1 ensures !("<" + name <= s[1..][i..]) && !("<" + other <= s[1..][i..]) {
        assert s[1..][i..] == s[i + 1..];
      }
      SearchFirst(s[1..], n - 1, name, other);
      assert s[1..][n - 1..] == s[n..];
    }
  }

  lemma NamesApart(rest: string)
    ensures !("<" + OUTER <= "<" + PAYABLE + rest)
  {
    assert ("<" + OUTER)[1] == 'T' && ("<" + PAYABLE + rest)[1] == 'P';
  }

  /** The text of the first element of one of the two names is what counts, whatever attributes it has. */
  lemma TotalFound(before: string, name: string, attrs: string, text: string, end: string, after: string)
    requires (name == OUTER || name == PAYABLE) && '>' !in attrs && text != "" && '<' !in text && end != "" && '>' !in end
    requires NeitherBefore(before + (Element(name, attrs, text, end) + after), |before|, OUTER, PAYABLE)
    ensures MonetaryTotal(before + (Element(name, attrs, text, end) + after))
      == match ParseFloat(text) { case NaN => 0.0 case Fin(x) => x }
  {
    hide Exec, Captured, Priced, OUTER, PAYABLE, LINES, Element;
    var here := Element(name, attrs, text, end) + after;
    SearchFirst(before + here, |before|, OUTER, PAYABLE);
    assert (before + here)[|before|..] == here;
    ElementHit(name, attrs, text, end, after);
    ElementStarts(name, attrs, text, end, after);
    if name != OUTER {
      NamesApart(attrs + ">" + text + "</" + end + ">" + after);
      NotHere(here, OUTER);
    }
    CapturedSome(Exec(here, Priced(name)));
  }

  /** Without such an element it is the text of the first `LineExtensionAmount`. */
  lemma LinesFound(before: string, attrs: string, text: string, end: string, after: string)
    requires '>' !in attrs && text != "" && '<' !in text && end != "" && '>' !in end
    requires var s := before + (Element("LineExtensionAmount", attrs, text, end) + after);
      && Nowhere(s, "TaxInclusiveAmount") && Nowhere(s, "PayableAmount")
      && forall i :: 0 <= i < |before| ==> !("<" + "LineExtensionAmount" <= s[i..])
    ensures MonetaryTotal(before + (Element("LineExtensionAmount", attrs, text, end) + after))
      == match ParseFloat(text) { case NaN => 0.0 case Fin(x) => x }
  {
    hide Exec, Captured, Priced, Element, Nowhere, SearchEither, Search, ParseFloat;
    var here := Element(LINES, attrs, text, end) + after;
    NeitherFound(before + here, OUTER, PAYABLE);
    CapturedSome(SearchEither(before + here, Priced(OUTER), Priced(PAYABLE)));
    SearchAlone(before + here, |before|, LINES);
    assert (before + here)[|before|..] == here;
    ElementHit(LINES, attrs, text, end, after);
    CapturedSome(Exec(here, Priced(LINES)));
    SearchHere(here, Priced(LINES));
  }

  lemma SearchHere(s: string, ps: seq<Piece>)
    requires Exec(s, ps).Some?
    ensures Search(s, ps) == Exec(s, ps)
  {
    hide Exec;
  }

  lemma {:induction false} SearchAlone(s: string, n: nat, name: string)
    requires n <= |s| && forall i :: 0 <= i < n ==> !("<" + name <= s[i..])
    ensures Search(s, Priced(name)) == Search(s[n..], Priced(name))
  {
    hide Exec, Priced;
    assert s[0..] == s;
    if n > 0 {
      NotHere(s, name);
      forall i | 0 <= i < n - 1 ensures !("<" + name <= s[1..][i..]) {
        assert s[1..][i..] == s[i + 1..];
      }
      SearchAlone(s[1..], n - 1, name);
      assert s[1..][n - 1..] == s[n..];
    }
  }

  lemma CapturedSome(h: Option<Hit>)
    ensures Captured(h).Some? <==> h.Some?
  {
  }

  lemma ElementStarts(name: string, attrs: string, text: string, end: string, after: string)
    ensures Element(name, attrs, text, end) + after == "<" + name + (attrs + ">" + text + "</" + end + ">" + after)
  {
  }

  /** An amount printed without a name-space prefix is found, in cents. */
  lemma PrintedTotalFound(name: string, attrs: string, x: real, after: string)
    requires (name == OUTER || name == PAYABLE) && '>' !in attrs
    ensures MonetaryTotal(Element(name, attrs, Fixed2(x), name) + after) == Round2(x)
  {
    hide MonetaryTotal, Fixed2, Round2, ParseFloat;
    Fixed2Clean(x);
    ParseFixed2(x);
    NamesPlain();
    var here := Element(name, attrs, Fixed2(x), name) + after;
    assert "" + here == here;
    TotalFound("", name, attrs, Fixed2(x), name, after);
  }

  lemma NamesPlain()
    ensures OUTER != "" && PAYABLE != "" && '>' !in OUTER && '>' !in PAYABLE
  {
  }
}
