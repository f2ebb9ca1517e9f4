/**
 * Regular-expression search as the message code uses it: literals, character classes under greedy or lazy
 * repetition, one capturing group, first match from the left with backtracking (section 22.2.2 of ECMA-262).
 */
module TextSearch {
  import opened Options
  import opened Strings

  /** `[\s\S]`, `.`, `[^>]`, `[^<]`, `[^"]`, `\s`, and "neither `>` nor a word character". */
  datatype Class = Any | NotNewline | NotGt | NotLt | NotQuote | Space | Border

  predicate LineEnd(c: char) {
    c == '\n' || c == '\r' || c == '\U{2028}' || c == '\U{2029}'
  }

  predicate WordChar(c: char) {
    'a' <= c <= 'z' || 'A' <= c <= 'Z' || '0' <= c <= '9' || c == '_'
  }

  predicate In(c: char, k: Class) {
    match k
    case Any => true
    case NotNewline => !LineEnd(c)
    case NotGt => c != '>'
    case NotLt => c != '<'
    case NotQuote => c != '"'
    case Space => IsSpace(c)
    case Border => c != '>' && !WordChar(c)
  }

  /** `Run` is a repetition, lazy (`*?`) or greedy (`*`), and `One` a single character; either can be in the group. */
  datatype Piece = Lit(p: string) | Run(k: Class, lazy: bool, group: bool) | One(k: Class, group: bool)

  /** A match: all of it, and what the group captured. */
  datatype Hit = Hit(all: string, group: string)

  function Grow(h: Option<Hit>, c: string, group: bool): Option<Hit> {
    match h
    case None => None
    case Some(x) => Some(Hit(c + x.all, if group then c + x.group else x.group))
  }

  /** Match at the start of `s`, trying alternatives in the order a backtracking matcher does. */
  function Exec(s: string, ps: seq<Piece>): Option<Hit>
    decreases |ps|, |s|
  {
    if ps == [] then Some(Hit("", ""))
    else
      match ps[0]
      case Lit(p) => if p <= s then Grow(Exec(s[|p|..], ps[1..]), p, false) else None
      case One(k, group) => if s != "" && In(s[0], k) then Grow(Exec(s[1..], ps[1..]), [s[0]], group) else None
      case Run(k, lazy, group) =>
        var stop := Exec(s, ps[1..]);
        var more := if s != "" && In(s[0], k) then Grow(Exec(s[1..], ps), [s[0]], group) else None;
        if lazy then (if stop.Some? then stop else more) else (if more.Some? then more else stop)
  }

  /** The leftmost match. */
  function Search(s: string, ps: seq<Piece>): Option<Hit> {
    var here := Exec(s, ps);
    if here.Some? || s == "" then here else Search(s[1..], ps)
  }

  /** `re.test(s)`. */
  predicate Test(s: string, ps: seq<Piece>) {
    Search(s, ps).Some?
  }

  /** `s.match(re)?.[1]`. */
  function Captured(h: Option<Hit>): Option<string> {
    match h
    case None => None
    case Some(x) => Some(x.group)
  }

  predicate LineFree(s: string) {
    forall c <- s :: !LineEnd(c)
  }

  predicate Bracketless(s: string) {
    '<' !in s && '>' !in s
  }

  // ----- skipping what cannot start a match

  /** The pattern begins with a literal that begins with `<`. */
  predicate Angled(ps: seq<Piece>) {
    ps != [] && ps[0].Lit? && ps[0].p != "" && ps[0].p[0] == '<'
  }

  lemma {:induction false} SearchSkip(c: string, rest: string, ps: seq<Piece>)
    requires Angled(ps) && '<' !in c
    ensures Search(c + rest, ps) == Search(rest, ps)
  {
    if c == "" {
      assert c + rest == rest;
    } else {
      assert (c + rest)[0] == c[0] && (c + rest)[1..] == c[1..] + rest;
      SearchSkip(c[1..], rest, ps);
    }
  }

  /** An element tag as text. */
  function Angle(body: string): string {
    "<" + body + ">"
  }

  lemma SearchSkipTag(body: string, rest: string, ps: seq<Piece>)
    requires Angled(ps) && '<' !in body && !(ps[0].p <= Angle(body) + rest)
    ensures Search(Angle(body) + rest, ps) == Search(rest, ps)
  {
    var s := Angle(body) + rest;
    assert Exec(s, ps) == None;
    assert s[1..] == (body + ">") + rest;
    SearchSkip(body + ">", rest, ps);
  }

  /** A literal without `>` inside that starts at a tag lies within that tag. */
  lemma HeadWithin(x: string, body: string, rest: string)
    requires Bracketless(x) && Bracketless(body)
    ensures "<" + x <= Angle(body) + rest ==> x <= body
    ensures Angle(x) <= Angle(body) + rest ==> x == body
  {
    var s := Angle(body) + rest;
    assert s[|body| + 1] == '>';
    if "<" + x <= s {
      assert forall i :: 0 <= i < |x| ==> x[i] == ("<" + x)[i + 1] == s[i + 1];
      assert |x| <= |body|;
      assert forall i :: 0 <= i < |x| ==> s[i + 1] == body[i];
    }
    if Angle(x) <= s {
      assert forall i :: 0 <= i < |x| ==> x[i] == Angle(x)[i + 1] == s[i + 1];
      assert Angle(x)[|x| + 1] == '>' == s[|x| + 1];
      assert |x| <= |body|;
      assert forall i :: 0 <= i < |body| ==> s[i + 1] == body[i];
      assert |x| >= |body|;
      assert forall i :: 0 <= i < |x| ==> x[i] == body[i];
    }
  }

  lemma SearchPast(a: string, rest: string, ps: seq<Piece>)
    requires Angled(ps) && a != "" && '<' !in a[1..] && Exec(a + rest, ps) == None
    ensures Search(a + rest, ps) == Search(rest, ps)
  {
    hide Exec, Angled, Search;
    assert (a + rest)[1..] == a[1..] + rest;
    SearchMiss(a + rest, ps);
    SearchSkip(a[1..], rest, ps);
  }

  lemma SearchMiss(s: string, ps: seq<Piece>)
    requires s != "" && Exec(s, ps) == None
    ensures Search(s, ps) == Search(s[1..], ps)
  {
    hide Exec;
  }

  // ----- lazy runs up to a literal that begins with `<`

  lemma {:induction false} LazySkip(c: string, rest: string, r: Piece, ps: seq<Piece>)
    requires r.Run? && r.lazy && Angled(ps) && '<' !in c && forall x <- c :: In(x, r.k)
    ensures Exec(c + rest, [r] + ps) == Grow(Exec(rest, [r] + ps), c, r.group)
  {
    if c == "" {
      assert c + rest == rest;
      GrowNothing(Exec(rest, [r] + ps), r.group);
    } else {
      assert (c + rest)[0] == c[0] && (c + rest)[1..] == c[1..] + rest;
      LazySkip(c[1..], rest, r, ps);
      assert ([r] + ps)[1..] == ps;
      GrowTwice(Exec(rest, [r] + ps), [c[0]], c[1..], r.group);
      assert [c[0]] + c[1..] == c;
    }
  }

  lemma GrowNothing(h: Option<Hit>, group: bool)
    ensures Grow(h, "", group) == h
  {
    if h.Some? {
      assert "" + h.value.all == h.value.all && "" + h.value.group == h.value.group;
    }
  }

  lemma GrowTwice(h: Option<Hit>, a: string, b: string, group: bool)
    ensures Grow(Grow(h, b, group), a, group) == Grow(h, a + b, group)
  {
    if h.Some? {
      assert a + (b + h.value.all) == (a + b) + h.value.all;
      assert a + (b + h.value.group) == (a + b) + h.value.group;
    }
  }

  /** Where the next piece matches, a lazy run stops. */
  lemma LazyStop(s: string, r: Piece, ps: seq<Piece>)
    requires r.Run? && r.lazy && Exec(s, ps).Some?
    ensures Exec(s, [r] + ps) == Exec(s, ps)
  {
    assert ([r] + ps)[1..] == ps;
  }

  /** A lazy run cannot cross a character outside its class before the literal. */
  lemma {:induction false} LazyBlocked(c: string, rest: string, r: Piece, ps: seq<Piece>)
    requires r.Run? && r.lazy && Angled(ps) && '<' !in c && exists x <- c :: !In(x, r.k)
    ensures Exec(c + rest, [r] + ps) == None
  {
    assert (c + rest)[0] == c[0] && (c + rest)[1..] == c[1..] + rest;
    assert ([r] + ps)[1..] == ps;
    if In(c[0], r.k) {
      assert c == [c[0]] + c[1..];
      LazyBlocked(c[1..], rest, r, ps);
    }
  }

  /** A tag the run's end literal does not start at is run over. */
  lemma LazySkipTag(body: string, rest: string, r: Piece, ps: seq<Piece>)
    requires r.Run? && r.lazy && r.k == Any && Angled(ps) && '<' !in body && !(ps[0].p <= Angle(body) + rest)
    ensures Exec(Angle(body) + rest, [r] + ps) == Grow(Exec(rest, [r] + ps), Angle(body), r.group)
  {
    var s := Angle(body) + rest;
    assert ([r] + ps)[1..] == ps;
    assert s[1..] == (body + ">") + rest;
    LazySkip(body + ">", rest, r, ps);
    assert s[0] == '<';
    GrowTwice(Exec(rest, [r] + ps), "<", body + ">", r.group);
    assert "<" + (body + ">") == Angle(body);
  }

  /** A greedy run over everything up to a literal `>` takes exactly the attributes of the tag. */
  lemma {:induction false} GreedyToGt(c: string, rest: string, r: Piece, ps: seq<Piece>)
    requires r == Run(NotGt, false, false) && ps != [] && ps[0] == Lit(">") && '>' !in c
    ensures Exec(c + ">" + rest, [r] + ps) == Grow(Exec(">" + rest, ps), c, false)
  {
    var s := c + ">" + rest;
    assert ([r] + ps)[1..] == ps;
    if c == "" {
      assert s == ">" + rest;
      GrowNothing(Exec(">" + rest, ps), false);
    } else {
      assert s[0] == c[0] && s[1..] == c[1..] + ">" + rest;
      GreedyToGt(c[1..], rest, r, ps);
      assert !(">" <= s);
      GrowTwice(Exec(">" + rest, ps), [c[0]], c[1..], false);
      assert [c[0]] + c[1..] == c;
    }
  }

  lemma ExecLit(p: string, rest: string, ps: seq<Piece>)
    ensures Exec(p + rest, [Lit(p)] + ps) == Grow(Exec(rest, ps), p, false)
  {
    assert ([Lit(p)] + ps)[1..] == ps;
    assert p <= p + rest && (p + rest)[|p|..] == rest;
  }

  lemma CapturedLit(p: string, rest: string, ps: seq<Piece>)
    ensures Captured(Exec(p + rest, [Lit(p)] + ps)) == Captured(Exec(rest, ps))
  {
    ExecLit(p, rest, ps);
  }

  /** `[^>]*>` runs to the end of the tag and captures nothing. */
  lemma CapturedAttrs(c: string, rest: string, r: Piece, ps: seq<Piece>)
    requires r == Run(NotGt, false, false) && '>' !in c
    ensures Captured(Exec(c + ">" + rest, [r] + ([Lit(">")] + ps))) == Captured(Exec(rest, ps))
  {
    GreedyToGt(c, rest, r, [Lit(">")] + ps);
    ExecLit(">", rest, ps);
  }

  // ----- that a pattern matches somewhere

  lemma {:induction false} RunReaches(c: string, s: string, r: Piece, ps: seq<Piece>)
    requires r.Run? && Exec(s, ps).Some? && forall x <- c :: In(x, r.k)
    ensures Exec(c + s, [r] + ps).Some?
  {
    assert ([r] + ps)[1..] == ps;
    if c == "" {
      assert c + s == s;
    } else {
      assert (c + s)[0] == c[0] && (c + s)[1..] == c[1..] + s;
      RunReaches(c[1..], s, r, ps);
    }
  }

  /** One stretch of text for every piece of the pattern. */
  predicate Fits(cs: seq<string>, ps: seq<Piece>) {
    && |cs| == |ps|
    && forall i :: 0 <= i < |ps| ==>
      match ps[i]
      case Lit(p) => cs[i] == p
      case One(k, _) => |cs[i]| == 1 && In(cs[i][0], k)
      case Run(k, _, _) => forall c <- cs[i] :: In(c, k)
  }

  function Join(cs: seq<string>): string {
    if cs == [] then "" else cs[0] + Join(cs[1..])
  }

  lemma {:induction false} FitsMatches(cs: seq<string>, ps: seq<Piece>, rest: string)
    requires Fits(cs, ps)
    ensures Exec(Join(cs) + rest, ps).Some?
  {
    if ps != [] {
      var tail := Join(cs[1..]) + rest;
      assert Fits(cs[1..], ps[1..]) by {
        assert forall i :: 0 <= i < |ps[1..]| ==> ps[1..][i] == ps[i + 1] && cs[1..][i] == cs[i + 1];
      }
      FitsMatches(cs[1..], ps[1..], rest);
      assert Join(cs) + rest == cs[0] + tail;
      assert [ps[0]] + ps[1..] == ps;
      match ps[0]
      case Lit(p) => ExecLit(p, tail, ps[1..]);
      case One(_, _) => assert (cs[0] + tail)[1..] == tail;
      case Run(_, _, _) => RunReaches(cs[0], tail, ps[0], ps[1..]);
    }
  }

  lemma {:induction false} SearchReaches(c: string, s: string, ps: seq<Piece>)
    requires Search(s, ps).Some?
    ensures Search(c + s, ps).Some?
  {
    if c == "" {
      assert c + s == s;
    } else {
      assert (c + s)[1..] == c[1..] + s;
      SearchReaches(c[1..], s, ps);
    }
  }

  // ----- that a pattern matches nowhere

  /** `name` occurs inside a tag; `inside` says whether `s` starts within one. */
  predicate Says(s: string, inside: bool, name: string) {
    || (inside && name <= s)
    || (s != "" && Says(s[1..], if s[0] == '<' then true else if s[0] == '>' then false else inside, name))
  }

  lemma {:induction false} SaysMore(s: string, inside: bool, name: string)
    requires Says(s, inside, name)
    ensures Says(s, true, name)
  {
    if !(name <= s) && s[0] != '<' && s[0] != '>' {
      SaysMore(s[1..], inside, name);
    }
  }

  lemma {:induction false} SaysSuffix(s: string, n: nat, inside: bool, name: string)
    requires n <= |s| && Says(s[n..], false, name)
    ensures Says(s, inside, name)
  {
    if n == 0 {
      assert s[0..] == s;
      if inside {
        SaysMore(s, false, name);
      }
    } else {
      assert s[n..] == s[1..][n - 1..];
      SaysSuffix(s[1..], n - 1, if s[0] == '<' then true else if s[0] == '>' then false else inside, name);
    }
  }

  lemma {:induction false} SaysSkip(c: string, rest: string, name: string)
    requires Bracketless(c)
    ensures Says(c + rest, false, name) == Says(rest, false, name)
  {
    if c == "" {
      assert c + rest == rest;
    } else {
      assert (c + rest)[0] == c[0] && (c + rest)[1..] == c[1..] + rest;
      SaysSkip(c[1..], rest, name);
    }
  }

  predicate Mentions(body: string, name: string) {
    exists i | 0 <= i <= |body| :: name <= body[i..]
  }

  lemma NameWithin(name: string, body: string, rest: string)
    requires '>' !in name
    ensures name <= body + ">" + rest ==> name <= body
  {
    var s := body + ">" + rest;
    if name <= s {
      assert forall i :: 0 <= i < |name| ==> name[i] == s[i];
      assert s[|body|] == '>';
      assert |name| <= |body|;
      assert forall i :: 0 <= i < |body| ==> s[i] == body[i];
    }
  }

  lemma {:induction false} SaysWithin(body: string, rest: string, name: string)
    requires Bracketless(body) && '>' !in name && name != "" && !Mentions(body, name)
    ensures Says(body + ">" + rest, true, name) == Says(rest, false, name)
  {
    var s := body + ">" + rest;
    assert body[0..] == body;
    NameWithin(name, body, rest);
    if body == "" {
      assert s[1..] == rest;
    } else {
      assert s[0] == body[0] && s[1..] == body[1..] + ">" + rest;
      assert forall i :: 0 <= i <= |body| - 1 ==> body[1..][i..] == body[i + 1..];
      SaysWithin(body[1..], rest, name);
    }
  }

  lemma SaysSkipTag(body: string, rest: string, name: string)
    requires Bracketless(body) && '>' !in name && name != "" && !Mentions(body, name)
    ensures Says(Angle(body) + rest, false, name) == Says(rest, false, name)
  {
    var s := Angle(body) + rest;
    assert s[1..] == body + ">" + rest;
    SaysWithin(body, rest, name);
  }

  /** What `<[^>]*name` asks for. */
  lemma {:induction false} RunSays(s: string, ps: seq<Piece>, name: string)
    requires |ps| >= 2 && ps[0] == Run(NotGt, false, false) && ps[1] == Lit(name)
    requires Exec(s, ps).Some?
    ensures Says(s, true, name)
  {
    if !(name <= s) {
      assert Exec(s, ps[1..]) == None;
      RunSays(s[1..], ps, name);
    }
  }

  /** A match of a pattern contains a match of what follows its first pieces. */
  lemma {:induction false} ExecTail(s: string, ps: seq<Piece>) returns (n: nat)
    requires ps != [] && Exec(s, ps).Some?
    ensures n <= |s| && Exec(s[n..], ps[1..]).Some?
    decreases |ps|, |s|
  {
    match ps[0]
    case Lit(p) => n := |p|;
    case One(_, _) => n := 1;
    case Run(k, lazy, group) =>
      if Exec(s, ps[1..]).Some? {
        n := 0;
        assert s[0..] == s;
      } else {
        var m := ExecTail(s[1..], ps);
        n := m + 1;
        assert s[n..] == s[1..][m..];
      }
  }

  lemma {:induction false} ExecTails(s: string, ps: seq<Piece>, j: nat) returns (n: nat)
    requires j <= |ps| && Exec(s, ps).Some?
    ensures n <= |s| && Exec(s[n..], ps[j..]).Some?
    decreases j
  {
    if j == 0 {
      n := 0;
      assert s[0..] == s && ps[0..] == ps;
    } else {
      var a := ExecTail(s, ps);
      var b := ExecTails(s[a..], ps[1..], j - 1);
      n := a + b;
      assert s[a..][b..] == s[n..] && ps[1..][j - 1..] == ps[j..];
    }
  }

  lemma {:induction false} SearchFound(s: string, ps: seq<Piece>) returns (n: nat)
    requires Search(s, ps).Some?
    ensures n <= |s| && Exec(s[n..], ps).Some?
  {
    if Exec(s, ps).Some? {
      n := 0;
      assert s[0..] == s;
    } else {
      var m := SearchFound(s[1..], ps);
      n := m + 1;
      assert s[n..] == s[1..][m..];
    }
  }

  /** A pattern with `<[^>]*name` in it matches no text in which no tag says `name`. */
  lemma NotFound(s: string, ps: seq<Piece>, j: nat, name: string)
    requires j + 2 < |ps| && ps[j] == Lit("<") && ps[j + 1] == Run(NotGt, false, false) && ps[j + 2] == Lit(name)
    requires !Says(s, false, name)
    ensures !Test(s, ps)
  {
    if Test(s, ps) {
      var a := SearchFound(s, ps);
      var b := ExecTails(s[a..], ps, j + 1);
      var c := ExecTails(s[a..], ps, j);
      var t := s[a..][c..];
      assert ps[j..][0] == Lit("<") && ps[j..][1..] == ps[j + 1..];
      assert Exec(t[1..], ps[j + 1..]).Some?;
      RunSays(t[1..], ps[j + 1..], name);
      assert t[0] == '<';
      assert Says(t, false, name);
      assert t == s[a + c..];
      SaysSuffix(s, a + c, false, name);
    }
  }
}
