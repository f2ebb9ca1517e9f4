/** What the error-code search captures: the code, unless the code itself ends in `code=`. */
module As4ErrorCode {
  import opened Options
  import opened XmlText
  import opened TextSearch
  import opened As4Search

  const QUOTE := Run(NotQuote, false, true)
  const VALUE := [QUOTE, Lit("\""), ATTRS, Lit(">")]
  const AFTER_CODE := [Lit("code=\"")] + VALUE
  const TAIL := [One(Border, false)] + AFTER_CODE

  /** A greedy run up to the first character that ends it. */
  lemma {:induction false} GreedyTo(c: string, q: char, rest: string, r: Piece, ps: seq<Piece>)
    requires r.Run? && !r.lazy && !In(q, r.k) && (forall x <- c :: In(x, r.k) && x != q) && ps != [] && ps[0] == Lit([q])
    ensures Exec(c + [q] + rest, [r] + ps) == Grow(Exec([q] + rest, ps), c, r.group)
  {
    var s := c + [q] + rest;
    assert ([r] + ps)[1..] == ps;
    if c == "" {
      assert s == [q] + rest;
      GrowNothing(Exec([q] + rest, ps), r.group);
    } else {
      assert s[0] == c[0] && s[1..] == c[1..] + [q] + rest;
      GreedyTo(c[1..], q, rest, r, ps);
      assert !([q] <= s);
      GrowTwice(Exec([q] + rest, ps), [c[0]], c[1..], r.group);
      assert [c[0]] + c[1..] == c;
    }
  }

  /** The value up to the closing quote of the tag's last attribute. */
  lemma ValueCaptured(e: string, rest: string)
    requires '"' !in e
    ensures Captured(Exec(e + "\"" + ">" + rest, VALUE)) == Some(e)
  {
    hide Exec;
    var ps := [Lit("\""), ATTRS, Lit(">")];
    assert VALUE == [QUOTE] + ps;
    assert e + "\"" + ">" + rest == e + "\"" + (">" + rest);
    GreedyTo(e, '"', ">" + rest, QUOTE, ps);
    assert ps == [Lit("\"")] + [ATTRS, Lit(">")];
    ExecLit("\"", ">" + rest, [ATTRS, Lit(">")]);
    assert [ATTRS, Lit(">")] == [ATTRS] + [Lit(">")];
    GreedyToGt("", rest, ATTRS, [Lit(">")]);
    assert "" + ">" + rest == ">" + rest;
    assert [Lit(">")] == [Lit(">")] + [];
    ExecLit(">", rest, []);
    EmptyExec(rest);
    assert e + "" == e;
  }

  /** Position m of a tag's text is a boundary followed by `code="`. */
  predicate CodeAt(x: string, m: nat) {
    m + 7 <= |x| && In(x[m], Border) && x[m + 1..m + 7] == "code=\""
  }

  lemma NoCodeHere(x: string, rest: string)
    requires '>' !in x
    ensures Exec(x + ">" + rest, TAIL).Some? ==> CodeAt(x, 0)
  {
    hide Exec, Grow;
    var s := x + ">" + rest;
    TailHere(s);
    assert s[0] == if x == "" then '>' else x[0];
    if x != "" {
      assert s[1..] == x[1..] + ">" + rest;
      NameWithin("code=\"", x[1..], rest);
      if Exec(s, TAIL).Some? {
        assert x[1..7] == x[1..][..6] == "code=\"";
      }
    }
  }

  lemma OneHere(k: Class, s: string, ps: seq<Piece>)
    ensures Exec(s, [One(k, false)] + ps).Some? ==> s != "" && In(s[0], k) && Exec(s[1..], ps).Some?
    ensures s != "" && In(s[0], k) ==> Captured(Exec(s, [One(k, false)] + ps)) == Captured(Exec(s[1..], ps))
  {
    assert ([One(k, false)] + ps)[1..] == ps;
  }

  lemma LitHere(p: string, s: string, ps: seq<Piece>)
    ensures Exec(s, [Lit(p)] + ps).Some? ==> p <= s
    ensures p <= s ==> Captured(Exec(s, [Lit(p)] + ps)) == Captured(Exec(s[|p|..], ps))
  {
    assert ([Lit(p)] + ps)[1..] == ps;
  }

  lemma TailHere(s: string)
    ensures Exec(s, TAIL).Some? ==> s != "" && In(s[0], Border) && "code=\"" <= s[1..]
    ensures s != "" && In(s[0], Border) && "code=\"" <= s[1..] ==> Captured(Exec(s, TAIL)) == Captured(Exec(s[7..], VALUE))
  {
    hide In, Exec, Captured;
    OneHere(Border, s, AFTER_CODE);
    if s != "" {
      LitHere("code=\"", s[1..], VALUE);
      if "code=\"" <= s[1..] {
        assert s[1..][6..] == s[7..];
      }
    }
  }

  /** A match of the greedy search inside a tag is at a boundary before `code="`, the last one at which the rest matches. */
  lemma {:induction false} LastCode(x: string, rest: string)
    requires '>' !in x && forall m | 0 < m < |x| :: !CodeAt(x, m)
    ensures Exec(x + ">" + rest, [ATTRS] + TAIL) == Exec(x + ">" + rest, TAIL)
  {
    var s := x + ">" + rest;
    assert ([ATTRS] + TAIL)[1..] == TAIL;
    if x == "" {
      assert s[0] == '>';
    } else {
      assert s[0] == x[0] && s[1..] == x[1..] + ">" + rest;
      forall m | 0 <= m < |x[1..]| ensures !CodeAt(x[1..], m) {
        assert CodeAt(x[1..], m) ==> CodeAt(x, m + 1) by {
          if CodeAt(x[1..], m) {
            assert x[1..][m + 1..m + 7] == x[m + 2..m + 8];
          }
        }
      }
      LastCode(x[1..], rest);
      NoCodeHere(x[1..], rest);
    }
  }

  lemma {:induction false} GreedyBack(a: string, s: string, ps: seq<Piece>)
    requires '>' !in a && Exec(s, [ATTRS] + ps).Some?
    ensures Exec(a + s, [ATTRS] + ps) == Grow(Exec(s, [ATTRS] + ps), a, false)
  {
    if a == "" {
      assert a + s == s;
      GrowNothing(Exec(s, [ATTRS] + ps), false);
    } else {
      assert (a + s)[0] == a[0] && (a + s)[1..] == a[1..] + s;
      GreedyBack(a[1..], s, ps);
      GrowTwice(Exec(s, [ATTRS] + ps), [a[0]], a[1..], false);
      assert [a[0]] + a[1..] == a;
    }
  }

  /** The escaped code ends in `code=` behind a character that is not a word character, or is `code=`. */
  predicate EndsInCode(e: string) {
    |e| >= 5 && e[|e| - 5..] == "code=" && (|e| == 5 || In(e[|e| - 6], Border))
  }

  lemma CodeAtEnd(e: string, m: nat)
    requires '"' !in e
    ensures CodeAt(" code=\"" + e + "\"", m) ==> m == 0 || (m == |e| + 1 && EndsInCode(e))
  {
    var x := " code=\"" + e + "\"";
    if CodeAt(x, m) && m > 0 {
      assert x[m + 6] == x[m + 1..m + 7][5] == '"';
      assert forall i :: 7 <= i < |x| - 1 ==> x[i] == e[i - 7];
      assert x[1] == 'c' && x[2] == 'o' && x[3] == 'd' && x[4] == 'e' && x[5] == '=' && x[6] == '"';
      assert m + 6 == |x| - 1;
      assert x[6] == '"';
      forall t | 0 <= t < 5 ensures x[m + 1 + t] == "code="[t] {
        assert x[m + 1 + t] == x[m + 1..m + 7][t];
      }
      assert m + 1 > 6;
      assert |e| >= 5;
      assert e[|e| - 5..] == "code=";
      assert m > 6 ==> x[m] == e[|e| - 6];
    }
  }

  // ----- in an attribute list whose last attribute is the code

  function Attribute(e: string): string {
    " code=\"" + e + "\""
  }

  lemma GoodCode(pre: string, e: string, rest: string)
    requires Bracketless(pre) && Bracketless(e) && '"' !in e && !EndsInCode(e)
    ensures Captured(Exec(pre + (Attribute(e) + ">" + rest), [ATTRS] + TAIL)) == Some(e)
  {
    hide Exec, EndsInCode, Bracketless;
    var x := Attribute(e);
    var s := x + ">" + rest;
    AttributePlain(e);
    forall m | 0 < m < |x| ensures !CodeAt(x, m) { CodeAtEnd(e, m); }
    LastCode(x, rest);
    AttributeTail(e, rest);
    TailHere(s);
    ValueCaptured(e, rest);
    PrePlain(pre);
    GreedyBack(pre, s, TAIL);
  }

  lemma PrePlain(s: string)
    requires Bracketless(s)
    ensures '>' !in s
  {
  }

  lemma AttributePlain(e: string)
    requires Bracketless(e)
    ensures '>' !in Attribute(e)
  {
  }

  lemma AttributeTail(e: string, rest: string)
    ensures var s := Attribute(e) + ">" + rest;
      s != "" && In(s[0], Border) && "code=\"" <= s[1..] && s[7..] == e + "\"" + ">" + rest
  {
    var s := Attribute(e) + ">" + rest;
    assert s[0] == ' ' && s[1..] == "code=\"" + (e + "\"" + ">" + rest);
    assert s[1..][..6] == "code=\"";
  }

  // ----- a code that ends in `code=`

  /** There is a quote, and a `>` behind it. */
  predicate Quoted(s: string) {
    s != "" && ((s[0] == '"' && '>' in s[1..]) || Quoted(s[1..]))
  }

  lemma {:induction false} QuotedConcat(a: string, b: string)
    requires Quoted(b)
    ensures Quoted(a + b)
  {
    if a == "" {
      assert a + b == b;
    } else {
      assert (a + b)[1..] == a[1..] + b;
      QuotedConcat(a[1..], b);
    }
  }

  lemma {:induction false} CloseFound(s: string)
    requires '>' in s
    ensures Exec(s, [ATTRS, Lit(">")]).Some?
  {
    assert [ATTRS, Lit(">")] == [ATTRS] + [Lit(">")] && [Lit(">")] == [Lit(">")] + [];
    if s[0] == '>' {
      assert s == ">" + s[1..];
      ExecLit(">", s[1..], []);
    } else {
      assert s == [s[0]] + s[1..];
      CloseFound(s[1..]);
    }
    assert ([ATTRS] + [Lit(">")])[1..] == [Lit(">")];
  }

  lemma {:induction false} ValueFound(s: string)
    requires Quoted(s)
    ensures Exec(s, VALUE).Some?
  {
    var ps := [Lit("\"")] + [ATTRS, Lit(">")];
    assert VALUE == [QUOTE] + ps && VALUE[1..] == ps;
    if s[0] == '"' && '>' in s[1..] {
      CloseFound(s[1..]);
      assert s == "\"" + s[1..];
      ExecLit("\"", s[1..], [ATTRS, Lit(">")]);
    } else {
      ValueFound(s[1..]);
      QuotedBehind(s);
    }
  }

  lemma QuotedBehind(s: string)
    requires Quoted(s) && !(s[0] == '"' && '>' in s[1..])
    ensures s[0] != '"'
  {
    QuotedHasClose(s[1..]);
  }

  lemma {:induction false} QuotedHasClose(s: string)
    requires Quoted(s)
    ensures '>' in s
  {
    if !(s[0] == '"' && '>' in s[1..]) {
      QuotedHasClose(s[1..]);
    }
    assert s == [s[0]] + s[1..];
  }

  lemma ValueBehindTag(rest: string)
    requires Quoted(rest)
    ensures var g := Captured(Exec(">" + rest, VALUE)); g.Some? && g.value != "" && g.value[0] == '>'
  {
    ValueFound(rest);
    var s := ">" + rest;
    assert s[0] == '>' && s[1..] == rest;
  }

  lemma BadCode(pre: string, e: string, rest: string)
    requires Bracketless(pre) && Bracketless(e) && EndsInCode(e) && Quoted(rest)
    ensures var g := Captured(Exec(pre + (Attribute(e) + ">" + rest), [ATTRS] + TAIL)); g.Some? && '>' in g.value
  {
    hide Exec, Bracketless;
    var x := Attribute(e);
    AttributePlain(e);
    PrePlain(pre);
    var m := |e| + 1;
    var y := x[m..];
    EndTail(e, rest);
    LastCode(y, rest);
    TailHere(y + ">" + rest);
    ValueBehindTag(rest);
    GreedyBack(x[..m], y + ">" + rest, TAIL);
    assert x[..m] + (y + ">" + rest) == x + ">" + rest;
    GreedyBack(pre, x + ">" + rest, TAIL);
  }

  lemma EndTail(e: string, rest: string)
    requires EndsInCode(e)
    ensures var y := Attribute(e)[|e| + 1..]; var s := y + ">" + rest;
      |y| == 7 && In(s[0], Border) && "code=\"" <= s[1..] && s[7..] == ">" + rest
  {
    var x := Attribute(e);
    var n := |e|;
    var y := x[n + 1..];
    assert forall i :: 0 <= i < n ==> x[i + 7] == e[i];
    assert n == 5 ==> x[6] == '"';
    assert y[0] == if n == 5 then x[6] else e[n - 6];
    assert y[1..6] == e[n - 5..];
    assert y[6] == '"';
    assert y[1..] == "code=\"";
    var s := y + ">" + rest;
    assert s[1..] == "code=\"" + (">" + rest);
    assert s[1..][..6] == "code=\"";
  }

  // ----- the condition on the code itself

  /** The code ends in `code=` behind something that is not a word character, or is `code=`. */
  predicate CodeTail(code: string) {
    |code| >= 5 && code[|code| - 5..] == "code=" && (|code| == 5 || !WordChar(code[|code| - 6]))
  }

  lemma EscLast(s: string)
    requires s != ""
    ensures var n := |s| - 1;
      Esc(s) == Esc(s[..n]) + Entity(s[n]) && |Entity(s[n])| > 0
      && (if s[n] in SPECIALS then Entity(s[n])[|Entity(s[n])| - 1] == ';' else Entity(s[n]) == [s[n]])
  {
    var n := |s| - 1;
    assert s == s[..n] + [s[n]];
    EscConcat(s[..n], [s[n]]);
    EntityEnds(s[n]);
    match s[n]
    case '&' => assert Entity('&') == "&amp;";
    case '<' => assert Entity('<') == "&lt;";
    case '>' => assert Entity('>') == "&gt;";
    case '"' => assert Entity('"') == "&quot;";
    case '\'' => assert Entity('\'') == "&apos;";
    case _ =>
  }

  /** Peel one ordinary character off the end. */
  lemma EscEnds(s: string, c: char)
    requires c !in SPECIALS && c != ';'
    ensures Esc(s) != "" && Esc(s)[|Esc(s)| - 1] == c <==> s != "" && s[|s| - 1] == c
    ensures s != "" && s[|s| - 1] == c ==> Esc(s)[..|Esc(s)| - 1] == Esc(s[..|s| - 1])
  {
    if s == "" {
      EscIdentity(s);
    } else {
      EscLast(s);
    }
  }

  predicate Ends(s: string, c: char) {
    s != "" && s[|s| - 1] == c
  }

  function Front(s: string): string {
    if s == "" then "" else s[..|s| - 1]
  }

  lemma EscPeel(s: string, c: char)
    requires c !in SPECIALS && c != ';'
    ensures Ends(Esc(s), c) <==> Ends(s, c)
    ensures Ends(s, c) ==> Front(Esc(s)) == Esc(Front(s))
  {
    hide Esc;
    EscEnds(s, c);
  }

  predicate EndsWord(s: string) {
    var s1, s2, s3, s4 := Front(s), Front(Front(s)), Front(Front(Front(s))), Front(Front(Front(Front(s))));
    Ends(s, '=') && Ends(s1, 'e') && Ends(s2, 'd') && Ends(s3, 'o') && Ends(s4, 'c')
  }

  function Front5(s: string): string {
    Front(Front(Front(Front(Front(s)))))
  }

  lemma EndsWordMeans(s: string)
    ensures EndsWord(s) <==> |s| >= 5 && s[|s| - 5..] == "code="
    ensures EndsWord(s) ==> Front5(s) == s[..|s| - 5]
  {
    var n := |s|;
    assert "code=" == ['c', 'o', 'd', 'e', '='];
    if n >= 5 {
      assert Front(s) == s[..n - 1] && Front(Front(s)) == s[..n - 2] && Front(Front(Front(s))) == s[..n - 3];
      assert Front(Front(Front(Front(s)))) == s[..n - 4] && Front5(s) == s[..n - 5];
      assert s[n - 5..] == [s[n - 5], s[n - 4], s[n - 3], s[n - 2], s[n - 1]];
    }
  }

  lemma EndsWordEsc(s: string)
    ensures EndsWord(Esc(s)) <==> EndsWord(s)
    ensures EndsWord(s) ==> Front5(Esc(s)) == Esc(Front5(s))
  {
    hide Esc, Ends, Front;
    EscPeel(s, '=');
    EscPeel(Front(s), 'e');
    EscPeel(Front(Front(s)), 'd');
    EscPeel(Front(Front(Front(s))), 'o');
    EscPeel(Front(Front(Front(Front(s)))), 'c');
  }

  lemma CodeTailMeans(s: string)
    ensures CodeTail(s) <==> EndsWord(s) && (Front5(s) == "" || !WordChar(Front5(s)[|Front5(s)| - 1]))
  {
    hide EndsWord, Front5, WordChar;
    EndsWordMeans(s);
  }

  lemma EndsInCodeMeans(s: string)
    ensures EndsInCode(s) <==> EndsWord(s) && (Front5(s) == "" || In(Front5(s)[|Front5(s)| - 1], Border))
  {
    hide EndsWord, Front5, In;
    EndsWordMeans(s);
  }

  lemma CodeTailEsc(code: string)
    ensures EndsInCode(Esc(code)) <==> CodeTail(code)
  {
    hide *;
    CodeTailMeans(code);
    EndsInCodeMeans(Esc(code));
    EndsWordEsc(code);
    BorderEsc(Front5(code));
  }

  lemma BorderEsc(s: string)
    ensures s == "" <==> Esc(s) == ""
    ensures s != "" ==> (In(Esc(s)[|Esc(s)| - 1], Border) <==> !WordChar(s[|s| - 1]))
  {
    if s == "" {
      EscIdentity(s);
    } else {
      EscLast(s);
      EscHasNoMarkup(s);
      assert Esc(s)[|Esc(s)| - 1] in Esc(s);
    }
  }
}
