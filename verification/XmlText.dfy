/** Escaping of character data, and the decoding an XML reader performs on it. */
module XmlText {
  import opened Strings

  const SPECIALS: set<char> := {'&', '<', '>', '"', '\''}

  /** Neither a `<` nor a quote: an attribute value can be written as it is. */
  predicate MarkFree(s: string) {
    '<' !in s && '"' !in s
  }

  /** The entity the source writes for a special character. */
  function Entity(c: char): string {
    match c
    case '&' => "&amp;"
    case '<' => "&lt;"
    case '>' => "&gt;"
    case '"' => "&quot;"
    case '\'' => "&apos;"
    case _ => [c]
  }

  /** `esc`: five successive replace-all passes, ampersand first. */
  function Esc(s: string): string {
    var s1 := Replace(s, '&', "&amp;");
    var s2 := Replace(s1, '<', "&lt;");
    var s3 := Replace(s2, '>', "&gt;");
    var s4 := Replace(s3, '"', "&quot;");
    Replace(s4, '\'', "&apos;")
  }

  /** One per-character substitution of the characters in `codes`. */
  function Substitute(s: string, codes: set<char>): string {
    if s == "" then "" else (if s[0] in codes then Entity(s[0]) else [s[0]]) + Substitute(s[1..], codes)
  }

  /** An XML reader's decoding: the other four predefined entities, then the ampersand. */
  function Decode(s: string): string {
    var s1 := ReplaceText(s, "&apos;", "'");
    var s2 := ReplaceText(s1, "&gt;", ">");
    var s3 := ReplaceText(s2, "&lt;", "<");
    var s4 := ReplaceText(s3, "&quot;", "\"");
    ReplaceText(s4, "&amp;", "&")
  }

  /** A text none of whose characters is replaced passes through. */
  lemma ReplaceNothing(s: string, c: char, t: string)
    requires c !in s
    ensures Replace(s, c, t) == s
  {
    if s != "" {
      assert s == [s[0]] + s[1..];
    }
  }

  lemma EntityClean(d: char, c: char)
    requires d in SPECIALS && c in SPECIALS && c != '&'
    ensures c !in Entity(d)
  {
    match d
    case '&' => assert Entity(d) == "&amp;";
    case '<' => assert Entity(d) == "&lt;";
    case '>' => assert Entity(d) == "&gt;";
    case '"' => assert Entity(d) == "&quot;";
    case '\'' => assert Entity(d) == "&apos;";
  }

  /** One pass adds one character to those already substituted, if no earlier pass wrote it. */
  lemma {:induction false} PassExtends(s: string, codes: set<char>, c: char)
    requires c in SPECIALS && c !in codes && codes <= SPECIALS
    requires c == '&' ==> codes == {}
    ensures Replace(Substitute(s, codes), c, Entity(c)) == Substitute(s, codes + {c})
  {
    if s == "" {
    } else {
      var head := if s[0] in codes then Entity(s[0]) else [s[0]];
      PassExtends(s[1..], codes, c);
      ReplaceConcat(head, Substitute(s[1..], codes), c, Entity(c));
      if s[0] in codes {
        EntityClean(s[0], c);
        ReplaceNothing(head, c, Entity(c));
      } else {
        assert head[1..] == "";
        assert Replace(head, c, Entity(c)) == if s[0] == c then Entity(c) + "" else head + "";
      }
    }
  }

  lemma SubstituteNothing(s: string)
    ensures Substitute(s, {}) == s
  {
    if s != "" {
      assert s == [s[0]] + s[1..];
    }
  }

  /** The five passes are one substitution: no pass touches what another one wrote. */
  lemma {:induction false} EscIsOnePass(s: string)
    ensures Esc(s) == Substitute(s, SPECIALS)
  {
    SubstituteNothing(s);
    PassExtends(s, {}, '&');
    PassExtends(s, {} + {'&'}, '<');
    PassExtends(s, {} + {'&'} + {'<'}, '>');
    PassExtends(s, {} + {'&'} + {'<'} + {'>'}, '"');
    PassExtends(s, {} + {'&'} + {'<'} + {'>'} + {'"'}, '\'');
    assert {} + {'&'} + {'<'} + {'>'} + {'"'} + {'\''} == SPECIALS;
  }

  lemma {:induction false} SubstituteConcat(a: string, b: string, codes: set<char>)
    ensures Substitute(a + b, codes) == Substitute(a, codes) + Substitute(b, codes)
  {
    if a == "" {
      assert a + b == b;
    } else {
      assert (a + b)[0] == a[0] && (a + b)[1..] == a[1..] + b;
      SubstituteConcat(a[1..], b, codes);
    }
  }

  lemma EscConcat(a: string, b: string)
    ensures Esc(a + b) == Esc(a) + Esc(b)
  {
    EscIsOnePass(a);
    EscIsOnePass(b);
    EscIsOnePass(a + b);
    SubstituteConcat(a, b, SPECIALS);
  }

  /** The five predefined entities (section 4.6 of XML 1.0), and nothing else is replaced. */
  lemma EscEach(c: char)
    ensures Esc([c]) ==
      if c == '&' then "&amp;" else if c == '<' then "&lt;" else if c == '>' then "&gt;"
      else if c == '"' then "&quot;" else if c == '\'' then "&apos;" else [c]
  {
    EscIsOnePass([c]);
    assert [c][1..] == "";
    assert Substitute("", SPECIALS) == "";
  }

  /** Escaped text has no raw markup character, and adds none of the other characters but these. */
  lemma {:induction false} EscHasNoMarkup(s: string)
    ensures '<' !in Esc(s) && '>' !in Esc(s) && '"' !in Esc(s) && '\'' !in Esc(s)
    ensures forall c <- Esc(s) :: c in s || c in "&;ampltgquos"
  {
    EscIsOnePass(s);
    if s != "" {
      EscIsOnePass(s[1..]);
      EscHasNoMarkup(s[1..]);
      if s[0] in SPECIALS {
        EntityLetters(s[0]);
      }
    }
  }

  lemma EntityLetters(c: char)
    requires c in SPECIALS
    ensures forall x <- Entity(c) :: x in "&;ampltgquos"
    ensures '<' !in Entity(c) && '>' !in Entity(c) && '"' !in Entity(c) && '\'' !in Entity(c)
  {
    var letters := "&;ampltgquos";
    assert letters[0] == '&' && letters[1] == ';' && letters[2] == 'a' && letters[3] == 'm' && letters[4] == 'p'
      && letters[5] == 'l' && letters[6] == 't' && letters[7] == 'g' && letters[8] == 'q' && letters[9] == 'u'
      && letters[10] == 'o' && letters[11] == 's';
    match c
    case '&' => assert Entity(c) == "&amp;";
    case '<' => assert Entity(c) == "&lt;";
    case '>' => assert Entity(c) == "&gt;";
    case '"' => assert Entity(c) == "&quot;";
    case '\'' => assert Entity(c) == "&apos;";
  }

  /** Text in which the pattern occurs nowhere at its start is copied through. */
  lemma {:induction false} CopyThrough(h: string, rest: string, p: string, t: string)
    requires p != ""
    requires forall i :: 0 <= i < |h| ==> !(p <= (h + rest)[i..])
    ensures ReplaceText(h + rest, p, t) == h + ReplaceText(rest, p, t)
  {
    if h == "" {
      assert h + rest == rest;
    } else {
      var all := h + rest;
      assert all[0..] == all;
      assert all[1..] == h[1..] + rest;
      forall i | 0 <= i < |h[1..]| ensures !(p <= (h[1..] + rest)[i..]) {
        assert all[i + 1..] == (h[1..] + rest)[i..];
      }
      CopyThrough(h[1..], rest, p, t);
      assert h == [h[0]] + h[1..];
    }
  }

  /** The entities differ from one another within their first three characters. */
  lemma EntityShape(c: char)
    requires c in SPECIALS
    ensures |Entity(c)| >= 4 && Entity(c)[0] == '&'
    ensures forall i :: 0 < i < |Entity(c)| ==> Entity(c)[i] != '&'
    ensures Entity(c)[1] == (match c case '&' => 'a' case '<' => 'l' case '>' => 'g' case '"' => 'q' case _ => 'a')
    ensures Entity(c)[2] == (match c case '&' => 'm' case '<' => 't' case '>' => 't' case '"' => 'u' case _ => 'p')
  {
    match c
    case '&' => assert Entity(c) == "&amp;";
    case '<' => assert Entity(c) == "&lt;";
    case '>' => assert Entity(c) == "&gt;";
    case '"' => assert Entity(c) == "&quot;";
    case '\'' => assert Entity(c) == "&apos;";
  }

  /** One decoding pass restores one character, as long as ampersands are still encoded. */
  lemma {:induction false} DecodePass(s: string, codes: set<char>, c: char)
    requires c in codes && codes <= SPECIALS
    requires if c == '&' then codes == {'&'} else '&' in codes
    ensures ReplaceText(Substitute(s, codes), Entity(c), [c]) == Substitute(s, codes - {c})
  {
    EntityShape(c);
    if s == "" {
    } else {
      var d, rest := s[0], Substitute(s[1..], codes);
      DecodePass(s[1..], codes, c);
      if d == c {
        assert (Entity(c) + rest)[|Entity(c)|..] == rest;
      } else {
        var head := if d in codes then Entity(d) else [d];
        if d in codes {
          EntityShape(d);
        }
        forall i | 0 <= i < |head| ensures !(Entity(c) <= (head + rest)[i..]) {
          var tail := (head + rest)[i..];
          assert tail[0] == head[i];
          assert i == 0 ==> tail == head + rest;
        }
        CopyThrough(head, rest, Entity(c), [c]);
      }
    }
  }

  /** Decoding with the ampersand last restores every string. */
  lemma DecodeRestores(s: string)
    ensures Decode(Esc(s)) == s
  {
    EscIsOnePass(s);
    DecodePass(s, SPECIALS, '\'');
    DecodePass(s, SPECIALS - {'\''}, '>');
    DecodePass(s, SPECIALS - {'\''} - {'>'}, '<');
    DecodePass(s, SPECIALS - {'\''} - {'>'} - {'<'}, '"');
    assert SPECIALS - {'\''} - {'>'} - {'<'} - {'"'} == {'&'};
    DecodePass(s, {'&'}, '&');
    assert {'&'} - {'&'} == {};
    SubstituteNothing(s);
  }

  /** Two different strings never escape to the same text. */
  lemma EscInjective(a: string, b: string)
    ensures Esc(a) == Esc(b) <==> a == b
  {
    DecodeRestores(a);
    DecodeRestores(b);
  }

  /** Escaping leaves a string alone exactly when it has no special character. */
  lemma {:induction false} EscIdentity(s: string)
    ensures Esc(s) == s <==> forall c <- s :: c !in SPECIALS
  {
    EscIsOnePass(s);
    if exists c <- s :: c in SPECIALS {
      SubstituteGrows(s);
    } else {
      SubstituteSame(s);
    }
  }

  lemma SubstituteSame(s: string)
    requires forall c <- s :: c !in SPECIALS
    ensures Substitute(s, SPECIALS) == s
  {
    if s != "" {
      assert s == [s[0]] + s[1..];
    }
  }

  lemma {:induction false} SubstituteGrows(s: string)
    ensures |Substitute(s, SPECIALS)| >= |s|
    ensures (exists c <- s :: c in SPECIALS) ==> |Substitute(s, SPECIALS)| > |s|
  {
    if s != "" {
      assert s == [s[0]] + s[1..];
      SubstituteGrows(s[1..]);
      if s[0] in SPECIALS {
        EntityShape(s[0]);
      }
    }
  }

  /** Trimming commutes with escaping: no entity starts or ends with a space. */
  lemma {:induction false} TrimEsc(s: string)
    ensures Trim(Esc(s)) == Esc(Trim(s))
  {
    TrimLeftEsc(s);
    TrimRightEsc(TrimLeft(s));
  }

  lemma EntityEnds(c: char)
    ensures |Entity(c)| > 0
    ensures !IsSpace(c) ==> !IsSpace(Entity(c)[0]) && !IsSpace(Entity(c)[|Entity(c)| - 1])
    ensures c !in SPECIALS ==> Entity(c) == [c]
    ensures IsSpace(c) ==> c !in SPECIALS
    ensures Esc([c]) == Entity(c)
  {
    EscIsOnePass([c]);
    assert [c][1..] == "";
    match c
    case '&' => assert Entity(c) == "&amp;";
    case '<' => assert Entity(c) == "&lt;";
    case '>' => assert Entity(c) == "&gt;";
    case '"' => assert Entity(c) == "&quot;";
    case '\'' => assert Entity(c) == "&apos;";
    case _ =>
  }

  lemma {:induction false} TrimLeftEsc(s: string)
    ensures TrimLeft(Esc(s)) == Esc(TrimLeft(s))
  {
    if s != "" {
      assert s == [s[0]] + s[1..];
      EscConcat([s[0]], s[1..]);
      EntityEnds(s[0]);
      if IsSpace(s[0]) {
        TrimLeftEsc(s[1..]);
        assert Esc(s)[1..] == Esc(s[1..]);
      }
    }
  }

  lemma {:induction false} TrimRightEsc(s: string)
    ensures TrimRight(Esc(s)) == Esc(TrimRight(s))
  {
    if s != "" {
      var n := |s| - 1;
      assert s == s[..n] + [s[n]];
      EscConcat(s[..n], [s[n]]);
      EntityEnds(s[n]);
      if IsSpace(s[n]) {
        TrimRightEsc(s[..n]);
        assert Esc(s)[..|Esc(s)| - 1] == Esc(s[..n]);
      }
    }
  }

  /** What a reader that trims and then decodes sees of an escaped text. */
  lemma ReadEscaped(s: string)
    ensures Decode(Trim(Esc(s))) == Trim(s)
  {
    TrimEsc(s);
    DecodeRestores(Trim(s));
  }
}
