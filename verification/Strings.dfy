/** String helpers that mirror the JavaScript built-ins the source relies on. */
module Strings {

  /** The characters `String.prototype.trim` removes (section 22.1.3.32 of ECMA-262). */
  predicate IsSpace(c: char) {
    || '\t' <= c <= '\r' || c == ' ' || c == '\U{A0}' || c == '\U{1680}' || '\U{2000}' <= c <= '\U{200A}'
    || c == '\U{2028}' || c == '\U{2029}' || c == '\U{202F}' || c == '\U{205F}' || c == '\U{3000}' || c == '\U{FEFF}'
  }

  function TrimLeft(s: string): (t: string)
    ensures t != "" ==> !IsSpace(t[0])
  {
    if s != "" && IsSpace(s[0]) then TrimLeft(s[1..]) else s
  }

  function TrimRight(s: string): (t: string)
    ensures t != "" ==> !IsSpace(t[|t| - 1])
    ensures |t| <= |s| && t == s[..|t|]
  {
    if s != "" && IsSpace(s[|s| - 1]) then TrimRight(s[..|s| - 1]) else s
  }

  function Trim(s: string): string {
    TrimRight(TrimLeft(s))
  }

  /** `a || b` on strings. */
  function Or(a: string, b: string): string {
    if a != "" then a else b
  }

  lemma TrimStarts(s: string)
    ensures Trim(s) != "" ==> !IsSpace(Trim(s)[0]) && !IsSpace(Trim(s)[|Trim(s)| - 1])
  {
  }

  lemma TrimFixed(s: string)
    requires s != "" ==> !IsSpace(s[0]) && !IsSpace(s[|s| - 1])
    ensures Trim(s) == s
  {
  }

  lemma {:induction false} TrimLeftWithin(s: string)
    ensures forall c <- TrimLeft(s) :: c in s
  {
    if s != "" && IsSpace(s[0]) {
      TrimLeftWithin(s[1..]);
    }
  }

  lemma TrimWithin(s: string)
    ensures forall c <- Trim(s) :: c in s
  {
    TrimLeftWithin(s);
  }

  lemma TrimTwice(s: string)
    ensures Trim(Trim(s)) == Trim(s)
  {
    TrimStarts(s);
    TrimFixed(Trim(s));
  }

  /** `s.replace(/c/g, t)` for a one-character pattern. */
  function Replace(s: string, c: char, t: string): string {
    if s == "" then "" else (if s[0] == c then t else [s[0]]) + Replace(s[1..], c, t)
  }

  lemma ReplaceConcat(a: string, b: string, c: char, t: string)
    ensures Replace(a + b, c, t) == Replace(a, c, t) + Replace(b, c, t)
  {
    if a == "" {
      assert a + b == b;
    } else {
      assert (a + b)[0] == a[0] && (a + b)[1..] == a[1..] + b;
      ReplaceConcat(a[1..], b, c, t);
    }
  }

  /** `s.replaceAll(p, t)` for a non-empty literal pattern: leftmost, non-overlapping. */
  function ReplaceText(s: string, p: string, t: string): string
    requires p != ""
  {
    if s == "" then ""
    else if p <= s then t + ReplaceText(s[|p|..], p, t)
    else [s[0]] + ReplaceText(s[1..], p, t)
  }

  // ----- splitting at a character

  /** Up to the first `c`. */
  function Before(s: string, c: char): string {
    if s == "" || s[0] == c then "" else [s[0]] + Before(s[1..], c)
  }

  /** Behind the first `c`, "" if there is none. */
  function After(s: string, c: char): string {
    if s == "" then "" else if s[0] == c then s[1..] else After(s[1..], c)
  }

  lemma {:induction false} SplitAt(s: string, c: char)
    ensures c in s ==> s == Before(s, c) + [c] + After(s, c)
    ensures c !in s ==> s == Before(s, c)
    ensures c !in Before(s, c)
  {
    if s != "" && s[0] != c {
      SplitAt(s[1..], c);
      assert s == [s[0]] + s[1..];
    } else if s != "" {
      assert Before(s, c) + [c] + After(s, c) == [c] + s[1..];
    }
  }

  lemma {:induction false} SplitParts(a: string, c: char, b: string)
    requires c !in a && (b == "" || b[0] == c)
    ensures Before(a + b, c) == a && After(a + b, c) == if b == "" then "" else b[1..]
  {
    if a == "" {
      assert a + b == b;
    } else {
      assert (a + b)[0] == a[0] && (a + b)[1..] == a[1..] + b;
      SplitParts(a[1..], c, b);
      assert a == [a[0]] + a[1..];
    }
  }
}
