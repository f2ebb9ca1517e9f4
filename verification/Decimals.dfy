/** Numbers as the source prints and reads them: `toFixed(2)`, `parseFloat`, `parseInt`. */
module Decimals {
  import opened Strings

  /** A JavaScript number read from text; amounts are exact decimals. */
  datatype Num<T> = NaN | Fin(value: T)

  /** The number of cents `toFixed(2)` prints: nearest, ties away from zero (section 21.1.3.3 of ECMA-262). */
  function Cents(x: real): int {
    if x < 0.0 then -(-x * 100.0 + 0.5).Floor else (x * 100.0 + 0.5).Floor
  }

  function Round2(x: real): real {
    Cents(x) as real / 100.0
  }

  /** The rounding error lies within half a cent; a tie goes away from zero. */
  lemma CentsNear(x: real)
    ensures x >= 0.0 ==> -0.5 < Cents(x) as real - x * 100.0 <= 0.5 && Cents(x) >= 0
    ensures x <= 0.0 ==> -0.5 <= Cents(x) as real - x * 100.0 < 0.5 && Cents(x) <= 0
  {
  }

  lemma CentsOfCents(n: int)
    ensures Cents(n as real / 100.0) == n
  {
    var x := n as real / 100.0;
    assert x * 100.0 == n as real;
    assert -x * 100.0 == (-n) as real;
  }

  lemma RoundTwice(x: real)
    ensures Round2(Round2(x)) == Round2(x)
    ensures Cents(Round2(x)) == Cents(x)
  {
    CentsOfCents(Cents(x));
  }

  // ----- printing

  function Digit(d: nat): char
    requires d < 10
  {
    '0' + d as char
  }

  predicate IsDigit(c: char) {
    '0' <= c <= '9'
  }

  function DigitsOf(n: nat): (s: string)
    ensures s != "" && forall c <- s :: IsDigit(c)
  {
    if n < 10 then [Digit(n)] else DigitsOf(n / 10) + [Digit(n % 10)]
  }

  /** `String(n)` for an integer. */
  function IntText(n: int): string {
    if n < 0 then "-" + DigitsOf(-n) else DigitsOf(n)
  }

  function CentText(c: nat): string {
    DigitsOf(c / 100) + "." + [Digit(c % 100 / 10), Digit(c % 10)]
  }

  /** `Number(x).toFixed(2)`: the sign of the number itself, then its cents. */
  function Fixed2(x: real): string {
    CentsNear(x);
    if x < 0.0 then "-" + CentText(-Cents(x)) else CentText(Cents(x))
  }

  // ----- reading

  /** The length of the longest prefix of decimal digits. */
  function DigitRun(s: string): (n: nat)
    ensures n <= |s| && (forall i :: 0 <= i < n ==> IsDigit(s[i])) && (n < |s| ==> !IsDigit(s[n]))
  {
    if s != "" && IsDigit(s[0]) then 1 + DigitRun(s[1..]) else 0
  }

  function DigitValue(s: string): nat
    requires forall c <- s :: IsDigit(c)
  {
    if s == "" then 0
    else
      assert s[|s| - 1] in s && IsDigit(s[|s| - 1]);
      DigitValue(s[..|s| - 1]) * 10 + (s[|s| - 1] as int - '0' as int)
  }

  function Pow10(n: nat): (p: nat)
    ensures p > 0
  {
    if n == 0 then 1 else 10 * Pow10(n - 1)
  }

  function Unsigned(s: string): string {
    if s != "" && (s[0] == '-' || s[0] == '+') then s[1..] else s
  }

  function Negative(s: string): bool {
    s != "" && s[0] == '-'
  }

  /** `parseInt(s, 10)`: leading spaces, an optional sign, then the longest run of digits. */
  function ParseInt(s: string): Num<int> {
    var t := TrimLeft(s);
    match Whole(Unsigned(t))
    case NaN => NaN
    case Fin(v) => Fin(if Negative(t) then -v else v)
  }

  function Whole(u: string): Num<int> {
    var n := DigitRun(u);
    if n == 0 then NaN else Fin(DigitValue(u[..n]))
  }

  /** `parseFloat(s)` on plain decimals: no exponent and no `Infinity`. */
  function ParseFloat(s: string): Num<real> {
    var t := TrimLeft(s);
    match Pointed(Unsigned(t))
    case NaN => NaN
    case Fin(v) => Fin(if Negative(t) then -v else v)
  }

  function Pointed(u: string): Num<real> {
    var n := DigitRun(u);
    if n < |u| && u[n] == '.' && DigitRun(u[n + 1..]) > 0 then
      Fin(Mixed(u[..n], u[n + 1..n + 1 + DigitRun(u[n + 1..])]))
    else if n == 0 then NaN
    else Fin(Mixed(u[..n], ""))
  }

  function Mixed(whole: string, fraction: string): real
    requires (forall c <- whole :: IsDigit(c)) && (forall c <- fraction :: IsDigit(c))
  {
    DigitValue(whole) as real + DigitValue(fraction) as real / Pow10(|fraction|) as real
  }

  // ----- reading what was printed

  lemma {:induction false} DigitValueOf(n: nat)
    ensures DigitValue(DigitsOf(n)) == n
  {
    if n < 10 {
      assert [Digit(n)][..0] == "";
    } else {
      var s := DigitsOf(n);
      assert s[..|s| - 1] == DigitsOf(n / 10);
      DigitValueOf(n / 10);
    }
  }

  lemma {:induction false} DigitRunStops(d: string, rest: string)
    requires forall c <- d :: IsDigit(c)
    requires rest != "" ==> !IsDigit(rest[0])
    ensures DigitRun(d + rest) == |d|
  {
    if d == "" {
      assert d + rest == rest;
    } else {
      assert d[0] in d;
      assert (d + rest)[1..] == d[1..] + rest;
      DigitRunStops(d[1..], rest);
    }
  }

  lemma DigitPlain(c: char)
    requires IsDigit(c)
    ensures !IsSpace(c) && c != '-' && c != '+'
  {
  }

  /** A run of digits after an optional sign is not trimmed, and is what the sign leaves. */
  lemma SignedStart(s: string, negative: bool, u: string)
    requires u != "" && IsDigit(u[0])
    requires s == if negative then "-" + u else u
    ensures TrimLeft(s) == s && Unsigned(s) == u && (Negative(s) <==> negative)
  {
    DigitPlain(u[0]);
    if negative {
      assert s[0] == '-' && s[1..] == u;
    }
  }

  lemma WholeDigits(d: string)
    requires d != "" && forall c <- d :: IsDigit(c)
    ensures Whole(d) == Fin(DigitValue(d))
  {
    assert d + "" == d;
    DigitRunStops(d, "");
    assert d[..|d|] == d;
  }

  lemma ParseIntText(n: int)
    ensures ParseInt(IntText(n)) == Fin(n)
  {
    var m: nat := if n < 0 then -n else n;
    var d := DigitsOf(m);
    assert d[0] in d;
    SignedStart(IntText(n), n < 0, d);
    WholeDigits(d);
    DigitValueOf(m);
  }

  lemma TwoDigits(a: nat, b: nat)
    requires a < 10 && b < 10
    ensures DigitValue([Digit(a), Digit(b)]) == 10 * a + b
  {
    var s := [Digit(a), Digit(b)];
    assert s[..1] == [s[0]];
    assert [s[0]][..0] == "";
    assert DigitValue([s[0]]) == a;
  }

  lemma PointShape(d: string, f: string)
    ensures var u := d + "." + f; u == d + ("." + f) && u[|d|] == '.' && u[|d| + 1..] == f && u[..|d|] == d && u[|d| + 1..|d| + 1 + |f|] == f
  {
  }

  lemma PointedDigits(d: string, f: string)
    requires (forall c <- d :: IsDigit(c)) && f != "" && (forall c <- f :: IsDigit(c))
    ensures Pointed(d + "." + f) == Fin(Mixed(d, f))
  {
    hide Mixed, DigitRun, IsDigit;
    PointShape(d, f);
    PointIsNoDigit();
    DigitRunStops(d, "." + f);
    assert f + "" == f;
    DigitRunStops(f, "");
  }

  /** A number ends where its digits end, but for a point with more digits behind it. */
  lemma NumberEnds(d: string, rest: string)
    requires d != "" && (forall c <- d :: IsDigit(c)) && (rest != "" ==> rest[0] != '.' && !IsDigit(rest[0]))
    ensures ParseFloat(d + rest) == Fin(DigitValue(d) as real)
  {
    hide TrimLeft, Unsigned, Negative, IsDigit, DigitRun, DigitValue;
    assert d[0] in d;
    SignedStart(d + rest, false, d + rest);
    DigitRunStops(d, rest);
    assert (d + rest)[..|d|] == d && (rest != "" ==> (d + rest)[|d|] == rest[0]);
    MixedWhole(d);
  }

  /** Either sign is read. */
  lemma SignsRead(u: string)
    requires u != "" && IsDigit(u[0])
    ensures ParseFloat("+" + u) == ParseFloat(u)
    ensures ParseFloat("-" + u) == match ParseFloat(u) case NaN => NaN case Fin(v) => Fin(-v)
  {
    hide Pointed, IsDigit;
    SignedStart(u, false, u);
    SignedStart("-" + u, true, u);
    assert ("+" + u)[0] == '+' && ("+" + u)[1..] == u;
    assert TrimLeft("+" + u) == "+" + u;
  }

  lemma MixedWhole(d: string)
    requires forall c <- d :: IsDigit(c)
    ensures Mixed(d, "") == DigitValue(d) as real
  {
    assert DigitValue("") == 0;
  }

  lemma PointIsNoDigit()
    ensures !IsDigit('.')
  {
  }

  lemma PointedCents(c: nat)
    ensures CentText(c) != "" && IsDigit(CentText(c)[0])
    ensures Pointed(CentText(c)) == Fin(c as real / 100.0)
  {
    var d, f := DigitsOf(c / 100), [Digit(c % 100 / 10), Digit(c % 10)];
    assert d[0] in d && CentText(c)[0] == d[0];
    PointedDigits(d, f);
    DigitValueOf(c / 100);
    TwoDigits(c % 100 / 10, c % 10);
    MixedCents(c, d, f);
  }

  lemma ParsePrinted(s: string, negative: bool, u: string, v: real)
    requires u != "" && IsDigit(u[0]) && Pointed(u) == Fin(v) && s == if negative then "-" + u else u
    ensures ParseFloat(s) == Fin(if negative then -v else v)
  {
    hide Pointed, TrimLeft, Unsigned, Negative;
    SignedStart(s, negative, u);
  }

  /** Reading a printed amount gives the amount rounded to cents. */
  lemma ParseFixed2(x: real)
    ensures ParseFloat(Fixed2(x)) == Fin(Round2(x))
  {
    hide Pointed, CentText, Cents, ParseFloat;
    CentsNear(x);
    var c: nat := if x < 0.0 then -Cents(x) else Cents(x);
    PointedCents(c);
    ParsePrinted(Fixed2(x), x < 0.0, CentText(c), c as real / 100.0);
  }

  lemma MixedCents(c: nat, d: string, f: string)
    requires (forall x <- d :: IsDigit(x)) && (forall x <- f :: IsDigit(x)) && |f| == 2
    requires DigitValue(d) == c / 100 && DigitValue(f) == 10 * (c % 100 / 10) + c % 10
    ensures Mixed(d, f) == c as real / 100.0
  {
    hide DigitValue;
    assert Pow10(2) == 100;
    CentDigits(c);
    Hundredths(DigitValue(d), DigitValue(f), c);
  }

  lemma CentDigits(c: nat)
    ensures c == c / 100 * 100 + 10 * (c % 100 / 10) + c % 10
  {
  }

  lemma Hundredths(a: nat, b: nat, c: nat)
    requires c == 100 * a + b
    ensures a as real + b as real / 100.0 == c as real / 100.0
  {
  }

  /** A printed number needs no trimming and no escaping. */
  lemma Fixed2Clean(x: real)
    ensures Trim(Fixed2(x)) == Fixed2(x) != ""
    ensures forall c <- Fixed2(x) :: IsDigit(c) || c == '-' || c == '.'
  {
    CentsNear(x);
    var s := Fixed2(x);
    var c: nat := if x < 0.0 then -Cents(x) else Cents(x);
    var d := DigitsOf(c / 100);
    assert d[0] in d;
    assert s[0] == '-' || s[0] == d[0];
    assert IsDigit(s[|s| - 1]);
    TrimFixed(s);
  }
}
