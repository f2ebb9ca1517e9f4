/**
 * The order in which the properties of a JavaScript object are listed: array indices ascending, then all other keys in the
 * order in which they were first set (section 10.1.11.1 of ECMA-262).
 */
module ObjectOrder {
  import opened Lists
  import opened Decimals

  /** The first number that is no array index any more. */
  const INDEX_LIMIT := 0xFFFF_FFFF

  predicate Digits(s: string) {
    forall c <- s :: IsDigit(c)
  }

  /** The text of a number, without leading zeros. */
  predicate Canonical(s: string) {
    s != "" && Digits(s) && (s[0] != '0' || |s| == 1)
  }

  predicate IsIndex(s: string) {
    Canonical(s) && DigitValue(s) < INDEX_LIMIT
  }

  function IndexOf(s: string): nat {
    if IsIndex(s) then DigitValue(s) else 0
  }

  lemma {:induction false} CanonicalText(s: string)
    requires Canonical(s)
    ensures DigitsOf(DigitValue(s)) == s && (s[0] != '0' ==> DigitValue(s) > 0)
  {
    var n := |s| - 1;
    assert s[n] in s;
    assert s == s[..n] + [s[n]];
    if n == 0 {
      assert s[..0] == "";
    } else {
      assert forall c <- s[..n] :: c in s;
      CanonicalText(s[..n]);
      assert DigitValue(s) / 10 == DigitValue(s[..n]) && DigitValue(s) % 10 == s[n] as int - '0' as int;
    }
  }

  lemma {:induction false} DigitsCanonical(n: nat)
    ensures Canonical(DigitsOf(n)) && DigitValue(DigitsOf(n)) == n && (n > 0 ==> DigitsOf(n)[0] != '0')
  {
    DigitValueOf(n);
    if n >= 10 {
      DigitsCanonical(n / 10);
    }
  }

  /** The indices are the texts of the numbers below the limit, so two of them are the same number only if they are equal. */
  lemma IndexIs(s: string)
    ensures IsIndex(s) <==> exists n: nat :: n < INDEX_LIMIT && s == DigitsOf(n)
  {
    hide Canonical, DigitsOf, DigitValue, INDEX_LIMIT;
    if IsIndex(s) {
      CanonicalText(s);
    }
    if n: nat :| n < INDEX_LIMIT && s == DigitsOf(n) {
      DigitsCanonical(n);
    }
  }

  lemma IndexInjective(a: string, b: string)
    requires IsIndex(a) && IsIndex(b) && IndexOf(a) == IndexOf(b)
    ensures a == b
  {
    CanonicalText(a);
    CanonicalText(b);
  }

  // ----- sorting

  function Numbered<T>(key: T -> string): T -> bool {
    x => IsIndex(key(x))
  }

  function Named<T>(key: T -> string): T -> bool {
    x => !IsIndex(key(x))
  }

  function Place<T>(key: T -> string, xs: seq<T>, x: T): seq<T> {
    if xs == [] || IndexOf(key(xs[|xs| - 1])) <= IndexOf(key(x)) then xs + [x]
    else Place(key, xs[..|xs| - 1], x) + [xs[|xs| - 1]]
  }

  function Sorted<T>(key: T -> string, xs: seq<T>): seq<T> {
    if xs == [] then [] else Place(key, Sorted(key, xs[..|xs| - 1]), xs[|xs| - 1])
  }

  /** `Object.entries`, and every other listing, of properties given in the order in which they were first set. */
  function OwnOrder<T(!new)>(key: T -> string, xs: seq<T>): seq<T> {
    Sorted(key, Filter(Numbered(key), xs)) + Filter(Named(key), xs)
  }

  predicate Rising<T(!new)>(key: T -> string, xs: seq<T>) {
    forall i, j :: 0 <= i < j < |xs| ==> IndexOf(key(xs[i])) <= IndexOf(key(xs[j]))
  }

  lemma RisingAppend<T(!new)>(key: T -> string, xs: seq<T>, x: T)
    requires Rising(key, xs) && forall y <- xs :: IndexOf(key(y)) <= IndexOf(key(x))
    ensures Rising(key, xs + [x])
  {
    hide IndexOf;
    var zs := xs + [x];
    forall i, j | 0 <= i < j < |zs| ensures IndexOf(key(zs[i])) <= IndexOf(key(zs[j])) {
      assert zs[i] == xs[i] && xs[i] in xs;
    }
  }

  lemma RisingFront<T(!new)>(key: T -> string, xs: seq<T>)
    requires Rising(key, xs) && xs != []
    ensures Rising(key, xs[..|xs| - 1]) && forall y <- xs[..|xs| - 1] :: IndexOf(key(y)) <= IndexOf(key(xs[|xs| - 1]))
    ensures xs == xs[..|xs| - 1] + [xs[|xs| - 1]]
  {
    hide IndexOf;
  }

  lemma {:induction false} PlaceRising<T(!new)>(key: T -> string, xs: seq<T>, x: T)
    requires Rising(key, xs)
    ensures Rising(key, Place(key, xs, x)) && multiset(Place(key, xs, x)) == multiset(xs) + multiset{x}
  {
    hide Rising, IndexOf;
    if xs == [] {
      RisingAppend(key, xs, x);
    } else {
      var n := |xs| - 1;
      RisingFront(key, xs);
      if IndexOf(key(xs[n])) <= IndexOf(key(x)) {
        RisingAppend(key, xs, x);
      } else {
        PlaceRising(key, xs[..n], x);
        forall y | y in Place(key, xs[..n], x) ensures IndexOf(key(y)) <= IndexOf(key(xs[n])) {
          assert y in multiset(Place(key, xs[..n], x));
        }
        RisingAppend(key, Place(key, xs[..n], x), xs[n]);
      }
    }
  }

  lemma NothingRises<T(!new)>(key: T -> string)
    ensures Rising(key, [])
  {
  }

  lemma {:induction false} SortedRises<T(!new)>(key: T -> string, xs: seq<T>)
    ensures Rising(key, Sorted(key, xs)) && multiset(Sorted(key, xs)) == multiset(xs) && |Sorted(key, xs)| == |xs|
  {
    hide Rising, Place;
    NothingRises(key);
    if xs != [] {
      var n := |xs| - 1;
      SortedRises(key, xs[..n]);
      PlaceRising(key, Sorted(key, xs[..n]), xs[n]);
      assert xs == xs[..n] + [xs[n]];
    }
    assert |multiset(Sorted(key, xs))| == |Sorted(key, xs)|;
  }

  lemma {:induction false} TwoFilters<T(!new)>(p: T -> bool, q: T -> bool, xs: seq<T>)
    requires forall x :: p(x) != q(x)
    ensures multiset(xs) == multiset(Filter(p, xs)) + multiset(Filter(q, xs))
  {
    hide Filter;
    if xs == [] {
      FilterNothing(p);
      FilterNothing(q);
    } else {
      var n := |xs| - 1;
      var front, x := xs[..n], xs[n];
      TwoFilters(p, q, front);
      assert xs == front + [x];
      FilterAppend(p, front, x);
      FilterAppend(q, front, x);
      if p(x) {
        OneFilter(Filter(p, front), Filter(q, front), x);
      } else {
        OneFilter(Filter(q, front), Filter(p, front), x);
      }
    }
  }

  lemma OneFilter<T>(a: seq<T>, b: seq<T>, x: T)
    ensures multiset(a + [x]) + multiset(b + []) == multiset(a) + multiset(b) + multiset{x}
  {
    assert b + [] == b;
  }

  /** A listing has every property once: first the indices, rising, then the others as they were set. */
  lemma OwnOrderLists<T(!new)>(key: T -> string, xs: seq<T>)
    ensures multiset(OwnOrder(key, xs)) == multiset(xs) && |OwnOrder(key, xs)| == |xs|
    ensures var ys, n := OwnOrder(key, xs), |Filter(Numbered(key), xs)|;
      n <= |ys| && (forall i :: 0 <= i < n ==> IsIndex(key(ys[i]))) && Rising(key, ys[..n]) && ys[n..] == Filter(Named(key), xs)
  {
    hide Filter, Sorted, Rising, IsIndex;
    var front := Sorted(key, Filter(Numbered(key), xs));
    SortedRises(key, Filter(Numbered(key), xs));
    TwoFilters(Numbered(key), Named(key), xs);
    var ys, n := OwnOrder(key, xs), |front|;
    assert ys[..n] == front;
    assert |multiset(ys)| == |ys| && |multiset(xs)| == |xs|;
    forall i | 0 <= i < n ensures IsIndex(key(ys[i])) {
      assert front[i] in multiset(front);
      assert front[i] in Filter(Numbered(key), xs);
    }
  }

  // ----- the order of the keys alone

  function Same(): string -> string {
    s => s
  }

  lemma {:induction false} PlaceMap<T(!new)>(key: T -> string, xs: seq<T>, x: T)
    ensures Map(key, Place(key, xs, x)) == Place(Same(), Map(key, xs), key(x))
  {
    hide IndexOf;
    if xs != [] {
      var n := |xs| - 1;
      PlaceMap(key, xs[..n], x);
      assert Map(key, xs) == Map(key, xs[..n]) + [key(xs[n])];
    }
  }

  lemma {:induction false} SortedMap<T(!new)>(key: T -> string, xs: seq<T>)
    ensures Map(key, Sorted(key, xs)) == Sorted(Same(), Map(key, xs))
  {
    if xs != [] {
      var n := |xs| - 1;
      SortedMap(key, xs[..n]);
      PlaceMap(key, Sorted(key, xs[..n]), xs[n]);
      assert Map(key, xs)[..n] == Map(key, xs[..n]);
    }
  }

  lemma {:induction false} FilterMap<T(!new)>(key: T -> string, p: T -> bool, q: string -> bool, xs: seq<T>)
    requires forall x :: p(x) == q(key(x))
    ensures Map(key, Filter(p, xs)) == Filter(q, Map(key, xs))
  {
    if xs != [] {
      var n := |xs| - 1;
      FilterMap(key, p, q, xs[..n]);
      assert Map(key, xs)[..n] == Map(key, xs[..n]);
    }
  }

  lemma MapConcat<T>(key: T -> string, a: seq<T>, b: seq<T>)
    ensures Map(key, a + b) == Map(key, a) + Map(key, b)
  {
    assert forall i :: 0 <= i < |a + b| ==> Map(key, a + b)[i] == (Map(key, a) + Map(key, b))[i];
  }

  /** The keys of a listing are the listed keys. */
  lemma OwnOrderKeys<T(!new)>(key: T -> string, xs: seq<T>)
    ensures Map(key, OwnOrder(key, xs)) == OwnOrder(Same(), Map(key, xs))
  {
    hide Sorted, Filter, IsIndex, Map;
    FilterMap(key, Numbered(key), Numbered(Same()), xs);
    FilterMap(key, Named(key), Named(Same()), xs);
    SortedMap(key, Filter(Numbered(key), xs));
    MapConcat(key, Sorted(key, Filter(Numbered(key), xs)), Filter(Named(key), xs));
  }

  /** Keys that differ are listed with their indices strictly rising. */
  lemma StrictlyRising(keys: seq<string>)
    requires forall k :: multiset(keys)[k] <= 1
    ensures var ys, n := OwnOrder(Same(), keys), |Filter(Numbered(Same()), keys)|;
      n <= |ys| && forall i, j :: 0 <= i < j < n ==> IndexOf(ys[i]) < IndexOf(ys[j])
  {
    hide OwnOrder, Filter, IsIndex, IndexOf;
    OwnOrderLists(Same(), keys);
    var ys, n := OwnOrder(Same(), keys), |Filter(Numbered(Same()), keys)|;
    forall i, j | 0 <= i < j < n ensures IndexOf(ys[i]) < IndexOf(ys[j]) {
      assert ys[..n][i] == ys[i] && ys[..n][j] == ys[j];
      assert IsIndex(Same()(ys[i])) && IsIndex(Same()(ys[j]));
      OnceEach(ys, i, j);
      if IndexOf(ys[i]) == IndexOf(ys[j]) {
        IndexInjective(ys[i], ys[j]);
      }
    }
  }

  lemma OnceEach(ys: seq<string>, i: nat, j: nat)
    requires i < j < |ys| && forall k :: multiset(ys)[k] <= 1
    ensures ys[i] != ys[j]
  {
    WithoutMultiset(ys, j);
    assert Without(ys, j)[i] == ys[i];
    assert ys[i] in multiset(Without(ys, j));
    assert multiset(ys)[ys[j]] == multiset(Without(ys, j))[ys[j]] + 1;
  }

  /** "SK" first, then "20": the number is listed first. */
  lemma NumberFirst()
    ensures OwnOrder(Same(), ["SK", "20"]) == ["20", "SK"]
  {
    var xs := ["SK", "20"];
    assert xs[..1] == ["SK"] && ["SK"][..0] == [];
    assert "20"[..1] == "2" && "2"[..0] == "";
    assert DigitValue("2") == 2 && DigitValue("20") == 20;
    assert IsIndex("20");
    assert 'S' in "SK" && !IsDigit('S');
    assert Filter(Named(Same()), ["SK"]) == ["SK"] && Filter(Numbered(Same()), ["SK"]) == [];
    assert Filter(Numbered(Same()), xs) == ["20"] && Filter(Named(Same()), xs) == ["SK"];
    assert ["20"][..0] == [];
    assert Sorted(Same(), ["20"]) == Place(Same(), [], "20");
  }
}
