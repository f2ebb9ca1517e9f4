/** Sums and flattened maps over sequences, and how they behave when the sequence is reordered. */
module Lists {

  function SumBy<T>(f: T -> real, xs: seq<T>): real {
    if xs == [] then 0.0 else SumBy(f, xs[..|xs| - 1]) + f(xs[|xs| - 1])
  }

  function FlatMap<T, U>(f: T -> seq<U>, xs: seq<T>): seq<U> {
    if xs == [] then [] else FlatMap(f, xs[..|xs| - 1]) + f(xs[|xs| - 1])
  }

  function Map<T, U>(f: T -> U, xs: seq<T>): (ys: seq<U>)
    ensures |ys| == |xs| && forall i :: 0 <= i < |xs| ==> ys[i] == f(xs[i])
  {
    if xs == [] then [] else Map(f, xs[..|xs| - 1]) + [f(xs[|xs| - 1])]
  }

  function Filter<T(!new)>(p: T -> bool, xs: seq<T>): (ys: seq<T>)
    ensures forall y :: y in ys <==> y in xs && p(y)
    ensures |ys| <= |xs|
  {
    if xs == [] then []
    else
      assert xs == xs[..|xs| - 1] + [xs[|xs| - 1]];
      Filter(p, xs[..|xs| - 1]) + if p(xs[|xs| - 1]) then [xs[|xs| - 1]] else []
  }

  function Without<T>(xs: seq<T>, i: nat): seq<T>
    requires i < |xs|
  {
    xs[..i] + xs[i + 1..]
  }

  lemma WithoutMultiset<T>(xs: seq<T>, i: nat)
    requires i < |xs|
    ensures multiset(xs) == multiset(Without(xs, i)) + multiset{xs[i]}
  {
    assert xs == xs[..i] + [xs[i]] + xs[i + 1..];
  }

  lemma WithoutSteps<T>(xs: seq<T>, i: nat)
    requires i < |xs| - 1
    ensures Without(xs, i)[..|xs| - 2] == Without(xs[..|xs| - 1], i)
    ensures Without(xs, i)[|xs| - 2] == xs[|xs| - 1]
  {
  }

  lemma {:induction false} SumWithout<T>(f: T -> real, xs: seq<T>, i: nat)
    requires i < |xs|
    ensures SumBy(f, xs) == SumBy(f, Without(xs, i)) + f(xs[i])
  {
    var n := |xs| - 1;
    if i == n {
      assert Without(xs, i) == xs[..n];
    } else {
      SumWithout(f, xs[..n], i);
      WithoutSteps(xs, i);
    }
  }

  lemma {:induction false} FlatWithout<T, U>(f: T -> seq<U>, xs: seq<T>, i: nat)
    requires i < |xs|
    ensures multiset(FlatMap(f, xs)) == multiset(FlatMap(f, Without(xs, i))) + multiset(f(xs[i]))
  {
    var n := |xs| - 1;
    if i == n {
      assert Without(xs, i) == xs[..n];
    } else {
      FlatWithout(f, xs[..n], i);
      WithoutSteps(xs, i);
    }
  }

  lemma DropSame<T>(xs: seq<T>, ys: seq<T>, i: nat)
    requires xs != [] && multiset(xs) == multiset(ys) && i < |ys| && ys[i] == xs[|xs| - 1]
    ensures multiset(xs[..|xs| - 1]) == multiset(Without(ys, i))
  {
    var n := |xs| - 1;
    assert xs == xs[..n] + [xs[n]];
    WithoutMultiset(ys, i);
    assert multiset(xs[..n]) == multiset(xs) - multiset{xs[n]};
    assert multiset(Without(ys, i)) == multiset(ys) - multiset{ys[i]};
  }

  /** Sums and flattened maps see only the multiset of what they run over. */
  lemma {:induction false} Reordered<T, U>(f: T -> real, g: T -> seq<U>, xs: seq<T>, ys: seq<T>)
    requires multiset(xs) == multiset(ys)
    ensures |xs| == |ys|
    ensures SumBy(f, xs) == SumBy(f, ys)
    ensures multiset(FlatMap(g, xs)) == multiset(FlatMap(g, ys))
  {
    if xs == [] {
      assert |multiset(ys)| == 0;
    } else {
      hide Without;
      var n := |xs| - 1;
      assert xs[n] in multiset(ys);
      var i :| 0 <= i < |ys| && ys[i] == xs[n];
      DropSame(xs, ys, i);
      WithoutSize(ys, i);
      Reordered(f, g, xs[..n], Without(ys, i));
      SumWithout(f, ys, i);
      FlatWithout(g, ys, i);
    }
  }

  lemma WithoutSize<T>(xs: seq<T>, i: nat)
    requires i < |xs|
    ensures |Without(xs, i)| == |xs| - 1
  {
  }

  lemma {:induction false} MapReordered<T, U>(f: T -> U, xs: seq<T>, ys: seq<T>)
    requires multiset(xs) == multiset(ys)
    ensures multiset(Map(f, xs)) == multiset(Map(f, ys))
  {
    var g := x => [f(x)];
    MapIsFlat(f, xs);
    MapIsFlat(f, ys);
    Reordered(_ => 0.0, g, xs, ys);
  }

  lemma {:induction false} MapIsFlat<T, U>(f: T -> U, xs: seq<T>)
    ensures Map(f, xs) == FlatMap(x => [f(x)], xs)
  {
    if xs != [] {
      MapIsFlat(f, xs[..|xs| - 1]);
    }
  }

  lemma {:induction false} ExistsReordered<T>(p: T -> bool, xs: seq<T>, ys: seq<T>)
    requires multiset(xs) == multiset(ys)
    ensures (exists x <- xs :: p(x)) <==> (exists y <- ys :: p(y))
  {
    forall x | x in xs ensures x in ys { assert x in multiset(xs); }
    forall y | y in ys ensures y in xs { assert y in multiset(ys); }
  }

  // ----- filters

  lemma FilterAppend<T(!new)>(p: T -> bool, a: seq<T>, x: T)
    ensures Filter(p, a + [x]) == Filter(p, a) + if p(x) then [x] else []
  {
    assert (a + [x])[..|a|] == a;
  }

  lemma FilterNothing<T(!new)>(p: T -> bool)
    ensures Filter(p, []) == []
  {
  }

  lemma Regroup<T>(a: seq<T>, b: seq<T>, c: seq<T>)
    ensures (a + b) + c == a + (b + c)
  {
  }

  lemma {:induction false} FilterConcat<T(!new)>(p: T -> bool, a: seq<T>, b: seq<T>)
    ensures Filter(p, a + b) == Filter(p, a) + Filter(p, b)
  {
    if b == [] {
      assert a + b == a;
      assert Filter(p, b) == [];
    } else {
      hide Filter;
      var front, x := b[..|b| - 1], b[|b| - 1];
      FilterConcat(p, a, front);
      assert b == front + [x];
      Regroup(a, front, [x]);
      FilterAppend(p, a + front, x);
      FilterAppend(p, front, x);
      Regroup(Filter(p, a), Filter(p, front), if p(x) then [x] else []);
    }
  }

  lemma {:induction false} FilterEqual<T(!new)>(p: T -> bool, q: T -> bool, xs: seq<T>)
    requires forall x :: p(x) == q(x)
    ensures Filter(p, xs) == Filter(q, xs)
  {
    if xs != [] {
      FilterEqual(p, q, xs[..|xs| - 1]);
    }
  }

  lemma {:induction false} FilterIsFlat<T(!new)>(p: T -> bool, xs: seq<T>)
    ensures Filter(p, xs) == FlatMap(x => if p(x) then [x] else [], xs)
  {
    if xs != [] {
      FilterIsFlat(p, xs[..|xs| - 1]);
    }
  }

  lemma FilterReordered<T(!new)>(p: T -> bool, xs: seq<T>, ys: seq<T>)
    requires multiset(xs) == multiset(ys)
    ensures multiset(Filter(p, xs)) == multiset(Filter(p, ys))
  {
    FilterIsFlat(p, xs);
    FilterIsFlat(p, ys);
    Reordered(_ => 0.0, x => if p(x) then [x] else [], xs, ys);
  }
}
