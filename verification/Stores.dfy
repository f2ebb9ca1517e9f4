/** The two transaction stores: an insertion-ordered map in memory, and a table. */
module Stores {
  import opened Options
  import opened Lists

  /** A transaction with the columns both adapters keep; the instant stands for the canonical timestamp text. */
  datatype Row = Row(
    id: string, direction: string, status: string, senderId: Option<string>, receiverId: Option<string>,
    details: string, timestamp: int)

  /** `to` is the last instant of the day given. An absent or zero limit does not cut. */
  datatype Filters = Filters(
    direction: Option<string>, status: Option<string>, senderId: Option<string>, receiverId: Option<string>,
    from: Option<int>, to: Option<int>, limit: nat)

  // ----- newest first

  predicate NewestFirst(xs: seq<Row>) {
    forall i, j :: 0 <= i < j < |xs| ==> xs[i].timestamp >= xs[j].timestamp
  }

  /** Behind every row that is at least as new. */
  function Insert(xs: seq<Row>, r: Row): seq<Row> {
    if xs == [] || xs[|xs| - 1].timestamp >= r.timestamp then xs + [r] else Insert(xs[..|xs| - 1], r) + [xs[|xs| - 1]]
  }

  /** The stable sort of `list`. */
  function Sort(xs: seq<Row>): seq<Row> {
    if xs == [] then [] else Insert(Sort(xs[..|xs| - 1]), xs[|xs| - 1])
  }

  lemma SortedAppend(xs: seq<Row>, y: Row)
    requires NewestFirst(xs) && forall x <- xs :: x.timestamp >= y.timestamp
    ensures NewestFirst(xs + [y])
  {
  }

  lemma SortedFront(xs: seq<Row>)
    requires NewestFirst(xs) && xs != []
    ensures NewestFirst(xs[..|xs| - 1]) && forall x <- xs[..|xs| - 1] :: x.timestamp >= xs[|xs| - 1].timestamp
    ensures xs == xs[..|xs| - 1] + [xs[|xs| - 1]]
  {
  }

  lemma {:induction false} InsertSorted(xs: seq<Row>, r: Row)
    requires NewestFirst(xs)
    ensures NewestFirst(Insert(xs, r)) && multiset(Insert(xs, r)) == multiset(xs) + multiset{r}
    ensures |Insert(xs, r)| == |xs| + 1
  {
    hide NewestFirst;
    if xs == [] {
      SortedAppend([], r);
    } else {
      var n := |xs| - 1;
      SortedFront(xs);
      if xs[n].timestamp >= r.timestamp {
        SortedAppend(xs, r);
      } else {
        InsertSorted(xs[..n], r);
        forall y | y in Insert(xs[..n], r) ensures y.timestamp >= xs[n].timestamp {
          assert y in multiset(Insert(xs[..n], r));
        }
        SortedAppend(Insert(xs[..n], r), xs[n]);
      }
    }
  }

  lemma {:induction false} SortSorted(xs: seq<Row>)
    ensures NewestFirst(Sort(xs)) && multiset(Sort(xs)) == multiset(xs) && |Sort(xs)| == |xs|
  {
    hide NewestFirst, Insert;
    if xs == [] {
      NothingSorted();
    } else {
      var n := |xs| - 1;
      SortSorted(xs[..n]);
      InsertSorted(Sort(xs[..n]), xs[n]);
      assert xs == xs[..n] + [xs[n]];
    }
  }

  lemma NothingSorted()
    ensures NewestFirst(Sort([])) && Sort([]) == []
  {
  }

  // ----- listing

  predicate Matches(r: Row, f: Filters) {
    && (f.direction.Some? ==> r.direction == f.direction.value)
    && (f.status.Some? ==> r.status == f.status.value)
    && (f.senderId.Some? ==> r.senderId == f.senderId)
    && (f.receiverId.Some? ==> r.receiverId == f.receiverId)
    && (f.from.Some? ==> r.timestamp >= f.from.value)
    && (f.to.Some? ==> r.timestamp <= f.to.value)
  }

  function Cut(xs: seq<Row>, limit: nat): seq<Row> {
    if 0 < limit < |xs| then xs[..limit] else xs
  }

  function Matching(f: Filters): Row -> bool {
    r => Matches(r, f)
  }

  /** What `list` returns when the rows are visited in the order `scan`. */
  function Listing(scan: seq<Row>, f: Filters): seq<Row> {
    Cut(Sort(Filter(Matching(f), scan)), f.limit)
  }

  // ----- two sorted arrangements of the same rows

  function Instants(xs: seq<Row>): (ts: seq<int>)
    ensures |ts| == |xs| && forall i :: 0 <= i < |xs| ==> ts[i] == xs[i].timestamp
  {
    if xs == [] then [] else Instants(xs[..|xs| - 1]) + [xs[|xs| - 1].timestamp]
  }

  function Newer(xs: seq<Row>, t: int): seq<Row> {
    Filter((r: Row) => r.timestamp > t, xs)
  }

  /** Sorted the same way, the rows newer than an instant come first. */
  lemma {:induction false} NewerIsPrefix(xs: seq<Row>, t: int)
    requires NewestFirst(xs)
    ensures Newer(xs, t) <= xs && (forall i :: |Newer(xs, t)| <= i < |xs| ==> xs[i].timestamp <= t)
  {
    if xs != [] {
      var n := |xs| - 1;
      NewerIsPrefix(xs[..n], t);
      SortedFront(xs);
      if xs[n].timestamp > t {
        assert |Newer(xs[..n], t)| == n by {
          assert forall i :: 0 <= i < n ==> xs[..n][i] in xs[..n];
        }
        assert Newer(xs[..n], t) == xs[..n];
      }
    }
  }

  lemma SameInstants(xs: seq<Row>, ys: seq<Row>, i: nat)
    requires NewestFirst(xs) && NewestFirst(ys) && multiset(xs) == multiset(ys) && |xs| == |ys| && i < |xs|
    ensures xs[i].timestamp == ys[i].timestamp
  {
    var t, u := xs[i].timestamp, ys[i].timestamp;
    FilterReordered((r: Row) => r.timestamp > t, xs, ys);
    FilterReordered((r: Row) => r.timestamp > u, xs, ys);
    NewerSize(xs, ys, t);
    NewerSize(xs, ys, u);
    NewerIsPrefix(xs, t);
    NewerIsPrefix(ys, t);
    NewerIsPrefix(xs, u);
    NewerIsPrefix(ys, u);
    NewerBound(xs, t, i);
    NewerBound(ys, u, i);
  }

  /** A row whose instant is t is not among those newer than t. */
  lemma NewerBound(xs: seq<Row>, t: int, i: nat)
    requires NewestFirst(xs) && i < |xs| && xs[i].timestamp == t
    ensures |Newer(xs, t)| <= i
  {
    NewerIsPrefix(xs, t);
    forall k | 0 <= k < |Newer(xs, t)| ensures xs[k].timestamp > t {
      assert xs[k] == Newer(xs, t)[k];
      assert Newer(xs, t)[k] in Newer(xs, t);
    }
  }

  lemma NewerSize(xs: seq<Row>, ys: seq<Row>, t: int)
    requires multiset(xs) == multiset(ys)
    ensures |Newer(xs, t)| == |Newer(ys, t)| && multiset(Newer(xs, t)) == multiset(Newer(ys, t))
  {
    FilterReordered((r: Row) => r.timestamp > t, xs, ys);
    assert |multiset(Newer(xs, t))| == |Newer(xs, t)| && |multiset(Newer(ys, t))| == |Newer(ys, t)|;
  }

  lemma NewerElements(xs: seq<Row>, t: int)
    requires NewestFirst(xs)
    ensures Newer(xs, t) <= xs
    ensures forall i :: 0 <= i < |xs| ==> (i < |Newer(xs, t)| <==> xs[i].timestamp > t)
  {
    NewerIsPrefix(xs, t);
    forall i | 0 <= i < |Newer(xs, t)| ensures xs[i].timestamp > t {
      assert xs[i] == Newer(xs, t)[i];
      assert Newer(xs, t)[i] in Newer(xs, t);
    }
  }

  /** A cut keeps all rows newer than the last one it keeps. */
  lemma NewerOfCut(xs: seq<Row>, m: nat)
    requires NewestFirst(xs) && 0 < m <= |xs|
    ensures Newer(xs[..m], xs[m - 1].timestamp) == Newer(xs, xs[m - 1].timestamp)
  {
    hide Newer;
    var t := xs[m - 1].timestamp;
    assert NewestFirst(xs[..m]);
    NewerElements(xs, t);
    NewerElements(xs[..m], t);
    var a, b := Newer(xs[..m], t), Newer(xs, t);
    assert |b| < m;
    assert |a| < m by { assert xs[..m][m - 1].timestamp == t; }
    assert |a| == |b| by {
      assert xs[..m][|a|] == xs[|a|] && xs[..m][|b|] == xs[|b|];
    }
    assert a == xs[..|a|] && b == xs[..|b|];
  }

  /** The last instant a listing keeps. */
  function LastInstant(xs: seq<Row>): int
    requires xs != []
  {
    xs[|xs| - 1].timestamp
  }

  /**
   * However the stores order their rows, two listings of the same rows have the same instants in the same places, and
   * agree on every row newer than the last one kept; if nothing is cut off they have the same rows.
   */
  lemma ListingsAgree(scan: seq<Row>, other: seq<Row>, f: Filters)
    requires multiset(scan) == multiset(other)
    ensures var a, b := Listing(scan, f), Listing(other, f);
      && |a| == |b| && NewestFirst(a)
      && (forall i :: 0 <= i < |a| ==> a[i].timestamp == b[i].timestamp)
      && (|a| == |Filter(Matching(f), scan)| ==> multiset(a) == multiset(b) == multiset(Filter(Matching(f), scan)))
      && (a != [] ==> multiset(Newer(a, LastInstant(a))) == multiset(Newer(b, LastInstant(a))))
  {
    hide Newer, Filter, Sort;
    var xs, ys := Filter(Matching(f), scan), Filter(Matching(f), other);
    FilterReordered(Matching(f), scan, other);
    SortSorted(xs);
    SortSorted(ys);
    var a, b := Sort(xs), Sort(ys);
    assert |a| == |b| by { assert |multiset(a)| == |a| && |multiset(b)| == |b|; }
    forall i | 0 <= i < |a| ensures a[i].timestamp == b[i].timestamp {
      SameInstants(a, b, i);
    }
    var m := |Cut(a, f.limit)|;
    if m > 0 {
      var t := a[m - 1].timestamp;
      NewerOfCut(a, m);
      NewerOfCut(b, m);
      NewerSize(a, b, t);
      assert Cut(a, f.limit) == a[..m] && Cut(b, f.limit) == b[..m];
    }
  }

  /** The row has the direction, status and participants asked for, and is dated between the two instants, both included. */
  predicate Wanted(r: Row, f: Filters) {
    && (f.direction == None || f.direction == Some(r.direction))
    && (f.status == None || f.status == Some(r.status))
    && (f.senderId == None || f.senderId == r.senderId)
    && (f.receiverId == None || f.receiverId == r.receiverId)
    && (f.from.Some? ==> f.from.value <= r.timestamp)
    && (f.to.Some? ==> r.timestamp <= f.to.value)
  }

  /** Everything listed is stored and wanted, and everything that is wanted and left out is no newer. */
  lemma ListingComplete(scan: seq<Row>, f: Filters)
    ensures var a := Listing(scan, f);
      && (forall r <- a :: r in scan && Wanted(r, f))
      && (forall r <- scan :: Wanted(r, f) && r !in a ==> 0 < f.limit == |a| && forall x <- a :: x.timestamp >= r.timestamp)
  {
    hide Sort, Wanted;
    forall r: Row ensures Matches(r, f) <==> Wanted(r, f) {
      MatchesIs(r, f);
    }
    var xs := Filter(Matching(f), scan);
    SortSorted(xs);
    var s, a := Sort(xs), Listing(scan, f);
    forall r | r in a ensures r in scan && Wanted(r, f) {
      assert r in s;
      assert r in multiset(s);
      assert r in xs;
    }
    forall k | 0 <= k < |a| ensures s[k] in a { assert a[k] == s[k]; }
    forall r | r in scan && Wanted(r, f) && r !in a
      ensures 0 < f.limit == |a| && forall x <- a :: x.timestamp >= r.timestamp
    {
      assert r in xs;
      assert r in multiset(s);
      var j :| 0 <= j < |s| && s[j] == r;
      assert a != s;
      assert a == s[..f.limit];
      assert j >= |a|;
    }
  }

  lemma MatchesIs(r: Row, f: Filters)
    ensures Matches(r, f) <==> Wanted(r, f)
  {
  }
}
