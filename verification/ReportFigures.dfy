/** What the figures of a monthly report mean: counts, shares and rounded amounts of the transactions of the period. */
module ReportFigures {
  import opened Options
  import opened Strings
  import opened Lists
  import opened ObjectOrder
  import opened Reports
  import opened ReportTotals
  import opened MonthlyReport

  // ----- rounding

  /** `r` is `x` rounded to two decimals, ties upwards. */
  predicate Rounded(x: real, r: real) {
    (r * 100.0).Floor as real == r * 100.0 && -0.005 < r - x <= 0.005
  }

  lemma RoundedIs(x: real)
    ensures Rounded(x, RoundCents(x))
  {
    CentsClose(x);
    assert RoundCents(x) * 100.0 == Round(x * 100.0);
  }

  /** A share in percent, rounded; 0 of nothing. */
  predicate Share(part: real, whole: real, r: real) {
    if whole > 0.0 then Rounded(100.0 * part / whole, r) else r == 0.0
  }

  lemma ShareIs(part: real, whole: real)
    ensures Share(part, whole, Percent(part, whole))
  {
    if whole > 0.0 {
      RoundedIs(100.0 * part / whole);
      assert part / whole * 10000.0 == 100.0 * part / whole * 100.0;
    }
  }

  // ----- counting

  function Count(p: Trade -> bool, txs: seq<Trade>): nat {
    if txs == [] then 0 else Count(p, txs[..|txs| - 1]) + if p(txs[|txs| - 1]) then 1 else 0
  }

  lemma {:induction false} CountIs(p: Trade -> bool, txs: seq<Trade>)
    ensures |Filter(p, txs)| == Count(p, txs)
  {
    if txs != [] {
      CountIs(p, txs[..|txs| - 1]);
    }
  }

  /** The counted keys: every one that occurs, once, with the number of its transactions. */
  predicate Counted(txs: seq<Trade>, key: Trade -> string, entries: seq<Entry>) {
    && (forall e <- entries :: e.value == Count((t: Trade) => key(t) == e.key, txs) as real)
    && (forall t <- txs :: exists e <- entries :: e.key == key(t))
    && (forall e <- entries :: exists t <- txs :: key(t) == e.key)
  }

  predicate Unique(acc: seq<Entry>) {
    forall i, j :: 0 <= i < j < |acc| ==> acc[i].key != acc[j].key
  }

  lemma {:induction false} RaiseAt(acc: seq<Entry>, key: string, v: real)
    requires Unique(acc)
    ensures |Raise(acc, key, v)| == |acc|
    ensures forall i :: 0 <= i < |acc| ==>
      Raise(acc, key, v)[i] == if acc[i].key == key then Entry(key, acc[i].value + v) else acc[i]
  {
    if acc != [] && acc[|acc| - 1].key != key {
      RaiseAt(acc[..|acc| - 1], key, v);
    }
  }

  /** One more transaction counts for its own key and no other. */
  lemma CountSnoc(key: Trade -> string, txs: seq<Trade>, k: string)
    requires txs != []
    ensures Count((t: Trade) => key(t) == k, txs)
      == Count((t: Trade) => key(t) == k, txs[..|txs| - 1]) + if key(txs[|txs| - 1]) == k then 1 else 0
  {
  }

  lemma {:induction false} CountNone(key: Trade -> string, txs: seq<Trade>, k: string)
    requires forall t <- txs :: key(t) != k
    ensures Count((t: Trade) => key(t) == k, txs) == 0
  {
    if txs != [] {
      CountNone(key, txs[..|txs| - 1], k);
    }
  }

  lemma CountedStep(txs: seq<Trade>, key: Trade -> string, acc: seq<Entry>)
    requires txs != [] && Unique(acc) && Counted(txs[..|txs| - 1], key, acc)
    ensures var next := Add(acc, key(txs[|txs| - 1]), 1.0); Unique(next) && Counted(txs, key, next)
  {
    hide Count, Raise;
    var n := |txs| - 1;
    var k, next := key(txs[n]), Add(acc, key(txs[n]), 1.0);
    assert txs == txs[..n] + [txs[n]];
    forall e: Entry ensures Count((t: Trade) => key(t) == e.key, txs)
      == Count((t: Trade) => key(t) == e.key, txs[..n]) + if k == e.key then 1 else 0
    {
      CountSnoc(key, txs, e.key);
    }
    if Reports.Holds(acc, k) {
      RaiseAt(acc, k, 1.0);
      forall e | e in next ensures e.value == Count((t: Trade) => key(t) == e.key, txs) as real && exists t <- txs :: key(t) == e.key {
        var i :| 0 <= i < |next| && next[i] == e;
        assert acc[i] in acc;
      }
      forall t | t in txs ensures exists e <- next :: e.key == key(t) {
        var e :| e in acc && e.key == key(t);
        var i :| 0 <= i < |acc| && acc[i] == e;
        assert next[i] in next;
      }
    } else {
      CountNone(key, txs[..n], k);
      assert next == acc + [Entry(k, 1.0)];
      forall t | t in txs ensures exists e <- next :: e.key == key(t) {
        if t in txs[..n] {
          var e :| e in acc && e.key == key(t);
          assert e in next;
        } else {
          assert Entry(k, 1.0) in next;
        }
      }
    }
  }

  lemma {:induction false} GroupCounts(txs: seq<Trade>, key: Trade -> string)
    ensures Unique(GroupAndSum(txs, key, One())) && Counted(txs, key, GroupAndSum(txs, key, One()))
  {
    hide Add, Count, Counted, Unique;
    if txs == [] {
      NothingCounted(key);
    } else {
      GroupCounts(txs[..|txs| - 1], key);
      CountedStep(txs, key, GroupAndSum(txs[..|txs| - 1], key, One()));
    }
  }

  lemma NothingCounted(key: Trade -> string)
    ensures Unique([]) && Counted([], key, [])
  {
  }

  lemma ListedCounts(txs: seq<Trade>, key: Trade -> string)
    ensures Counted(txs, key, Entries(GroupAndSum(txs, key, One())))
  {
    hide GroupAndSum, Entries, Count;
    var acc := GroupAndSum(txs, key, One());
    GroupCounts(txs, key);
    EntriesSame(acc);
    SameEntries(Entries(acc), acc);
  }

  lemma SameEntries(a: seq<Entry>, b: seq<Entry>)
    requires multiset(a) == multiset(b)
    ensures forall e :: e in a <==> e in b
  {
    forall e ensures e in a <==> e in b {
      assert e in multiset(a) <==> e in multiset(b);
    }
  }

  /** At most ten, in descending order, with their numbers, and nobody left out has more. */
  predicate TopTen(txs: seq<Trade>, key: Trade -> string, top: seq<Entry>) {
    && |top| <= 10 && Descending(top)
    && (forall e <- top :: e.value == Count((t: Trade) => key(t) == e.key, txs) as real)
    && forall t <- txs :: (forall e <- top :: e.key != key(t)) ==>
         |top| == 10 && forall e <- top :: Count((u: Trade) => key(u) == key(t), txs) as real <= e.value
  }

  lemma TopTenIs(txs: seq<Trade>, key: Trade -> string)
    ensures TopTen(txs, key, TopN(GroupAndSum(txs, key, One()), 10))
  {
    hide GroupAndSum, Count, TopN, Descending;
    var acc := GroupAndSum(txs, key, One());
    var top := TopN(acc, 10);
    GroupCounts(txs, key);
    TopIsTop(acc, 10);
    forall e | e in top ensures e in acc {
      assert e in multiset(top);
    }
    forall t | t in txs && forall e <- top :: e.key != key(t)
      ensures |top| == 10 && forall e <- top :: Count((u: Trade) => key(u) == key(t), txs) as real <= e.value
    {
      var mine :| mine in acc && mine.key == key(t);
      if |acc| <= 10 {
        AllListed(top, acc);
      }
    }
  }

  lemma AllListed(top: seq<Entry>, acc: seq<Entry>)
    requires multiset(top) <= multiset(acc) && |top| == |acc|
    ensures forall e <- acc :: e in top
  {
    var rest := multiset(acc) - multiset(top);
    assert |multiset(acc)| == |acc| && |multiset(top)| == |top|;
    assert multiset(acc) == multiset(top) + rest;
    assert |rest| == 0;
    forall e | e in acc ensures e in top {
      assert e in multiset(acc);
      assert rest[e] == 0;
    }
  }

  // ----- countries

  /** Up to the second colon there is a scheme and a value of at least two characters: it starts with the country. */
  predicate Schemed(id: string, scheme: string, value: string, rest: string) {
    && id == scheme + ":" + value + rest && ':' !in scheme && ':' !in value && |value| >= 2 && (rest == "" || rest[0] == ':')
  }

  /** Neither of the first two characters is a small letter. */
  predicate Capital(id: string) {
    |id| >= 2 && !('a' <= id[0] <= 'z') && !('a' <= id[1] <= 'z')
  }

  /** The country of an id: the start of its value, or of itself if it starts in capitals, or unknown. */
  lemma CountryOfId(id: string)
    ensures (exists scheme, value, rest :: Schemed(id, scheme, value, rest) && Country(Some(id)) == value[..2])
      || ((forall scheme, value, rest :: !Schemed(id, scheme, value, rest))
          && Country(Some(id)) == if Capital(id) then id[..2] else "UNKNOWN")
    ensures Country(None) == "UNKNOWN"
  {
    hide Before, After;
    SplitAt(id, ':');
    SplitAt(After(id, ':'), ':');
    var scheme, tail := Before(id, ':'), After(id, ':');
    var value := Before(tail, ':');
    if ':' in id && |value| >= 2 {
      var rest := if ':' in tail then ":" + After(tail, ':') else "";
      assert tail == value + rest;
      assert id == scheme + ":" + value + rest;
      assert Schemed(id, scheme, value, rest);
    } else {
      forall s, v, r ensures !Schemed(id, s, v, r) {
        if Schemed(id, s, v, r) {
          SchemeSplits(id, s, v, r);
        }
      }
    }
  }

  lemma SchemeSplits(id: string, scheme: string, value: string, rest: string)
    requires Schemed(id, scheme, value, rest)
    ensures ':' in id && Before(After(id, ':'), ':') == value
  {
    var tail := ":" + (value + rest);
    assert id == scheme + tail && tail[1..] == value + rest;
    SplitParts(scheme, ':', tail);
    SplitParts(value, ':', rest);
    assert id[|scheme|] == ':';
  }

  /** What the documents of these transactions are worth together. */
  function Earned(p: Trade -> bool, txs: seq<Trade>): real {
    if txs == [] then 0.0
    else Earned(p, txs[..|txs| - 1]) + if p(txs[|txs| - 1]) then MonetaryTotal(txs[|txs| - 1].ublXml) else 0.0
  }

  /** A received transaction belongs to the country of its receiver, a sent one to that of its sender. */
  function Home(t: Trade): string {
    Country(if t.direction == "receive" then t.receiverId else t.senderId)
  }

  function In(country: string): Trade -> bool {
    (t: Trade) => Home(t) == country
  }

  predicate LandsOnce(acc: seq<Land>) {
    forall i, j :: 0 <= i < j < |acc| ==> acc[i].country != acc[j].country
  }

  predicate LandsCounted(txs: seq<Trade>, acc: seq<Land>) {
    && (forall l <- acc :: LandIs(txs, l))
    && (forall t <- txs :: exists l <- acc :: l.country == Home(t))
  }

  lemma {:induction false} GrowAt(acc: seq<Land>, country: string, v: real)
    requires LandsOnce(acc)
    ensures |GrowLand(acc, country, v)| == |acc|
    ensures forall i :: 0 <= i < |acc| ==>
      GrowLand(acc, country, v)[i] == if acc[i].country == country then Land(country, acc[i].count + 1, acc[i].total + v) else acc[i]
  {
    if acc != [] && acc[|acc| - 1].country != country {
      GrowAt(acc[..|acc| - 1], country, v);
    }
  }

  lemma {:induction false} NoneIn(country: string, txs: seq<Trade>)
    requires forall t <- txs :: Home(t) != country
    ensures Count(In(country), txs) == 0 && Earned(In(country), txs) == 0.0
  {
    hide Home, MonetaryTotal;
    if txs != [] {
      NoneIn(country, txs[..|txs| - 1]);
    }
  }

  /** One more transaction counts for its own country and no other. */
  lemma InSnoc(country: string, txs: seq<Trade>)
    requires txs != []
    ensures var before, t := txs[..|txs| - 1], txs[|txs| - 1];
      && Count(In(country), txs) == Count(In(country), before) + (if Home(t) == country then 1 else 0)
      && Earned(In(country), txs) == Earned(In(country), before) + (if Home(t) == country then MonetaryTotal(t.ublXml) else 0.0)
  {
    hide Home, MonetaryTotal;
  }

  predicate LandIs(txs: seq<Trade>, l: Land) {
    l.count == Count(In(l.country), txs) && l.total == Earned(In(l.country), txs) && exists t <- txs :: Home(t) == l.country
  }

  lemma LandGrows(txs: seq<Trade>, l: Land)
    requires txs != [] && LandIs(txs[..|txs| - 1], l)
    ensures var t := txs[|txs| - 1];
      LandIs(txs, if l.country == Home(t) then Land(l.country, l.count + 1, l.total + MonetaryTotal(t.ublXml)) else l)
  {
    hide Home, MonetaryTotal, Count, Earned;
    InSnoc(l.country, txs);
    assert forall x <- txs[..|txs| - 1] :: x in txs;
  }

  lemma LandStarts(txs: seq<Trade>)
    requires txs != [] && forall t <- txs[..|txs| - 1] :: Home(t) != Home(txs[|txs| - 1])
    ensures var t := txs[|txs| - 1]; LandIs(txs, Land(Home(t), 1, MonetaryTotal(t.ublXml)))
  {
    hide Home, MonetaryTotal, Count, Earned;
    var country := Home(txs[|txs| - 1]);
    NoneIn(country, txs[..|txs| - 1]);
    InSnoc(country, txs);
    assert txs[|txs| - 1] in txs;
  }

  lemma LandsGrow(txs: seq<Trade>, acc: seq<Land>)
    requires txs != [] && LandsOnce(acc) && LandsCounted(txs[..|txs| - 1], acc)
    requires var k := Home(txs[|txs| - 1]); exists l <- acc :: l.country == k
    ensures var t := txs[|txs| - 1];
      var next := GrowLand(acc, Home(t), MonetaryTotal(t.ublXml)); LandsOnce(next) && LandsCounted(txs, next)
  {
    hide GrowLand, MonetaryTotal, Home, LandIs;
    var n := |txs| - 1;
    var k, v := Home(txs[n]), MonetaryTotal(txs[n].ublXml);
    var next := GrowLand(acc, k, v);
    assert txs == txs[..n] + [txs[n]];
    GrowAt(acc, k, v);
    forall l | l in next ensures LandIs(txs, l) {
      var i :| 0 <= i < |next| && next[i] == l;
      assert acc[i] in acc;
      LandGrows(txs, acc[i]);
    }
    forall t | t in txs ensures exists l <- next :: l.country == Home(t) {
      var l :| l in acc && l.country == Home(t);
      var i :| 0 <= i < |acc| && acc[i] == l;
      assert next[i] in next;
    }
  }

  lemma LandsStart(txs: seq<Trade>, acc: seq<Land>)
    requires txs != [] && LandsOnce(acc) && LandsCounted(txs[..|txs| - 1], acc)
    requires var k := Home(txs[|txs| - 1]); forall l <- acc :: l.country != k
    ensures var t := txs[|txs| - 1];
      var next := acc + [Land(Home(t), 1, MonetaryTotal(t.ublXml))]; LandsOnce(next) && LandsCounted(txs, next)
  {
    hide MonetaryTotal, Home, LandIs;
    var n := |txs| - 1;
    var k, v := Home(txs[n]), MonetaryTotal(txs[n].ublXml);
    var next := acc + [Land(k, 1, v)];
    assert txs == txs[..n] + [txs[n]];
    LandStarts(txs);
    forall l | l in acc ensures LandIs(txs, l) {
      LandGrows(txs, l);
    }
    forall t | t in txs ensures exists l <- next :: l.country == Home(t) {
      if t in txs[..n] {
        var l :| l in acc && l.country == Home(t);
        assert l in next;
      } else {
        assert Land(k, 1, v) in next;
      }
    }
  }

  lemma {:induction false} LandsCount(txs: seq<Trade>)
    ensures LandsOnce(Lands(txs)) && LandsCounted(txs, Lands(txs))
  {
    hide GrowLand, MonetaryTotal, Country, LandsOnce, LandsCounted;
    if txs == [] {
      NoLands();
    } else {
      var before, k := Lands(txs[..|txs| - 1]), Home(txs[|txs| - 1]);
      LandsCount(txs[..|txs| - 1]);
      if exists l <- before :: l.country == k {
        LandsGrow(txs, before);
      } else {
        LandsStart(txs, before);
      }
    }
  }

  lemma NoLands()
    ensures LandsOnce([]) && LandsCounted([], [])
  {
  }

  /** The row of a country: how many transactions, and what they are worth, together and on average. */
  predicate RowIs(txs: seq<Trade>, row: LandRow) {
    && row.count > 0 && row.count == Count(In(row.country), txs)
    && Rounded(Earned(In(row.country), txs), row.totalValue)
    && Rounded(Earned(In(row.country), txs) / row.count as real, row.avgValue)
  }

  lemma {:induction false} RowsAre(txs: seq<Trade>, acc: seq<Land>)
    requires forall l <- acc :: l.count > 0 && l.count == Count(In(l.country), txs) && l.total == Earned(In(l.country), txs)
    ensures forall row <- LandRows(acc) :: RowIs(txs, row)
    ensures forall l <- acc :: exists row <- LandRows(acc) :: row.country == l.country
  {
    hide Count, Earned, In, RoundCents;
    if acc != [] {
      var n := |acc| - 1;
      var l := acc[n];
      assert acc == acc[..n] + [l];
      RowsAre(txs, acc[..n]);
      RoundedIs(l.total);
      RoundedIs(l.total / l.count as real);
      var row := LandRow(l.country, l.count, RoundCents(l.total), RoundCents(l.total / l.count as real));
      assert LandRows(acc) == LandRows(acc[..n]) + [row];
      forall x | x in acc ensures exists row <- LandRows(acc) :: row.country == x.country {
        if x in acc[..n] {
          var y :| y in LandRows(acc[..n]) && y.country == x.country;
          assert y in LandRows(acc);
        } else {
          assert row in LandRows(acc);
        }
      }
    }
  }

  lemma {:induction false} Appears(p: Trade -> bool, txs: seq<Trade>, t: Trade)
    requires t in txs && p(t)
    ensures Count(p, txs) > 0
  {
    var n := |txs| - 1;
    if t != txs[n] {
      assert txs == txs[..n] + [txs[n]];
      Appears(p, txs[..n], t);
    }
  }

  /** Every country that occurs has its row. */
  lemma CountryRows(txs: seq<Trade>)
    ensures var rows := LandRows(LandEntries(Lands(txs)));
      && (forall row <- rows :: RowIs(txs, row)) && forall t <- txs :: exists row <- rows :: row.country == Home(t)
  {
    hide LandEntries, LandRows, Lands, Count, Earned, RowIs, Home;
    var acc := Lands(txs);
    LandsCount(txs);
    LandEntriesIn(acc);
    LandEntriesAll(acc);
    forall l | l in acc ensures l.count > 0 {
      var t :| t in txs && Home(t) == l.country;
      Appears(In(l.country), txs, t);
    }
    RowsAre(txs, LandEntries(acc));
    forall t | t in txs ensures exists row <- LandRows(LandEntries(acc)) :: row.country == Home(t) {
      var l :| l in acc && l.country == Home(t);
      assert l in LandEntries(acc);
    }
  }

  lemma LandEntriesAll(acc: seq<Land>)
    ensures forall l <- acc :: l in LandEntries(acc)
  {
    hide OwnOrder;
    OwnOrderLists(CountryKey(), acc);
    forall l | l in acc ensures l in LandEntries(acc) {
      assert l in multiset(acc);
    }
  }

  // ----- keys told by what they answer

  lemma {:induction false} CountSame(p: Trade -> bool, q: Trade -> bool, txs: seq<Trade>)
    requires forall t :: p(t) == q(t)
    ensures Count(p, txs) == Count(q, txs)
  {
    if txs != [] {
      CountSame(p, q, txs[..|txs| - 1]);
    }
  }

  lemma CountedSame(txs: seq<Trade>, f: Trade -> string, g: Trade -> string, entries: seq<Entry>)
    requires (forall t :: f(t) == g(t)) && Counted(txs, f, entries)
    ensures Counted(txs, g, entries)
  {
    hide Count;
    forall e | e in entries ensures e.value == Count((t: Trade) => g(t) == e.key, txs) as real {
      CountSame((t: Trade) => f(t) == e.key, (t: Trade) => g(t) == e.key, txs);
    }
    forall t | t in txs ensures exists e <- entries :: e.key == g(t) {
      var e :| e in entries && e.key == f(t);
      assert e.key == g(t);
    }
    forall e | e in entries ensures exists t <- txs :: g(t) == e.key {
      var t :| t in txs && f(t) == e.key;
      assert g(t) == e.key;
    }
  }

  lemma TopTenSame(txs: seq<Trade>, f: Trade -> string, g: Trade -> string, top: seq<Entry>)
    requires (forall t :: f(t) == g(t)) && TopTen(txs, f, top)
    ensures TopTen(txs, g, top)
  {
    hide Count, Descending;
    forall e | e in top ensures e.value == Count((t: Trade) => g(t) == e.key, txs) as real {
      CountSame((t: Trade) => f(t) == e.key, (t: Trade) => g(t) == e.key, txs);
    }
    forall t | t in txs && forall e <- top :: e.key != g(t)
      ensures |top| == 10 && forall e <- top :: Count((u: Trade) => g(u) == g(t), txs) as real <= e.value
    {
      CountSame((u: Trade) => f(u) == f(t), (u: Trade) => g(u) == g(t), txs);
    }
  }

  // ----- the whole report

  function ById(id: Option<string>): string {
    match id
    case None => "unknown"
    case Some(s) => s
  }

  function All(): Trade -> bool {
    (t: Trade) => true
  }

  /** The transactions dated from the first to the last millisecond of the month. */
  function Dated(p: Month): Trade -> bool {
    (t: Trade) => t.timestamp.Some? && Calendar.From(p.year, p.month) <= t.timestamp.value <= Calendar.To(p.year, p.month)
  }

  function Done(): Trade -> bool {
    (t: Trade) => t.status in {"delivered", "received"}
  }

  function Worthy(): Trade -> bool {
    (t: Trade) => MonetaryTotal(t.ublXml) > 0.0
  }

  /** Completed, and not before it began. */
  function Clocked(): Trade -> bool {
    (t: Trade) => t.timestamp.Some? && t.completedAt.Some? && t.timestamp.value <= t.completedAt.value
  }

  /** The seconds these took together. */
  function Taken(txs: seq<Trade>): real {
    if txs == [] then 0.0
    else
      var t := txs[|txs| - 1];
      Taken(txs[..|txs| - 1]) + if Clocked()(t) then (t.completedAt.value - t.timestamp.value) as real / 1000.0 else 0.0
  }

  lemma {:induction false} EarnedIs(txs: seq<Trade>)
    ensures SumBy(Worth(), txs) == Earned(All(), txs)
  {
    hide MonetaryTotal;
    if txs != [] {
      EarnedIs(txs[..|txs| - 1]);
    }
  }

  lemma {:induction false} TakenIs(txs: seq<Trade>)
    ensures SumBy(Seconds(), Filter(Timed(), txs)) == Taken(txs)
  {
    hide SumBy, Filter;
    if txs == [] {
      FilterNothing(Timed());
      assert SumBy(Seconds(), []) == 0.0 by {
        SumNothing();
      }
    } else {
      var n := |txs| - 1;
      TakenIs(txs[..n]);
      assert txs == txs[..n] + [txs[n]];
      FilterAppend(Timed(), txs[..n], txs[n]);
      if Timed()(txs[n]) {
        SumSnoc(Filter(Timed(), txs[..n]), txs[n]);
      } else {
        assert Filter(Timed(), txs[..n]) + [] == Filter(Timed(), txs[..n]);
      }
    }
  }

  lemma SumNothing()
    ensures SumBy(Seconds(), []) == 0.0
  {
  }

  lemma SumSnoc(txs: seq<Trade>, t: Trade)
    ensures SumBy(Seconds(), txs + [t]) == SumBy(Seconds(), txs) + Seconds()(t)
  {
    assert (txs + [t])[..|txs|] == txs;
  }

  predicate Averaged(sum: real, n: nat, r: real) {
    if n > 0 then Rounded(sum / n as real, r) else r == 0.0
  }

  predicate Times(txs: seq<Trade>, r: Option<real>) {
    var k := Count(Clocked(), txs);
    if k > 0 then r.Some? && Rounded(Taken(txs) / k as real, r.value) else r == None
  }

  /** The change in percent of what there was before; none if there was nothing. */
  predicate Change(current: real, previous: real, r: Option<real>) {
    if previous > 0.0 then r.Some? && Rounded(100.0 * (current - previous) / previous, r.value) else r == None
  }

  lemma ChangeIs(current: real, previous: real)
    ensures Change(current, previous, Delta(current, previous))
  {
    hide Percent, Rounded;
    ShareIs(current - previous, previous);
  }

  lemma AveragedIs(sum: real, n: nat)
    ensures Averaged(sum, n, RoundCents(Average(sum, n)))
  {
    RoundedIs(Average(sum, n));
  }

  lemma TimesAre(txs: seq<Trade>)
    ensures Times(txs, DeliverySeconds(txs))
  {
    hide Rounded, RoundCents, SumBy, Filter, Taken, Count;
    TakenIs(txs);
    CountIs(Timed(), txs);
    CountSame(Timed(), Clocked(), txs);
    var k := Count(Clocked(), txs);
    if k > 0 {
      RoundedIs(Taken(txs) / k as real);
    }
  }

  /** The figures of one period. */
  predicate Figures(txs: seq<Trade>, r: Report) {
    && r.total == |txs|
    && Counted(txs, (t: Trade) => t.direction, r.byDirection) && Counted(txs, (t: Trade) => t.status, r.byStatus)
    && Rounded(Earned(All(), txs), r.totalValue)
    && r.withValue == Count(Worthy(), txs) && Averaged(Earned(All(), txs), Count(Worthy(), txs), r.avgValue)
    && (forall row <- r.byCountry :: RowIs(txs, row)) && (forall t <- txs :: exists row <- r.byCountry :: row.country == Home(t))
    && TopTen(txs, (t: Trade) => ById(t.senderId), r.topSenders) && TopTen(txs, (t: Trade) => ById(t.receiverId), r.topReceivers)
    && r.deliveredCount == Count(Done(), txs) && Share(Count(Done(), txs) as real, |txs| as real, r.successRate)
    && Times(txs, r.avgDeliverySeconds)
  }

  /** The comparison with an earlier period. */
  predicate Compared(now: seq<Trade>, before: seq<Trade>, rate: real, c: Comparison) {
    && c.previousCount == |before| && Change(|now| as real, |before| as real, c.countDelta)
    && Share(Count(Done(), before) as real, |before| as real, c.previousRate) && Change(rate, c.previousRate, c.rateDelta)
    && Rounded(Earned(All(), before), c.previousValue)
    && Change(Earned(All(), now), Earned(All(), before), c.valueDelta)
  }

  lemma RateIs(txs: seq<Trade>)
    ensures Share(Count(Done(), txs) as real, |txs| as real, Rate(txs)) && |Filter(Successful(), txs)| == Count(Done(), txs)
  {
    hide Share, Percent, Filter, Count;
    CountIs(Successful(), txs);
    CountSame(Successful(), Done(), txs);
    ShareIs(Count(Done(), txs) as real, |txs| as real);
  }

  lemma WorthyIs(txs: seq<Trade>)
    ensures |Filter(Positive(), txs)| == Count(Worthy(), txs)
  {
    hide MonetaryTotal, Filter, Count;
    CountIs(Positive(), txs);
    CountSame(Positive(), Worthy(), txs);
  }

  lemma KeysCounted(txs: seq<Trade>)
    ensures Counted(txs, (t: Trade) => t.direction, Entries(GroupAndSum(txs, Direction(), One())))
    ensures Counted(txs, (t: Trade) => t.status, Entries(GroupAndSum(txs, Status(), One())))
  {
    hide Counted, Entries, GroupAndSum;
    ListedCounts(txs, Direction());
    ListedCounts(txs, Status());
    CountedSame(txs, Direction(), (t: Trade) => t.direction, Entries(GroupAndSum(txs, Direction(), One())));
    CountedSame(txs, Status(), (t: Trade) => t.status, Entries(GroupAndSum(txs, Status(), One())));
  }

  lemma TopsRanked(txs: seq<Trade>)
    ensures TopTen(txs, (t: Trade) => ById(t.senderId), TopN(GroupAndSum(txs, Sender(), One()), 10))
    ensures TopTen(txs, (t: Trade) => ById(t.receiverId), TopN(GroupAndSum(txs, Receiver(), One()), 10))
  {
    hide TopTen, TopN, GroupAndSum;
    TopTenIs(txs, Sender());
    TopTenIs(txs, Receiver());
    TopTenSame(txs, Sender(), (t: Trade) => ById(t.senderId), TopN(GroupAndSum(txs, Sender(), One()), 10));
    TopTenSame(txs, Receiver(), (t: Trade) => ById(t.receiverId), TopN(GroupAndSum(txs, Receiver(), One()), 10));
  }

  lemma FiguresOf(txs: seq<Trade>, before: Option<seq<Trade>>)
    ensures Figures(txs, Summarise(txs, before))
  {
    hide Counted, TopTen, Rounded, Averaged, Share, Times, RowIs, Count, Earned, Filter, Entries, GroupAndSum, TopN, LandRows, LandEntries,
      Lands, RoundCents, Average, Rate, DeliverySeconds, Compare, SumBy, Home;
    KeysCounted(txs);
    EarnedIs(txs);
    RoundedIs(Earned(All(), txs));
    WorthyIs(txs);
    AveragedIs(Earned(All(), txs), Count(Worthy(), txs));
    CountryRows(txs);
    TopsRanked(txs);
    RateIs(txs);
    TimesAre(txs);
  }

  lemma ComparedIs(now: seq<Trade>, before: seq<Trade>)
    ensures Compared(now, before, Rate(now), Compare(now, before))
  {
    hide Rounded, Share, Change, Count, Earned, Rate, Delta, SumBy, RoundCents;
    ChangeIs(|now| as real, |before| as real);
    RateIs(before);
    ChangeIs(Rate(now), Rate(before));
    EarnedIs(now);
    EarnedIs(before);
    RoundedIs(Earned(All(), before));
    ChangeIs(Earned(All(), now), Earned(All(), before));
  }

  /** Every figure of the report, for any log, period and period of comparison. */
  lemma ReportMeans(period: Month, last: Option<Month>, log: seq<Trade>)
    ensures var r, txs := ReportOn(period, last, log), Filter(Dated(period), log);
      && Figures(txs, r)
      && (last == None ==> r.comparison == None)
      && (last.Some? ==> r.comparison.Some? && Compared(txs, Filter(Dated(last.value), log), r.successRate, r.comparison.value))
  {
    hide Figures, Compared, Filter, Rate, Compare, Counted, Entries, GroupAndSum, TopN, LandRows, LandEntries, Lands, RoundCents, Average,
      DeliverySeconds, SumBy;
    FilterEqual(InMonth(period), Dated(period), log);
    var txs := Filter(Dated(period), log);
    FiguresOf(txs, Earlier(last, log));
    if last.Some? {
      FilterEqual(InMonth(last.value), Dated(last.value), log);
      ComparedIs(txs, Filter(Dated(last.value), log));
    }
  }
}
