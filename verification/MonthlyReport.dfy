/** The monthly report, its sums, and what it becomes on the newest 1000 transactions. */
module MonthlyReport {
  import opened Options
  import opened Strings
  import opened Lists
  import opened Calendar
  import opened ObjectOrder
  import opened Reports
  import opened ReportTotals
  import opened Stores

  // ----- keys

  function Known(id: Option<string>): string {
    match id
    case None => "unknown"
    case Some(s) => s
  }

  predicate Upper(c: char) {
    !('a' <= c <= 'z')
  }

  function Country(id: Option<string>): string {
    if id.None? || id.value == "" then "UNKNOWN"
    else
      var s := id.value;
      var value := Before(After(s, ':'), ':');
      if ':' in s && |value| >= 2 then value[..2]
      else if |s| >= 2 && Upper(s[0]) && Upper(s[1]) then s[..2]
      else "UNKNOWN"
  }

  function CountryOf(t: Trade): string {
    if t.direction == "receive" then Country(t.receiverId) else Country(t.senderId)
  }

  // ----- countries

  datatype Land = Land(country: string, count: int, total: real)

  predicate Listed(acc: seq<Land>, country: string) {
    exists l <- acc :: l.country == country
  }

  /** The country's entry, where it is. */
  function GrowLand(acc: seq<Land>, country: string, v: real): seq<Land> {
    if acc == [] then []
    else
      var n := |acc| - 1;
      if acc[n].country == country then acc[..n] + [Land(country, acc[n].count + 1, acc[n].total + v)]
      else GrowLand(acc[..n], country, v) + [acc[n]]
  }

  function AddLand(acc: seq<Land>, country: string, v: real): seq<Land> {
    if Listed(acc, country) then GrowLand(acc, country, v) else acc + [Land(country, 1, v)]
  }

  /** What the transaction's document is worth. */
  function Value(t: Trade): real {
    MonetaryTotal(t.ublXml)
  }

  function Lands(items: seq<Trade>): seq<Land> {
    if items == [] then [] else AddLand(Lands(items[..|items| - 1]), CountryOf(items[|items| - 1]), Value(items[|items| - 1]))
  }

  function LandCounts(acc: seq<Land>): int {
    if acc == [] then 0 else LandCounts(acc[..|acc| - 1]) + acc[|acc| - 1].count
  }

  function LandTotals(acc: seq<Land>): real {
    if acc == [] then 0.0 else LandTotals(acc[..|acc| - 1]) + acc[|acc| - 1].total
  }

  lemma {:induction false} GrowLandSums(acc: seq<Land>, country: string, v: real)
    requires Listed(acc, country)
    ensures LandCounts(GrowLand(acc, country, v)) == LandCounts(acc) + 1
    ensures LandTotals(GrowLand(acc, country, v)) == LandTotals(acc) + v
  {
    var n := |acc| - 1;
    assert acc == acc[..n] + [acc[n]];
    if acc[n].country == country {
      assert (acc[..n] + [Land(country, acc[n].count + 1, acc[n].total + v)])[..n] == acc[..n];
    } else {
      GrowLandSums(acc[..n], country, v);
      var next := GrowLand(acc[..n], country, v) + [acc[n]];
      assert next[..|next| - 1] == GrowLand(acc[..n], country, v);
    }
  }

  lemma AddLandSums(acc: seq<Land>, country: string, v: real)
    ensures LandCounts(AddLand(acc, country, v)) == LandCounts(acc) + 1
    ensures LandTotals(AddLand(acc, country, v)) == LandTotals(acc) + v
  {
    if Listed(acc, country) {
      GrowLandSums(acc, country, v);
    } else {
      assert (acc + [Land(country, 1, v)])[..|acc|] == acc;
    }
  }

  function Worth(): Trade -> real {
    (t: Trade) => Value(t)
  }

  /** The country counts sum to the transactions, and their unrounded values to the total value. */
  lemma {:induction false} LandsConserve(items: seq<Trade>)
    ensures LandCounts(Lands(items)) == |items| && LandTotals(Lands(items)) == SumBy(Worth(), items)
  {
    if items != [] {
      var n := |items| - 1;
      LandsConserve(items[..n]);
      AddLandSums(Lands(items[..n]), CountryOf(items[n]), Value(items[n]));
    }
  }

  function CountryKey(): Land -> string {
    (l: Land) => l.country
  }

  function CountriesOf(acc: seq<Land>): seq<string> {
    Map(CountryKey(), acc)
  }

  /** `Object.entries` of the country table. */
  function LandEntries(acc: seq<Land>): seq<Land> {
    OwnOrder(CountryKey(), acc)
  }

  lemma {:induction false} GrowLandOrder(acc: seq<Land>, country: string, v: real)
    ensures CountriesOf(GrowLand(acc, country, v)) == CountriesOf(acc)
  {
    if acc != [] {
      var n := |acc| - 1;
      GrowLandOrder(acc[..n], country, v);
      assert CountriesOf(acc) == CountriesOf(acc[..n]) + [acc[n].country];
    }
  }

  lemma AddLandOrder(acc: seq<Land>, country: string, v: real)
    ensures CountriesOf(AddLand(acc, country, v)) == if country in CountriesOf(acc) then CountriesOf(acc) else CountriesOf(acc) + [country]
  {
    hide GrowLand;
    GrowLandOrder(acc, country, v);
    assert (acc + [Land(country, 1, v)])[..|acc|] == acc;
    if Listed(acc, country) {
      var i :| 0 <= i < |acc| && acc[i].country == country;
      assert CountriesOf(acc)[i] == country;
    }
  }

  lemma {:induction false} LandKeys(items: seq<Trade>)
    ensures CountriesOf(Lands(items)) == FirstSeen(items, CountryOf)
  {
    if items != [] {
      hide AddLand, CountriesOf, CountryOf;
      var n := |items| - 1;
      LandKeys(items[..n]);
      AddLandOrder(Lands(items[..n]), CountryOf(items[n]), Value(items[n]));
    } else {
      assert CountriesOf([]) == [];
    }
  }

  /**
   * The countries are listed each once: two-digit prefixes that are array indices first, rising, and then the others in the
   * order in which they first appear.
   */
  lemma LandOrder(items: seq<Trade>)
    ensures CountriesOf(LandEntries(Lands(items))) == OwnOrder(Same(), FirstSeen(items, CountryOf))
    ensures ListedKeys(CountriesOf(LandEntries(Lands(items))), FirstSeen(items, CountryOf))
  {
    hide Lands, FirstSeen, OwnOrder;
    LandKeys(items);
    OwnOrderKeys(CountryKey(), Lands(items));
    SeenListing(items, CountryOf);
  }

  lemma LandEntriesSame(acc: seq<Land>)
    ensures |LandEntries(acc)| == |acc| && LandCounts(LandEntries(acc)) == LandCounts(acc)
    ensures LandTotals(LandEntries(acc)) == LandTotals(acc) && RoundedTotals(LandEntries(acc)) == RoundedTotals(acc)
  {
    hide OwnOrder, SumBy, RoundCents;
    OwnOrderLists(CountryKey(), acc);
    LandSums(acc);
    LandSums(LandEntries(acc));
    Reordered(CountIn(), (l: Land) => [l], LandEntries(acc), acc);
    Reordered(TotalIn(), (l: Land) => [l], LandEntries(acc), acc);
    Reordered(RoundedIn(), (l: Land) => [l], LandEntries(acc), acc);
  }

  function CountIn(): Land -> real {
    (l: Land) => l.count as real
  }

  function TotalIn(): Land -> real {
    (l: Land) => l.total
  }

  function RoundedIn(): Land -> real {
    (l: Land) => RoundCents(l.total)
  }

  lemma {:induction false} LandSums(acc: seq<Land>)
    ensures LandCounts(acc) as real == SumBy(CountIn(), acc) && LandTotals(acc) == SumBy(TotalIn(), acc)
    ensures RoundedTotals(acc) == SumBy(RoundedIn(), acc)
  {
    hide RoundCents;
    if acc != [] {
      LandSums(acc[..|acc| - 1]);
    }
  }

  /** The loop over the transactions. */
  method CollectLands(items: seq<Trade>) returns (acc: seq<Land>)
    ensures acc == Lands(items)
  {
    acc := [];
    for i := 0 to |items|
      invariant acc == Lands(items[..i])
    {
      assert items[..i + 1][..i] == items[..i];
      acc := AddLand(acc, CountryOf(items[i]), Value(items[i]));
    }
    assert items[..|items|] == items;
  }

  // ----- rounding

  /** `Math.round`. */
  function Round(x: real): real {
    (x + 0.5).Floor as real
  }

  /** `Math.round(x * 100) / 100`. */
  function RoundCents(x: real): real {
    Round(x * 100.0) / 100.0
  }

  function RoundedTotals(acc: seq<Land>): real {
    if acc == [] then 0.0 else RoundedTotals(acc[..|acc| - 1]) + RoundCents(acc[|acc| - 1].total)
  }

  lemma CentsClose(x: real)
    ensures -0.005 < RoundCents(x) - x <= 0.005
  {
  }

  lemma {:induction false} RoundedClose(acc: seq<Land>)
    ensures -0.005 * |acc| as real <= RoundedTotals(acc) - LandTotals(acc) <= 0.005 * |acc| as real
  {
    if acc != [] {
      RoundedClose(acc[..|acc| - 1]);
      CentsClose(acc[|acc| - 1].total);
    }
  }

  /** The rounded values of k countries differ from the rounded total by at most (k + 1) / 2 cents. */
  lemma RoundedCountries(items: seq<Trade>)
    ensures var k, d := |Lands(items)|, RoundedTotals(Lands(items)) - RoundCents(SumBy(Worth(), items));
      -0.005 * (k + 1) as real <= d <= 0.005 * (k + 1) as real
  {
    LandsConserve(items);
    RoundedClose(Lands(items));
    CentsClose(SumBy(Worth(), items));
  }

  // ----- the report

  datatype Month = Month(year: int, month: int)

  function InMonth(p: Month): Trade -> bool {
    (t: Trade) => t.timestamp.Some? && InPeriod(t.timestamp.value, p.year, p.month)
  }

  function Direction(): Trade -> string {
    (t: Trade) => t.direction
  }

  function Status(): Trade -> string {
    (t: Trade) => t.status
  }

  function Sender(): Trade -> string {
    (t: Trade) => Known(t.senderId)
  }

  function Receiver(): Trade -> string {
    (t: Trade) => Known(t.receiverId)
  }

  function Positive(): Trade -> bool {
    (t: Trade) => Value(t) > 0.0
  }

  function Successful(): Trade -> bool {
    (t: Trade) => t.status == "delivered" || t.status == "received"
  }

  /** Both times are known and the second is not the earlier one. */
  function Timed(): Trade -> bool {
    (t: Trade) => t.timestamp.Some? && t.completedAt.Some? && t.completedAt.value >= t.timestamp.value
  }

  function Seconds(): Trade -> real {
    (t: Trade) => if t.timestamp.Some? && t.completedAt.Some? then (t.completedAt.value - t.timestamp.value) as real / 1000.0 else 0.0
  }

  /** `Math.round(a / b * 10000) / 100`, 0 when there is nothing to divide by. */
  function Percent(a: real, b: real): real {
    if b > 0.0 then Round(a / b * 10000.0) / 100.0 else 0.0
  }

  function Average(sum: real, n: nat): real {
    if n > 0 then sum / n as real else 0.0
  }

  datatype LandRow = LandRow(country: string, count: int, totalValue: real, avgValue: real)

  function LandRows(acc: seq<Land>): seq<LandRow> {
    if acc == [] then []
    else
      var l := acc[|acc| - 1];
      LandRows(acc[..|acc| - 1]) + [LandRow(l.country, l.count, RoundCents(l.total), if l.count > 0 then RoundCents(l.total / l.count as real) else 0.0)]
  }

  function Delta(current: real, previous: real): Option<real> {
    if previous > 0.0 then Some(Percent(current - previous, previous)) else None
  }

  datatype Comparison = Comparison(
    previousCount: nat, countDelta: Option<real>, previousRate: real, rateDelta: Option<real>, previousValue: real, valueDelta: Option<real>)

  datatype Report = Report(
    total: nat, byDirection: seq<Entry>, byStatus: seq<Entry>, totalValue: real, avgValue: real, withValue: nat,
    byCountry: seq<LandRow>, topSenders: seq<Entry>, topReceivers: seq<Entry>,
    successRate: real, avgDeliverySeconds: Option<real>, deliveredCount: nat, comparison: Option<Comparison>)

  function Rate(txs: seq<Trade>): real {
    Percent(|Filter(Successful(), txs)| as real, |txs| as real)
  }

  function DeliverySeconds(txs: seq<Trade>): Option<real> {
    var timed := Filter(Timed(), txs);
    if timed != [] then Some(RoundCents(SumBy(Seconds(), timed) / |timed| as real)) else None
  }

  function Compare(now: seq<Trade>, before: seq<Trade>): Comparison {
    var value, lastValue := SumBy(Worth(), now), SumBy(Worth(), before);
    Comparison(|before|, Delta(|now| as real, |before| as real), Rate(before), Delta(Rate(now), Rate(before)),
      RoundCents(lastValue), Delta(value, lastValue))
  }

  /** The report on the transactions of the period and, if asked for, of an earlier one. */
  function Summarise(txs: seq<Trade>, before: Option<seq<Trade>>): Report {
    var value, valued := SumBy(Worth(), txs), |Filter(Positive(), txs)|;
    Report(
      |txs|, Entries(GroupAndSum(txs, Direction(), One())), Entries(GroupAndSum(txs, Status(), One())),
      RoundCents(value), RoundCents(Average(value, valued)), valued, LandRows(LandEntries(Lands(txs))),
      TopN(GroupAndSum(txs, Sender(), One()), 10), TopN(GroupAndSum(txs, Receiver(), One()), 10),
      Rate(txs), DeliverySeconds(txs), |Filter(Successful(), txs)|,
      match before { case None => None case Some(b) => Some(Compare(txs, b)) })
  }

  function Earlier(last: Option<Month>, log: seq<Trade>): Option<seq<Trade>> {
    match last
    case None => None
    case Some(p) => Some(Filter(InMonth(p), log))
  }

  function ReportOn(period: Month, last: Option<Month>, log: seq<Trade>): Report {
    Summarise(Filter(InMonth(period), log), Earlier(last, log))
  }

  // ----- documents worth nothing

  predicate Worthless(items: seq<Trade>) {
    forall t <- items :: Value(t) == 0.0
  }

  lemma {:induction false} GrowNothing(acc: seq<Land>, country: string)
    requires forall l <- acc :: l.total == 0.0
    ensures forall l <- GrowLand(acc, country, 0.0) :: l.total == 0.0
  {
    if acc != [] {
      GrowNothing(acc[..|acc| - 1], country);
    }
  }

  lemma {:induction false} NothingEarned(items: seq<Trade>)
    requires Worthless(items)
    ensures SumBy(Worth(), items) == 0.0 && |Filter(Positive(), items)| == 0 && forall l <- Lands(items) :: l.total == 0.0
  {
    hide Value, CountryOf;
    if items != [] {
      var n := |items| - 1;
      NothingEarned(items[..n]);
      assert Value(items[n]) == 0.0;
      GrowNothing(Lands(items[..n]), CountryOf(items[n]));
    }
  }

  lemma LandEntriesIn(acc: seq<Land>)
    ensures forall l <- LandEntries(acc) :: l in acc
  {
    hide OwnOrder;
    OwnOrderLists(CountryKey(), acc);
    forall l | l in LandEntries(acc) ensures l in acc {
      assert l in multiset(LandEntries(acc));
    }
  }

  lemma {:induction false} WorthlessRows(acc: seq<Land>)
    requires forall l <- acc :: l.total == 0.0
    ensures forall r <- LandRows(acc) :: r.totalValue == 0.0 && r.avgValue == 0.0
  {
    if acc != [] {
      WorthlessRows(acc[..|acc| - 1]);
      assert acc[|acc| - 1] in acc;
    }
  }

  /** A report on documents worth nothing shows no value, in total, on average or for any country. */
  lemma WorthlessReport(period: Month, last: Option<Month>, log: seq<Trade>)
    requires Worthless(log)
    ensures var r := ReportOn(period, last, log);
      r.totalValue == r.avgValue == 0.0 && r.withValue == 0 && forall row <- r.byCountry :: row.totalValue == row.avgValue == 0.0
  {
    hide Value, InMonth, GroupAndSum, TopN, Entries, Lands, SumBy, LandEntries, LandRows, Filter;
    var txs := Filter(InMonth(period), log);
    assert Worthless(txs);
    NothingEarned(txs);
    LandEntriesIn(Lands(txs));
    WorthlessRows(LandEntries(Lands(txs)));
  }

  /** No direction, status or participant is called like an inherited property. */
  predicate OrdinaryNames(txs: seq<Trade>) {
    Ordinary(txs, Direction()) && Ordinary(txs, Status()) && Ordinary(txs, Sender()) && Ordinary(txs, Receiver())
  }

  /** Countries never are: they have two characters, or are UNKNOWN. */
  lemma CountryOrdinary(t: Trade)
    ensures CountryOf(t) !in INHERITED
  {
    hide Country;
    CountryShape(if t.direction == "receive" then t.receiverId else t.senderId);
    assert forall s <- INHERITED :: |s| > 2 && s[0] != 'U';
  }

  lemma CountryShape(id: Option<string>)
    ensures |Country(id)| == 2 || Country(id) == "UNKNOWN"
  {
  }

  method Counts(txs: seq<Trade>, key: Trade -> string) returns (r: seq<Entry>)
    requires Ordinary(txs, key)
    ensures r == GroupAndSum(txs, key, One())
  {
    hide GroupAndSum, JsGroup, Ordinary, Slots;
    var slots := GroupItems(txs, key, One());
    OrdinaryGroup(txs, key, One());
    NumbersBack(GroupAndSum(txs, key, One()));
    r := Numbers(slots);
  }

  method GenerateMonthlyReport(period: Month, last: Option<Month>, log: seq<Trade>) returns (r: Report)
    requires OrdinaryNames(Filter(InMonth(period), log))
    ensures r == ReportOn(period, last, log)
  {
    hide Filter, GroupAndSum, TopN, LandRows, LandEntries, Entries, SumBy, RoundCents, Average, Rate, DeliverySeconds, Compare, Ordinary;
    var txs := Filter(InMonth(period), log);
    var byDirection := Counts(txs, Direction());
    var byStatus := Counts(txs, Status());
    var value := SumBy(Worth(), txs);
    var valued := |Filter(Positive(), txs)|;
    var lands := CollectLands(txs);
    var senders := Counts(txs, Sender());
    var receivers := Counts(txs, Receiver());
    var comparison: Option<Comparison> := None;
    if last.Some? {
      comparison := Some(Compare(txs, Filter(InMonth(last.value), log)));
    }
    r := Report(|txs|, Entries(byDirection), Entries(byStatus), RoundCents(value), RoundCents(Average(value, valued)), valued,
      LandRows(LandEntries(lands)),
      TopN(senders, 10), TopN(receivers, 10), Rate(txs), DeliverySeconds(txs), |Filter(Successful(), txs)|, comparison);
  }

  /** In every report on ordinary names the direction and status counts sum to the total, and so do the country counts. */
  lemma ReportConserves(period: Month, last: Option<Month>, log: seq<Trade>)
    requires OrdinaryNames(Filter(InMonth(period), log))
    ensures var r := ReportOn(period, last, log);
      TotalOf(r.byDirection) == r.total as real && TotalOf(r.byStatus) == r.total as real && RowCounts(r.byCountry) == r.total
  {
    hide Filter, GroupAndSum, TopN, TotalOf, Lands, LandRows, LandEntries, Entries;
    EntriesSame(GroupAndSum(Filter(InMonth(period), log), Direction(), One()));
    EntriesSame(GroupAndSum(Filter(InMonth(period), log), Status(), One()));
    LandEntriesSame(Lands(Filter(InMonth(period), log)));
    var txs := Filter(InMonth(period), log);
    GroupTotal(txs, Direction(), One());
    GroupTotal(txs, Status(), One());
    SumOnes(txs);
    LandsConserve(txs);
    RowsKeepCounts(LandEntries(Lands(txs)));
  }

  function RowCounts(rows: seq<LandRow>): int {
    if rows == [] then 0 else RowCounts(rows[..|rows| - 1]) + rows[|rows| - 1].count
  }

  function RowValues(rows: seq<LandRow>): real {
    if rows == [] then 0.0 else RowValues(rows[..|rows| - 1]) + rows[|rows| - 1].totalValue
  }

  lemma {:induction false} RowsKeepCounts(acc: seq<Land>)
    ensures RowCounts(LandRows(acc)) == LandCounts(acc) && RowValues(LandRows(acc)) == RoundedTotals(acc) && |LandRows(acc)| == |acc|
  {
    if acc != [] {
      RowsKeepCounts(acc[..|acc| - 1]);
      var rows := LandRows(acc);
      assert rows[..|rows| - 1] == LandRows(acc[..|acc| - 1]);
    }
  }

  /** The values printed per country add up to the printed total within (k + 1) / 2 cents for k countries. */
  lemma PrintedValues(period: Month, last: Option<Month>, log: seq<Trade>)
    ensures var r := ReportOn(period, last, log);
      -0.005 * (|r.byCountry| + 1) as real <= RowValues(r.byCountry) - r.totalValue <= 0.005 * (|r.byCountry| + 1) as real
  {
    hide Filter, GroupAndSum, TopN, Lands, LandRows, LandEntries, Entries, RoundCents;
    LandEntriesSame(Lands(Filter(InMonth(period), log)));
    var txs := Filter(InMonth(period), log);
    RoundedCountries(txs);
    RowsKeepCounts(LandEntries(Lands(txs)));
  }

  // ----- months partition the log

  function MonthAt(n: int): Month {
    Month(n / 12, n % 12 + 1)
  }

  function Within(lo: int, hi: int): Trade -> bool {
    (t: Trade) => t.timestamp.Some? && lo <= t.timestamp.value < hi
  }

  function Totals(log: seq<Trade>, n: int, k: nat): int {
    if k == 0 then 0 else Totals(log, n, k - 1) + |Filter(InMonth(MonthAt(n + k - 1)), log)|
  }

  lemma {:induction false} SplitCount(log: seq<Trade>, lo: int, mid: int, hi: int)
    requires lo <= mid <= hi
    ensures |Filter(Within(lo, hi), log)| == |Filter(Within(lo, mid), log)| + |Filter(Within(mid, hi), log)|
  {
    if log != [] {
      SplitCount(log[..|log| - 1], lo, mid, hi);
    }
  }

  function Ms(n: int): int {
    MonthStart(n) * MS_PER_DAY
  }

  lemma MonthIsWithin(log: seq<Trade>, n: int)
    requires n >= 1200
    ensures Filter(InMonth(MonthAt(n)), log) == Filter(Within(Ms(n), Ms(n + 1)), log)
  {
    hide MonthStart, InPeriod, Filter;
    var p := MonthAt(n);
    forall t: Trade ensures InMonth(p)(t) == Within(Ms(n), Ms(n + 1))(t) {
      if t.timestamp.Some? {
        PeriodBounds(t.timestamp.value, p.year, p.month);
      }
    }
    FilterEqual(InMonth(p), Within(Ms(n), Ms(n + 1)), log);
  }

  /** The reports of consecutive months count every transaction dated in them once. */
  lemma {:induction false} MonthsPartition(log: seq<Trade>, n: int, k: nat)
    requires n >= 1200
    ensures Totals(log, n, k) == |Filter(Within(Ms(n), Ms(n + k)), log)|
  {
    hide MonthStart, Filter;
    if k == 0 {
      NoneWithin(log, Ms(n));
    } else {
      MonthsPartition(log, n, k - 1);
      MonthIsWithin(log, n + k - 1);
      Later(n, k - 1);
      MonthLength(n + k - 1);
      SplitCount(log, Ms(n), Ms(n + k - 1), Ms(n + k));
    }
  }

  lemma Later(n: int, k: nat)
    ensures Ms(n) <= Ms(n + k)
  {
    hide MonthStart;
    if k > 0 {
      Ordered(n, n + k);
    }
  }

  lemma {:induction false} NoneWithin(log: seq<Trade>, t: int)
    ensures Filter(Within(t, t), log) == []
  {
    if log != [] {
      NoneWithin(log[..|log| - 1], t);
    }
  }

  // ----- the newest 1000

  const LIMIT := 1000

  /** Newest first; undated transactions come last. */
  predicate LogOrder(log: seq<Trade>) {
    forall i, j :: 0 <= i < j < |log| && log[j].timestamp.Some? ==>
      log[i].timestamp.Some? && log[i].timestamp.value >= log[j].timestamp.value
  }

  function Newest(log: seq<Trade>): seq<Trade> {
    if |log| > LIMIT then log[..LIMIT] else log
  }

  function Since(t0: int): Trade -> bool {
    (t: Trade) => t.timestamp.Some? && t.timestamp.value >= t0
  }

  /** In a log in order the transactions since an instant come first. */
  lemma {:induction false} SinceFirst(log: seq<Trade>, t0: int)
    requires LogOrder(log)
    ensures forall i :: 0 <= i < |log| ==> (Since(t0)(log[i]) <==> i < |Filter(Since(t0), log)|)
  {
    if log != [] {
      hide Filter;
      var n := |log| - 1;
      SinceFirst(log[..n], t0);
      assert log == log[..n] + [log[n]];
      FilterAppend(Since(t0), log[..n], log[n]);
      forall i | 0 <= i < n ensures Since(t0)(log[i]) <==> i < |Filter(Since(t0), log[..n])| {
        assert log[..n][i] == log[i];
      }
      if Since(t0)(log[n]) {
        AllSince(log, t0);
        assert n > 0 ==> Since(t0)(log[n - 1]);
      }
    }
  }

  lemma AllSince(log: seq<Trade>, t0: int)
    requires LogOrder(log) && log != [] && Since(t0)(log[|log| - 1])
    ensures forall i :: 0 <= i < |log| ==> Since(t0)(log[i])
  {
  }

  lemma FilterNone(p: Trade -> bool, log: seq<Trade>)
    ensures Filter(p, log) == [] <==> forall t <- log :: !p(t)
  {
    if Filter(p, log) != [] {
      assert Filter(p, log)[0] in Filter(p, log);
    }
  }

  /**
   * The newest 1000 contain every transaction of a period exactly when the period has none at all or at most 1000 are
   * dated at or after its start.
   */
  lemma TruncationExact(log: seq<Trade>, p: Month)
    requires LogOrder(log)
    ensures Filter(InMonth(p), Newest(log)) == Filter(InMonth(p), log)
      <==> Filter(InMonth(p), log) == [] || |Filter(Since(From(p.year, p.month)), log)| <= 1000
  {
    hide Filter, From, To;
    var t0 := From(p.year, p.month);
    SinceFirst(log, t0);
    if |log| > LIMIT {
      var head, tail := log[..LIMIT], log[LIMIT..];
      assert log == head + tail;
      FilterConcat(InMonth(p), head, tail);
      FilterNone(InMonth(p), tail);
      FilterNone(InMonth(p), log);
      var n := |Filter(Since(t0), log)|;
      TailEmpty(log, p, n);
    }
  }

  /** Whether the part cut off has transactions of the period. */
  lemma TailEmpty(log: seq<Trade>, p: Month, n: nat)
    requires LogOrder(log) && |log| > LIMIT
    requires n <= |log| && forall i :: 0 <= i < |log| ==> (Since(From(p.year, p.month))(log[i]) <==> i < n)
    ensures (forall t <- log[LIMIT..] :: !InMonth(p)(t)) <==> (forall t <- log :: !InMonth(p)(t)) || n <= LIMIT
  {
    hide From, To;
    var tail := log[LIMIT..];
    assert forall t <- tail :: t in log;
    if n <= LIMIT {
      forall t | t in tail ensures !InMonth(p)(t) {
        var i :| 0 <= i < |tail| && tail[i] == t;
        assert log[LIMIT + i] == t;
      }
    } else if exists t <- log :: InMonth(p)(t) {
      var t :| t in log && InMonth(p)(t);
      var i :| 0 <= i < |log| && log[i] == t;
      assert i <= n - 1;
      assert InMonth(p)(log[n - 1]);
      assert tail[n - 1 - LIMIT] == log[n - 1];
    }
  }

  /** The newest 1000 have all that the log has of a period. */
  predicate Covered(log: seq<Trade>, p: Month) {
    Filter(InMonth(p), log) == [] || |Filter(Since(From(p.year, p.month)), log)| <= 1000
  }

  lemma NewestPart(log: seq<Trade>, p: Month)
    ensures |Filter(InMonth(p), Newest(log))| == |Filter(InMonth(p), log)| <==> Filter(InMonth(p), Newest(log)) == Filter(InMonth(p), log)
  {
    hide Filter, InMonth;
    if |log| > LIMIT {
      assert log == log[..LIMIT] + log[LIMIT..];
      FilterConcat(InMonth(p), log[..LIMIT], log[LIMIT..]);
    }
  }

  /**
   * The whole report on the newest 1000, rankings and comparison included, is the one on the whole log if and only if they
   * cover its period and, if asked for, the earlier one.
   */
  lemma ReportComplete(period: Month, last: Option<Month>, log: seq<Trade>)
    requires LogOrder(log)
    ensures ReportOn(period, last, Newest(log)) == ReportOn(period, last, log)
      <==> Covered(log, period) && (last.Some? ==> Covered(log, last.value))
  {
    hide Filter, From, GroupAndSum, TopN, LandRows, LandEntries, Entries, SumBy, RoundCents, Average, Rate, DeliverySeconds, Newest, InMonth, Since, Percent;
    TruncationExact(log, period);
    NewestPart(log, period);
    if last.Some? {
      TruncationExact(log, last.value);
      NewestPart(log, last.value);
    }
  }

  // ----- what the store hands over

  function Trades(rows: seq<Row>, trade: Row -> Trade): seq<Trade> {
    Map(trade, rows)
  }

  /** Everything stored, or the newest so many. */
  function Everything(limit: nat): Filters {
    Filters(None, None, None, None, None, None, limit)
  }

  /** `getTransactions`: the listing with limit 1000 is the newest part of the full one, which is in order. */
  lemma NewestIsListing(scan: seq<Row>, trade: Row -> Trade)
    requires forall r :: trade(r).timestamp == Some(r.timestamp)
    ensures var log := Trades(Listing(scan, Everything(0)), trade);
      LogOrder(log) && Trades(Listing(scan, Everything(1000)), trade) == Newest(log)
  {
    hide Sort, Filter;
    var rows := Sort(Filter(Matching(Everything(0)), scan));
    FilterEqual(Matching(Everything(0)), Matching(Everything(1000)), scan);
    SortSorted(Filter(Matching(Everything(0)), scan));
    MapFront(trade, rows, LIMIT);
  }

  lemma MapFront(trade: Row -> Trade, rows: seq<Row>, n: nat)
    ensures n <= |rows| ==> Map(trade, rows[..n]) == Map(trade, rows)[..n]
  {
  }

  /** So the report the program makes is the report on all it has stored, exactly when the newest 1000 cover it. */
  lemma StoredReport(scan: seq<Row>, trade: Row -> Trade, period: Month, last: Option<Month>)
    requires forall r :: trade(r).timestamp == Some(r.timestamp)
    ensures var log, newest := Trades(Listing(scan, Everything(0)), trade), Trades(Listing(scan, Everything(1000)), trade);
      ReportOn(period, last, newest) == ReportOn(period, last, log) <==> Covered(log, period) && (last.Some? ==> Covered(log, last.value))
  {
    hide *;
    NewestIsListing(scan, trade);
    ReportComplete(period, last, Trades(Listing(scan, Everything(0)), trade));
  }
}
