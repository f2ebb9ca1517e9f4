/** Reporting periods on the UTC time line: `new Date(year, month, day, …)` in whole milliseconds (section 21.4 of ECMA-262). */
module Calendar {

  const MS_PER_DAY := 86400000

  /** Days from 1970-01-01 to the first of January. */
  function DayFromYear(y: int): int {
    365 * (y - 1970) + (y - 1969) / 4 - (y - 1901) / 100 + (y - 1601) / 400
  }

  predicate Leap(y: int) {
    y % 4 == 0 && (y % 100 != 0 || y % 400 == 0)
  }

  /** Days of the year before a month, months counted from 0. */
  function DaysBefore(month: int, leap: bool): int
    requires 0 <= month < 12
  {
    [0, 31, 59, 90, 120, 151, 181, 212, 243, 273, 304, 334][month] + if leap && month > 1 then 1 else 0
  }

  /** The first of the month that is `n` months after January of year 0. */
  function MonthStart(n: int): int {
    DayFromYear(n / 12) + DaysBefore(n % 12, Leap(n / 12))
  }

  /** MakeDay: months and days may overflow. */
  function MakeDay(year: int, month: int, date: int): int {
    MonthStart(12 * year + month) + date - 1
  }

  /** The constructor takes the years 0 to 99 for 1900 to 1999. */
  function FullYear(year: int): int {
    if 0 <= year <= 99 then 1900 + year else year
  }

  /** `parsePeriod`: first and last millisecond, months counted from 1. */
  function From(year: int, month: int): int {
    MakeDay(FullYear(year), month - 1, 1) * MS_PER_DAY
  }

  function To(year: int, month: int): int {
    MakeDay(FullYear(year), month, 0) * MS_PER_DAY + 23 * 3600000 + 59 * 60000 + 59 * 1000 + 999
  }

  predicate InPeriod(t: int, year: int, month: int) {
    From(year, month) <= t <= To(year, month)
  }

  /** The month after. */
  function NextYear(year: int, month: int): int {
    if month == 12 then year + 1 else year
  }

  function NextMonth(month: int): int {
    if month == 12 then 1 else month + 1
  }

  lemma PeriodsTile(year: int, month: int)
    requires 1 <= month <= 12 && year >= 0
    ensures To(year, month) + 1 == From(NextYear(year, month), NextMonth(month)) <==> !(year == 99 && month == 12)
  {
    hide To, From, MonthStart;
    EndOf(year, month);
    StartOf(NextYear(year, month), NextMonth(month));
    if month == 12 && year == 99 {
      Ordered(12 * 100, 12 * 1999 + 12);
    }
  }

  lemma EndOf(year: int, month: int)
    ensures To(year, month) + 1 == MonthStart(12 * FullYear(year) + month) * MS_PER_DAY
  {
    hide MonthStart;
  }

  lemma StartOf(year: int, month: int)
    ensures From(year, month) == MonthStart(12 * FullYear(year) + (month - 1)) * MS_PER_DAY
  {
    hide MonthStart;
  }

  // ----- lengths

  lemma YearStep(n: int)
    ensures (n + 1) / 12 == n / 12 + if (n + 1) % 12 == 0 then 1 else 0
  {
  }

  lemma FourthStep(y: int)
    ensures (y - 1968) / 4 == (y - 1969) / 4 + if y % 4 == 0 then 1 else 0
  {
    assert y - 1968 == (y - 1969) + 1;
    assert (y - 1968) % 4 == 0 <==> y % 4 == 0;
  }

  lemma CenturyStep(y: int)
    ensures (y - 1900) / 100 == (y - 1901) / 100 + if y % 100 == 0 then 1 else 0
  {
    assert y - 1900 == (y - 1901) + 1;
    assert (y - 1900) % 100 == 0 <==> y % 100 == 0;
  }

  lemma CycleStep(y: int)
    ensures (y - 1600) / 400 == (y - 1601) / 400 + if y % 400 == 0 then 1 else 0
  {
    assert y - 1600 == (y - 1601) + 1;
    assert (y - 1600) % 400 == 0 <==> y % 400 == 0;
  }

  lemma Multiples(y: int)
    ensures y % 400 == 0 ==> y % 100 == 0
    ensures y % 100 == 0 ==> y % 4 == 0
  {
  }

  lemma QuotientIs(a: int, q: int, r: int)
    requires a == 12 * q + r && 0 <= r < 12
    ensures a / 12 == q && a % 12 == r
  {
  }

  /** A year has 365 days, a leap year 366. */
  lemma YearLength(y: int)
    ensures DayFromYear(y + 1) == DayFromYear(y) + if Leap(y) then 366 else 365
  {
    FourthStep(y);
    CenturyStep(y);
    CycleStep(y);
    Multiples(y);
  }

  /** Every month has its own length, and February one day more in every fourth year but the centuries 400 does not divide. */
  lemma MonthLengths(y: int, month: int)
    requires 0 <= month < 12
    ensures MonthStart(12 * y + (month + 1)) - MonthStart(12 * y + month) ==
      if month == 3 || month == 5 || month == 8 || month == 10 then 30
      else if month != 1 then 31
      else if (y % 4 == 0 && y % 100 != 0) || y % 400 == 0 then 29 else 28
  {
    hide DayFromYear;
    QuotientIs(12 * y + month, y, month);
    Multiples(y);
    if month == 11 {
      YearLength(y);
      QuotientIs(12 * y + (month + 1), y + 1, 0);
    } else {
      QuotientIs(12 * y + (month + 1), y, month + 1);
    }
  }

  /** The time line starts on the first of January 1970. */
  lemma Epoch()
    ensures From(1970, 1) == 0
  {
  }

  /** A month has between 28 and 31 days. */
  lemma MonthLength(n: int)
    ensures 28 <= MonthStart(n + 1) - MonthStart(n) <= 31
  {
    hide DayFromYear, Leap;
    YearStep(n);
    var y, m := n / 12, n % 12;
    YearLength(y);
    assert n == 12 * y + m;
    if m == 11 {
      QuotientIs(n + 1, y + 1, 0);
    } else {
      QuotientIs(n + 1, y, m + 1);
    }
  }

  /** Later months start later. */
  lemma {:induction false} Ordered(a: int, b: int)
    requires a < b
    ensures MonthStart(a) + 28 * (b - a) <= MonthStart(b)
    decreases b - a
  {
    hide MonthStart;
    MonthLength(b - 1);
    if a < b - 1 {
      Ordered(a, b - 1);
    }
  }

  // ----- every instant is in one month

  /** The month a day falls in. */
  lemma {:induction false} MonthOf(day: int, n: int) returns (m: int)
    ensures MonthStart(m) <= day < MonthStart(m + 1)
    decreases if day < MonthStart(n) then MonthStart(n) - day else day - MonthStart(n)
  {
    hide MonthStart;
    MonthLength(n);
    MonthLength(n - 1);
    if day < MonthStart(n) {
      if MonthStart(n - 1) <= day {
        m := n - 1;
      } else {
        m := MonthOf(day, n - 1);
      }
    } else if day < MonthStart(n + 1) {
      m := n;
    } else {
      m := MonthOf(day, n + 1);
    }
  }

  lemma PeriodBounds(t: int, year: int, month: int)
    requires year >= 100
    ensures InPeriod(t, year, month)
      <==> MonthStart(12 * year + month - 1) * MS_PER_DAY <= t < MonthStart(12 * year + month) * MS_PER_DAY
  {
    hide MonthStart;
    assert 12 * year + (month - 1) == 12 * year + month - 1;
  }

  /** Every instant from the year 100 on lies in exactly one reporting period. */
  lemma ExactlyOnePeriod(t: int) returns (year: int, month: int)
    requires t >= From(100, 1)
    ensures year >= 100 && 1 <= month <= 12 && InPeriod(t, year, month)
    ensures forall y: int, m: int :: y >= 100 && 1 <= m <= 12 && InPeriod(t, y, m) ==> y == year && m == month
  {
    hide MonthStart, InPeriod;
    var day := t / MS_PER_DAY;
    var n := MonthOf(day, 1200);
    StartOf100();
    DayBounds(t, MonthStart(1200));
    NotEarlier(day, n, 1200);
    year, month := n / 12, n % 12 + 1;
    assert 12 * year + month - 1 == n;
    DayBounds(t, MonthStart(n));
    DayBounds(t, MonthStart(n + 1));
    PeriodBounds(t, year, month);
    forall y: int, m: int | y >= 100 && 1 <= m <= 12 && InPeriod(t, y, m) ensures y == year && m == month {
      PeriodBounds(t, y, m);
      var k := 12 * y + m - 1;
      DayBounds(t, MonthStart(k));
      DayBounds(t, MonthStart(k + 1));
      OneMonth(day, n, k);
      QuotientIs(k, y, m - 1);
    }
  }

  lemma StartOf100()
    ensures From(100, 1) == MonthStart(1200) * MS_PER_DAY
  {
    hide MonthStart;
  }

  lemma FirstMonths(a: int, b: int)
    requires a < b
    ensures MonthStart(a + 1) <= MonthStart(b)
  {
    hide MonthStart;
    if a + 1 < b {
      Ordered(a + 1, b);
    }
  }

  lemma NotEarlier(day: int, n: int, k: int)
    requires MonthStart(k) <= day < MonthStart(n + 1)
    ensures n >= k
  {
    hide MonthStart;
    if n < k {
      FirstMonths(n, k);
    }
  }

  lemma DayBounds(t: int, d: int)
    ensures d * MS_PER_DAY <= t <==> d <= t / MS_PER_DAY
  {
    var q, r := t / MS_PER_DAY, t % MS_PER_DAY;
    assert t == q * MS_PER_DAY + r;
  }

  /** A day is in one month only. */
  lemma OneMonth(day: int, a: int, b: int)
    requires MonthStart(a) <= day < MonthStart(a + 1) && MonthStart(b) <= day < MonthStart(b + 1)
    ensures a == b
  {
    hide MonthStart;
    if a < b {
      FirstMonths(a, b);
    } else if b < a {
      FirstMonths(b, a);
    }
  }
}
