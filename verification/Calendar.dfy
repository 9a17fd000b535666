/** Instants, whole-second differences and "one year later", as date-fns computes them in UTC.
    An instant is a number of milliseconds since 1970-01-01T00:00:00Z. */
module Calendar {
  const MS_PER_SECOND: int := 1000
  const MS_PER_DAY: int := 86_400_000

  // ---------------------------------------------------------------- differences

  /** Division that rounds toward zero, as differenceInSeconds does. */
  function TruncatedSeconds(ms: int): int {
    if ms >= 0 then ms / MS_PER_SECOND else -(-ms / MS_PER_SECOND)
  }

  /** What the two guards `difference > n` mean in milliseconds. */
  lemma GuardInMilliseconds(ms: int, n: nat)
    ensures TruncatedSeconds(ms) > n <==> ms >= (n + 1) * MS_PER_SECOND
  {
  }

  // ---------------------------------------------------------------- civil dates

  datatype Date = Date(year: int, month: int, day: int)

  predicate IsLeap(y: int) {
    y % 4 == 0 && (y % 100 != 0 || y % 400 == 0)
  }

  function YearLength(y: int): int {
    if IsLeap(y) then 366 else 365
  }

  function DaysInMonth(y: int, m: int): int {
    if m == 2 then (if IsLeap(y) then 29 else 28)
    else if m == 4 || m == 6 || m == 9 || m == 11 then 30
    else 31
  }

  /** Days from 1970-01-01 to the first of January of `y`. */
  function YearStart(y: int): int
    requires y >= 1970
    ensures YearStart(y) >= 0
  {
    if y == 1970 then 0 else YearStart(y - 1) + YearLength(y - 1)
  }

  /** Days of `y` before the first of month `m`; month 13 is the following January. */
  function MonthStart(y: int, m: int): int
    requires 1 <= m <= 13
    decreases m
  {
    if m == 1 then 0 else MonthStart(y, m - 1) + DaysInMonth(y, m - 1)
  }

  predicate ValidDate(c: Date) {
    c.year >= 1970 && 1 <= c.month <= 12 && 1 <= c.day <= DaysInMonth(c.year, c.month)
  }

  function ToDay(c: Date): int
    requires ValidDate(c)
  {
    YearStart(c.year) + MonthStart(c.year, c.month) + c.day - 1
  }

  function YearFrom(y: int, n: int): (r: int)
    requires y >= 1970 && YearStart(y) <= n
    ensures r >= y && YearStart(r) <= n < YearStart(r + 1)
    decreases n - YearStart(y)
  {
    if n < YearStart(y + 1) then y else YearFrom(y + 1, n)
  }

  function MonthFrom(y: int, m: int, r: int): (result: int)
    requires 1 <= m <= 12 && MonthStart(y, m) <= r < MonthStart(y, 13)
    ensures m <= result <= 12 && MonthStart(y, result) <= r < MonthStart(y, result + 1)
    decreases 12 - m
  {
    if r < MonthStart(y, m + 1) then m else MonthFrom(y, m + 1, r)
  }

  lemma MonthTable(y: int)
    ensures MonthStart(y, 2) == 31
    ensures MonthStart(y, 3) == 31 + DaysInMonth(y, 2)
    ensures MonthStart(y, 4) == MonthStart(y, 3) + 31 && MonthStart(y, 5) == MonthStart(y, 3) + 61
    ensures MonthStart(y, 6) == MonthStart(y, 3) + 92 && MonthStart(y, 7) == MonthStart(y, 3) + 122
    ensures MonthStart(y, 8) == MonthStart(y, 3) + 153 && MonthStart(y, 9) == MonthStart(y, 3) + 184
    ensures MonthStart(y, 10) == MonthStart(y, 3) + 214 && MonthStart(y, 11) == MonthStart(y, 3) + 245
    ensures MonthStart(y, 12) == MonthStart(y, 3) + 275 && MonthStart(y, 13) == YearLength(y)
  {
    assert MonthStart(y, 5) == MonthStart(y, 4) + 30;
    assert MonthStart(y, 7) == MonthStart(y, 6) + 30;
    assert MonthStart(y, 9) == MonthStart(y, 8) + 31;
    assert MonthStart(y, 11) == MonthStart(y, 10) + 31;
  }

  function FromDay(n: int): (c: Date)
    requires n >= 0
    ensures ValidDate(c) && ToDay(c) == n
  {
    var y := YearFrom(1970, n);
    MonthTable(y);
    var r := n - YearStart(y);
    var m := MonthFrom(y, 1, r);
    Date(y, m, r - MonthStart(y, m) + 1)
  }

  /** How many leap years there are up to the year `y`: one in four, but of the centuries only every
      fourth. */
  function LeapYearsTo(y: int): int {
    y / 4 - y / 100 + y / 400
  }

  /** The years are those of the Gregorian calendar, counted from 1970. */
  lemma {:induction false} YearStartIsGregorian(y: int)
    requires y >= 1970
    ensures YearStart(y) == 365 * (y - 1970) + LeapYearsTo(y - 1) - 477
    decreases y
  {
    if y > 1970 {
      YearStartIsGregorian(y - 1);
      LeapYearCounts(y - 1);
    }
  }

  lemma LeapYearCounts(y: int)
    requires y >= 1970
    ensures LeapYearsTo(y) - LeapYearsTo(y - 1) == if IsLeap(y) then 1 else 0
  {
    QuotientGrows(y, 4);
    QuotientGrows(y, 100);
    QuotientGrows(y, 400);
    assert y % 400 == 0 ==> y % 100 == 0;
    assert y % 100 == 0 ==> y % 4 == 0;
  }

  lemma QuotientGrows(y: int, n: int)
    requires y > 0 && n > 1
    ensures y / n - (y - 1) / n == if y % n == 0 then 1 else 0
  {
    var q, r := y / n, y % n;
    assert y == q * n + r;
    if r == 0 {
      assert y - 1 == (q - 1) * n + (n - 1);
      QuotientIs(y - 1, n, q - 1, n - 1);
    } else {
      QuotientIs(y - 1, n, q, r - 1);
    }
  }

  lemma QuotientIs(y: int, n: int, q: int, r: int)
    requires n > 0 && y == q * n + r && 0 <= r < n
    ensures y / n == q
  {
    var d := y / n - q;
    assert d * n == r - y % n;
    MultipleIsLarge(d, n);
  }

  lemma MultipleIsLarge(d: int, n: int)
    requires n > 0
    ensures d > 0 ==> d * n >= n
    ensures d < 0 ==> d * n <= -n
  {
    if d > 0 {
      assert (d - 1) * n >= 0;
    } else if d < 0 {
      assert (-d - 1) * n >= 0;
    }
  }

  lemma {:induction false} YearsAscend(y: int, z: int)
    requires 1970 <= y < z
    ensures YearStart(y) + YearLength(y) <= YearStart(z)
    decreases z
  {
    if y < z - 1 {
      YearsAscend(y, z - 1);
    }
  }

  lemma {:induction false} MonthsAscend(y: int, m: int, k: int)
    requires 1 <= m < k <= 13
    ensures MonthStart(y, m) + DaysInMonth(y, m) <= MonthStart(y, k)
    decreases k
  {
    if m < k - 1 {
      MonthsAscend(y, m, k - 1);
    }
  }

  lemma WithinYear(c: Date)
    requires ValidDate(c)
    ensures YearStart(c.year) <= ToDay(c) < YearStart(c.year) + YearLength(c.year)
  {
    MonthTable(c.year);
    MonthsAscend(c.year, c.month, 13);
    if c.month > 1 {
      MonthsAscend(c.year, 1, c.month);
    }
  }

  /** Day numbers and valid dates correspond one to one. */
  lemma DateRoundTrip(c: Date)
    requires ValidDate(c)
    ensures ToDay(c) >= 0 && FromDay(ToDay(c)) == c
  {
    WithinYear(c);
    var e := FromDay(ToDay(c));
    WithinYear(e);
    if e.year < c.year {
      YearsAscend(e.year, c.year);
    } else if c.year < e.year {
      YearsAscend(c.year, e.year);
    }
    if e.month < c.month {
      MonthsAscend(c.year, e.month, c.month);
    } else if c.month < e.month {
      MonthsAscend(c.year, c.month, e.month);
    }
  }

  // ---------------------------------------------------------------- one year later

  /** The same month and day of the next year, or the last day of that month when it is shorter. */
  function NextYear(c: Date): (e: Date)
    requires ValidDate(c)
    ensures ValidDate(e)
  {
    var length := DaysInMonth(c.year + 1, c.month);
    Date(c.year + 1, c.month, if c.day >= length then length else c.day)
  }

  /** `add(t, { years: 1 })`. */
  function AddYear(t: int): int
    requires t >= 0
  {
    ToDay(NextYear(FromDay(t / MS_PER_DAY))) * MS_PER_DAY + t % MS_PER_DAY
  }

  /** How many days `NextYear` moves a date: the length of the year that ends on it, except that
      the 29th of February moves only to the 28th. */
  function YearAdvance(c: Date): int {
    if c.month == 2 && c.day == 29 then 365
    else if c.month <= 2 then YearLength(c.year)
    else YearLength(c.year + 1)
  }

  lemma NextYearDays(c: Date)
    requires ValidDate(c)
    ensures ToDay(NextYear(c)) == ToDay(c) + YearAdvance(c)
  {
    MonthTable(c.year);
    MonthTable(c.year + 1);
    assert YearStart(c.year + 1) == YearStart(c.year) + YearLength(c.year);
  }

  /** The end of a period is exactly 365 or 366 days after the instant it was computed from. */
  lemma YearIs365Or366Days(t: int)
    requires t >= 0
    ensures AddYear(t) == t + YearAdvance(FromDay(t / MS_PER_DAY)) * MS_PER_DAY
    ensures AddYear(t) - t == 365 * MS_PER_DAY || AddYear(t) - t == 366 * MS_PER_DAY
  {
    NextYearDays(FromDay(t / MS_PER_DAY));
  }

  /** A later computation gives an end less than 24 hours before the earlier one. */
  lemma YearLosesLessThanADay(t: int, u: int)
    requires 0 <= t <= u
    ensures AddYear(u) > AddYear(t) - MS_PER_DAY
  {
    YearIs365Or366Days(t);
    YearIs365Or366Days(u);
    if t / MS_PER_DAY != u / MS_PER_DAY {
      NextYearDays(FromDay(t / MS_PER_DAY));
      NextYearDays(FromDay(u / MS_PER_DAY));
      assert t / MS_PER_DAY + 1 <= u / MS_PER_DAY;
    }
  }

  function Successor(c: Date): Date {
    if c.day < DaysInMonth(c.year, c.month) then c.(day := c.day + 1)
    else if c.month < 12 then Date(c.year, c.month + 1, 1)
    else Date(c.year + 1, 1, 1)
  }

  lemma SuccessorDay(c: Date)
    requires ValidDate(c)
    ensures ValidDate(Successor(c)) && ToDay(Successor(c)) == ToDay(c) + 1
  {
    if c.day == DaysInMonth(c.year, c.month) && c.month == 12 {
      MonthTable(c.year);
    }
  }

  lemma Tomorrow(n: int)
    requires n >= 0
    ensures FromDay(n + 1) == Successor(FromDay(n))
  {
    SuccessorDay(FromDay(n));
    DateRoundTrip(Successor(FromDay(n)));
  }

  lemma AdvanceDrops(n: int)
    requires n >= 0
    ensures var c := FromDay(n);
      YearAdvance(c) > YearAdvance(FromDay(n + 1)) <==> IsLeap(c.year) && c.month == 2 && c.day == 28
  {
    Tomorrow(n);
  }

  /** Day numbers after a year: they never go back, and two days meet only on a leap day. */
  lemma YearMergesOnlyLeapDay(n: int, k: int)
    requires 0 <= n < k
    ensures ToDay(NextYear(FromDay(n))) <= ToDay(NextYear(FromDay(k)))
    ensures ToDay(NextYear(FromDay(n))) == ToDay(NextYear(FromDay(k))) <==>
      k == n + 1 && IsLeap(FromDay(n).year) && FromDay(n).month == 2 && FromDay(n).day == 28
  {
    hide FromDay, NextYear, ToDay;
    NextYearDays(FromDay(n));
    NextYearDays(FromDay(k));
    AdvanceDrops(n);
  }

  ghost predicate OnLeapEve(t: int, u: int)
    requires 0 <= t <= u
  {
    var c, e := FromDay(t / MS_PER_DAY), FromDay(u / MS_PER_DAY);
    c.month == 2 && c.day == 28 && e == Date(c.year, 2, 29)
  }

  lemma LeapEveIsAdjacent(n: int, k: int)
    requires 0 <= n <= k
    ensures k == n + 1 && IsLeap(FromDay(n).year) && FromDay(n).month == 2 && FromDay(n).day == 28
      <==> FromDay(n).month == 2 && FromDay(n).day == 28 && FromDay(k) == Date(FromDay(n).year, 2, 29)
  {
    Tomorrow(n);
    if FromDay(n).month == 2 && FromDay(n).day == 28 && FromDay(k) == Date(FromDay(n).year, 2, 29) {
      assert ToDay(FromDay(k)) == ToDay(FromDay(n)) + 1;
    }
  }

  /** Adding a year is not monotone, and exactly here: the earlier instant is on the 28th, the later
      one on the 29th of the same February, at an earlier time of day. */
  lemma WhenYearGoesBack(t: int, u: int)
    requires 0 <= t <= u
    ensures AddYear(u) < AddYear(t) <==> OnLeapEve(t, u) && u % MS_PER_DAY < t % MS_PER_DAY
  {
    var n, k := t / MS_PER_DAY, u / MS_PER_DAY;
    LeapEveIsAdjacent(n, k);
    if n < k {
      YearMergesOnlyLeapDay(n, k);
    }
  }
}
