/** Calendar dates as already-parsed (year, month, day) triples, the month
    buckets the aggregator groups by, and the two pieces of JavaScript `Date`
    arithmetic the dashboard relies on: `setMonth(getMonth() + n)` and the
    whole-day difference of two UTC midnights. */
module Calendar {

  datatype Date = Date(year: int, month: int, day: int)

  /** Gregorian leap-year rule, as JavaScript's proleptic calendar applies it. */
  predicate IsLeapYear(y: int) {
    (y % 4 == 0 && y % 100 != 0) || y % 400 == 0
  }

  function DaysInMonth(y: int, m: int): (n: int)
    requires 1 <= m <= 12
    ensures 28 <= n <= 31
    ensures m == 2 ==> (n == 29 <==> IsLeapYear(y))
  {
    if m == 2 then (if IsLeapYear(y) then 29 else 28)
    else if m == 4 || m == 6 || m == 9 || m == 11 then 30
    else 31
  }

  /** A date a JavaScript `Date` can hold once parsed: month 1..12 and a day
      that exists in that month. */
  predicate ValidDate(d: Date) {
    1 <= d.month <= 12 && 1 <= d.day <= DaysInMonth(d.year, d.month)
  }

  /** The `YYYY-MM` bucket a date falls in. */
  datatype MonthKey = MonthKey(year: int, month: int)

  function MonthOf(d: Date): MonthKey {
    MonthKey(d.year, d.month)
  }

  /** The canonical `YYYY-MM-01` date of a bucket. */
  function FirstOfMonth(k: MonthKey): (d: Date)
    ensures MonthOf(d) == k && d.day == 1
  {
    Date(k.year, k.month, 1)
  }

  /** Months counted from year 0, so that consecutive months differ by one. */
  function MonthIndex(k: MonthKey): int {
    k.year * 12 + k.month - 1
  }

  predicate MonthBefore(a: MonthKey, b: MonthKey) {
    a.year < b.year || (a.year == b.year && a.month < b.month)
  }

  /** Chronological order of dates (the order of `getTime()` on valid dates). */
  predicate DateBefore(a: Date, b: Date) {
    a.year < b.year
    || (a.year == b.year && (a.month < b.month || (a.month == b.month && a.day < b.day)))
  }

  lemma DateBeforeTotal(a: Date, b: Date)
    ensures a == b || DateBefore(a, b) || DateBefore(b, a)
    ensures !(DateBefore(a, b) && DateBefore(b, a))
  {
  }

  /** `new Date(d).setMonth(d.getMonth() + n)`: the month index is carried into
      the year (floor division, as `Date` normalises negative months too), and
      a day past the end of the target month rolls into the following month,
      as `Date` does for 31 January plus one month. */
  function AddMonths(d: Date, n: int): (r: Date)
    requires ValidDate(d)
    ensures ValidDate(r)
    ensures d.day <= 28 ==> r.day == d.day && MonthIndex(MonthOf(r)) == MonthIndex(MonthOf(d)) + n
    ensures n == 0 ==> r == d
  {
    var idx := d.month - 1 + n;
    var y := d.year + idx / 12;
    var m := idx % 12 + 1;
    var dim := DaysInMonth(y, m);
    if d.day <= dim then Date(y, m, d.day)
    else if m == 12 then Date(y + 1, 1, d.day - dim)
    else Date(y, m + 1, d.day - dim)
  }

  /** On a first-of-month date, adding months moves strictly forward in time. */
  lemma AddMonthsAscending(d: Date, i: int, j: int)
    requires ValidDate(d) && d.day == 1
    requires i < j
    ensures DateBefore(AddMonths(d, i), AddMonths(d, j))
  {
    var a, b := AddMonths(d, i), AddMonths(d, j);
    assert MonthIndex(MonthOf(a)) < MonthIndex(MonthOf(b));
    assert a.day == b.day == 1;
  }

  /** Days from 1970-01-01 to 1 March of year `y` in the proleptic Gregorian
      calendar (the civil day count: a year counted from March ends with
      the leap day, and 400 years make an era of 146097 days). */
  function MarchYearStart(y: int): int {
    var era := y / 400;
    var yoe := y - era * 400;
    era * 146097 + yoe * 365 + yoe / 4 - yoe / 100 - 719468
  }

  /** Days from 1 March to the first day of month `m` of the same
      March-based year. */
  function DaysFromMarch(m: int): int
    requires 1 <= m <= 12
  {
    var mp := (m + 9) % 12;
    (153 * mp + 2) / 5
  }

  /** Days from 1970-01-01 to the first day of month `m` of year `y`;
      January and February belong to the March-based year before. */
  function MonthStartDay(y: int, m: int): int
    requires 1 <= m <= 12
  {
    MarchYearStart(if m <= 2 then y - 1 else y) + DaysFromMarch(m)
  }

  /** Days since 1970-01-01 of a valid date, i.e. `getTime()` of its UTC
      midnight divided by 86400000. */
  function DayNumber(d: Date): int
    requires ValidDate(d)
  {
    MonthStartDay(d.year, d.month) + d.day - 1
  }

  /** `Math.floor((b.getTime() - a.getTime()) / 86400000)` for two UTC
      midnights: the difference is a whole number of days. */
  function DaysBetween(a: Date, b: Date): int
    requires ValidDate(a) && ValidDate(b)
  {
    DayNumber(b) - DayNumber(a)
  }

  /** Quotient and remainder are determined by any decomposition of `x`
      with a remainder in range, for the three divisors of the leap-year
      rule. */
  lemma Euclid4(x: int, q: int, m: int)
    requires x == 4 * q + m && 0 <= m < 4
    ensures x / 4 == q && x % 4 == m
  {
  }

  lemma Euclid100(x: int, q: int, m: int)
    requires x == 100 * q + m && 0 <= m < 100
    ensures x / 100 == q && x % 100 == m
  {
  }

  lemma Euclid400(x: int, q: int, m: int)
    requires x == 400 * q + m && 0 <= m < 400
    ensures x / 400 == q && x % 400 == m
  {
  }

  /** Whole eras of 400 years do not change the leap-year rule. */
  lemma LeapModEra(era: int, r: int)
    requires 0 <= r
    ensures IsLeapYear(era * 400 + r) <==> IsLeapYear(r)
  {
    var y := era * 400 + r;
    Euclid4(y, era * 100 + r / 4, r % 4);
    Euclid100(y, era * 4 + r / 100, r % 100);
    Euclid400(y, era + r / 400, r % 400);
  }

  /** Counting one more year steps the quarter and century counts up
      exactly on their multiples. */
  lemma QuotientSteps(r: int)
    requires 0 <= r
    ensures (r + 1) / 4 - r / 4 == if (r + 1) % 4 == 0 then 1 else 0
    ensures (r + 1) / 100 - r / 100 == if (r + 1) % 100 == 0 then 1 else 0
  {
    if r % 4 == 3 {
      Euclid4(r + 1, r / 4 + 1, 0);
    } else {
      Euclid4(r + 1, r / 4, r % 4 + 1);
    }
    if r % 100 == 99 {
      Euclid100(r + 1, r / 100 + 1, 0);
    } else {
      Euclid100(r + 1, r / 100, r % 100 + 1);
    }
  }

  /** A March-based year has 366 days exactly when the February that ends
      it is a leap one. */
  lemma MarchYearLength(y: int)
    ensures MarchYearStart(y + 1) - MarchYearStart(y) == if IsLeapYear(y + 1) then 366 else 365
  {
    var era := y / 400;
    var r := y - era * 400;
    assert 0 <= r < 400;
    LeapModEra(era, r + 1);
    if r == 399 {
      Euclid400(y + 1, era + 1, 0);
      assert IsLeapYear(r + 1);
    } else {
      Euclid400(y + 1, era, r + 1);
      QuotientSteps(r);
    }
  }

  /** The offsets of the months from 1 March: March 0, April 31, …,
      January 306, February 337. */
  lemma DaysFromMarchTable(m: int)
    requires 1 <= m <= 12
    ensures DaysFromMarch(m) == [306, 337, 0, 31, 61, 92, 122, 153, 184, 214, 245, 275][m - 1]
  {
    if m == 1 {} else if m == 2 {} else if m == 3 {} else if m == 4 {}
    else if m == 5 {} else if m == 6 {} else if m == 7 {} else if m == 8 {}
    else if m == 9 {} else if m == 10 {} else if m == 11 {} else {}
  }

  /** The day count starts at the Unix epoch, advances by one per day within
      a month, and the last day of every month is followed by the first of
      the next, across February's end and the year's end too. */
  lemma DayNumberSteps(d: Date)
    requires ValidDate(d)
    ensures DayNumber(Date(1970, 1, 1)) == 0
    ensures d.day < DaysInMonth(d.year, d.month) ==> DayNumber(Date(d.year, d.month, d.day + 1)) == DayNumber(d) + 1
    ensures d.day == DaysInMonth(d.year, d.month) && d.month < 12 ==>
              DayNumber(Date(d.year, d.month + 1, 1)) == DayNumber(d) + 1
    ensures d.day == DaysInMonth(d.year, d.month) && d.month == 12 ==>
              DayNumber(Date(d.year + 1, 1, 1)) == DayNumber(d) + 1
  {
    DaysFromMarchTable(1);
    DaysFromMarchTable(d.month);
    if d.month < 12 {
      DaysFromMarchTable(d.month + 1);
    }
    if d.month == 2 {
      MarchYearLength(d.year - 1);
    }
  }

  /** The first day of a month directly follows the last day of the month
      before it. */
  lemma MonthStartStep(y: int, m: int)
    requires 1 <= m <= 12
    ensures m < 12 ==> MonthStartDay(y, m + 1) == MonthStartDay(y, m) + DaysInMonth(y, m)
    ensures m == 12 ==> MonthStartDay(y + 1, 1) == MonthStartDay(y, 12) + 31
  {
    DayNumberSteps(Date(y, m, DaysInMonth(y, m)));
  }

  /** Within a year, a later month starts after every day of an earlier one. */
  lemma {:induction false} MonthStartAfter(y: int, m: int, n: int)
    requires 1 <= m < n <= 12
    ensures MonthStartDay(y, m) + DaysInMonth(y, m) <= MonthStartDay(y, n)
    decreases n - m
  {
    MonthStartStep(y, m);
    if m + 1 < n {
      MonthStartAfter(y, m + 1, n);
    }
  }

  /** Every day of a year lies between its own 1 January and the next one. */
  lemma WithinYear(d: Date)
    requires ValidDate(d)
    ensures MonthStartDay(d.year, 1) <= DayNumber(d) < MonthStartDay(d.year + 1, 1)
  {
    if d.month > 1 {
      MonthStartAfter(d.year, 1, d.month);
    }
    if d.month < 12 {
      MonthStartAfter(d.year, d.month, 12);
    }
    MonthStartStep(d.year, 12);
  }

  /** A later year starts no earlier than the year after an earlier one. */
  lemma {:induction false} YearStartAfter(y: int, z: int)
    requires y < z
    ensures MonthStartDay(y + 1, 1) <= MonthStartDay(z, 1)
    decreases z - y
  {
    if y + 1 < z {
      YearStartAfter(y + 1, z);
      WithinYear(Date(y + 1, 1, 1));
    }
  }

  lemma EarlierDayNumber(a: Date, b: Date)
    requires ValidDate(a) && ValidDate(b) && DateBefore(a, b)
    ensures DayNumber(a) < DayNumber(b)
  {
    if a.year < b.year {
      WithinYear(a);
      WithinYear(b);
      YearStartAfter(a.year, b.year);
    } else if a.month < b.month {
      MonthStartAfter(a.year, a.month, b.month);
    }
  }

  /** The comparator the sort uses orders valid dates exactly as their day
      counts, i.e. as `getTime()` does. */
  lemma DateBeforeDayNumber(a: Date, b: Date)
    requires ValidDate(a) && ValidDate(b)
    ensures DateBefore(a, b) <==> DayNumber(a) < DayNumber(b)
  {
    DateBeforeTotal(a, b);
    if DateBefore(a, b) {
      EarlierDayNumber(a, b);
    } else if DateBefore(b, a) {
      EarlierDayNumber(b, a);
    }
  }
}
