/**
  The proleptic Gregorian calendar behind Go's `time.Date`.

  Days are numbered from 1 January of year 1 (day 0, a Monday), months from January of year 0:
  month `m` of year `y` has index `12*y + m - 1`.  Numbering months this way folds the month
  overflow of `time.Date` into the index, and the day overflow is plain addition.
*/
module Gregorian {

  predicate IsLeap(y: int) {
    y % 4 == 0 && (y % 100 != 0 || y % 400 == 0)
  }

  /** The calendar's own table. */
  function MonthLength(m: int): (n: nat)
    ensures 28 <= n <= 31
  {
    var k := m % 12;
    if k == 1 then (if IsLeap(m / 12) then 29 else 28)
    else if k == 3 || k == 5 || k == 8 || k == 10 then 30
    else 31
  }

  /** The day number of the first day of month `m`; January of year 1 starts on day 0. */
  function FirstDay(m: int): int
    decreases if m < 12 then 12 - m else m - 12
  {
    if m == 12 then 0
    else if m > 12 then FirstDay(m - 1) + MonthLength(m - 1)
    else FirstDay(m + 1) - MonthLength(m)
  }

  lemma FirstDayStep(m: int)
    ensures FirstDay(m + 1) == FirstDay(m) + MonthLength(m)
  {
  }

  lemma {:induction false} FirstDayMonotone(a: int, b: int)
    requires a <= b
    ensures FirstDay(a) + 28 * (b - a) <= FirstDay(b)
    decreases b - a
  {
    if a < b {
      FirstDayMonotone(a, b - 1);
      FirstDayStep(b - 1);
    }
  }

  /** The month of day `n`, found by walking from a guess `m`. */
  function MonthFrom(n: int, m: int): (r: int)
    ensures FirstDay(r) <= n < FirstDay(r + 1)
    decreases if n < FirstDay(m) then FirstDay(m) - n else n - FirstDay(m + 1) + 1
  {
    FirstDayStep(m - 1);
    FirstDayStep(m);
    FirstDayStep(m + 1);
    if n < FirstDay(m) then MonthFrom(n, m - 1)
    else if n >= FirstDay(m + 1) then MonthFrom(n, m + 1)
    else m
  }

  function MonthOf(n: int): (m: int)
    ensures FirstDay(m) <= n < FirstDay(m) + MonthLength(m)
  {
    var m := MonthFrom(n, 12 * (n * 400 / 146097 + 1));
    FirstDayStep(m);
    m
  }

  function Year(n: int): int { MonthOf(n) / 12 }
  function Month(n: int): int { MonthOf(n) % 12 + 1 }
  function Day(n: int): (d: int)
    ensures 1 <= d <= MonthLength(MonthOf(n))
  {
    n - FirstDay(MonthOf(n)) + 1
  }

  /** `time.Date` on calendar dates: any month and any day are normalised. */
  function DayNumber(year: int, month: int, day: int): int {
    FirstDay(12 * year + month - 1) + day - 1
  }

  lemma MonthOfUnique(n: int, m: int)
    requires FirstDay(m) <= n < FirstDay(m) + MonthLength(m)
    ensures MonthOf(n) == m
  {
    hide MonthOf, FirstDay, MonthLength;
    var k := MonthOf(n);
    FirstDayStep(m);
    FirstDayStep(k);
    if k < m {
      FirstDayMonotone(k + 1, m);
    } else if m < k {
      FirstDayMonotone(m + 1, k);
    }
  }

  /** Splitting a day into a date and normalising the date again loses nothing, at any distance. */
  lemma DateRoundTrip(n: int, offset: int)
    ensures DayNumber(Year(n), Month(n), Day(n) + offset) == n + offset
  {
    assert 12 * Year(n) + Month(n) - 1 == MonthOf(n);
  }

  lemma MonthOfMonotone(a: int, b: int)
    requires a <= b
    ensures MonthOf(a) <= MonthOf(b)
  {
    hide MonthOf, FirstDay, MonthLength;
    var k, m := MonthOf(a), MonthOf(b);
    FirstDayStep(m);
    if m < k {
      FirstDayMonotone(m + 1, k);
    }
  }

  /** Sunday is 0, as in `time.Weekday`. */
  function Weekday(n: int): (w: int)
    ensures 0 <= w < 7
  {
    (n + 1) % 7
  }

  /** Leap years repeat every 400 years, so month lengths repeat every 4800 months. */
  lemma MonthLengthPeriod(m: int)
    ensures MonthLength(m + 4800) == MonthLength(m)
  {
    assert (m + 4800) / 12 == m / 12 + 400 && (m + 4800) % 12 == m % 12;
    var y := m / 12;
    assert (y + 400) % 4 == y % 4 && (y + 400) % 100 == y % 100 && (y + 400) % 400 == y % 400;
  }

  lemma {:induction false} MonthLengthPeriods(m: int, n: nat)
    ensures MonthLength(m + 4800 * n) == MonthLength(m)
  {
    if n > 0 {
      MonthLengthPeriods(m, n - 1);
      MonthLengthPeriod(m + 4800 * (n - 1));
    }
  }
}
