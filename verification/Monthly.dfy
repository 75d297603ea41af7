/** monthlyJob: days counted from both ends of the month, and a search that must know when to give up. */
module MonthlyJobs {
  import opened Times
  import opened Zones
  import opened Gregorian
  import opened Grids
  import opened AtTimes

  /** `AddDate`: shift the calendar date, keep the clock reading, normalise. */
  function AddDate(z: Zone, t: Time, months: int, days: int): Time {
    var wall := z.Wall(t);
    var d := DayOf(wall);
    z.Date(DayNumber(Year(d), Month(d) + months, Day(d) + days) * DAY + wall % DAY)
  }

  /** The day number the source computes for `-n`: `n` days before the first of the next month. */
  function DayFromEnd(m: int, n: int): int {
    Day(FirstDay(m + 1) - n)
  }

  /**
    -n is the n-th day from the end of the month when the month is that long.  Otherwise it becomes
    a number beyond the month's end, never another day of it: every shorter month follows a
    31-day one.
  */
  lemma NegativeDaysNeverAlias(m: int, n: int)
    requires 1 <= n <= 31
    ensures n <= MonthLength(m) ==> DayFromEnd(m, n) == MonthLength(m) - n + 1
    ensures n > MonthLength(m) ==> DayFromEnd(m, n) > MonthLength(m)
    ensures 1 <= DayFromEnd(m, n) <= 31
  {
    FirstDayStep(m);
    FirstDayStep(m - 1);
    ShortFollowsLong(m);
    hide MonthLength, FirstDay, MonthOf;
    MonthOfUnique(FirstDay(m + 1) - n, if n <= MonthLength(m) then m else m - 1);
  }

  lemma ShortFollowsLong(m: int)
    ensures MonthLength(m) < 31 ==> MonthLength(m - 1) == 31
  {
  }

  /** Residues of the months with 31 days. */
  predicate LongMonth(c: int) {
    c != 1 && c != 3 && c != 5 && c != 8 && c != 10
  }

  ghost predicate MeetsLongMonth(a: int, b: int, i: int) {
    LongMonth((a + i * b) % 12)
  }

  /** A stride that is not whole years meets months half a year or a third of a year apart, and one is long. */
  lemma LongMonthStep(a: int, b: int)
    requires 0 <= a < 12 && 0 < b < 12
    ensures exists i :: 1 <= i <= 12 && MeetsLongMonth(a, b, i)
  {
    if b % 2 == 0 {
      EvenStride(a, b);
    } else {
      OddStride(a, b);
    }
  }

  lemma OddStride(a: int, b: int)
    requires 0 <= a < 12 && 0 < b < 12 && b % 2 == 1
    ensures MeetsLongMonth(a, b, 6) || MeetsLongMonth(a, b, 12)
  {
    assert (a + 6 * b) % 12 == (a + 6) % 12 && (a + 12 * b) % 12 == a;
  }

  lemma EvenStride(a: int, b: int)
    requires 0 <= a < 12 && 0 < b < 12 && b % 2 == 0
    ensures exists i :: 1 <= i <= 6 && MeetsLongMonth(a, b, i)
  {
    if b == 2 || b == 10 {
      assert (a + 3 * b) % 12 == (a + 6) % 12 && (a + 6 * b) % 12 == a;
      assert MeetsLongMonth(a, b, 3) || MeetsLongMonth(a, b, 6);
    } else if b == 6 {
      assert MeetsLongMonth(a, b, 1) || MeetsLongMonth(a, b, 2);
    } else {
      ThirdOfAYear(a, b);
    }
  }

  lemma ThirdOfAYear(a: int, b: int)
    requires 0 <= a < 12 && (b == 4 || b == 8)
    ensures MeetsLongMonth(a, b, 1) || MeetsLongMonth(a, b, 2) || MeetsLongMonth(a, b, 3)
  {
  }

  lemma LongMonthAhead(m: int, r: int) returns (k: nat)
    requires r > 0 && r % 12 != 0
    ensures 1 <= k <= 12 && MonthLength(m + k * r) == 31
  {
    LongMonthStep(m % 12, r % 12);
    k :| 1 <= k <= 12 && MeetsLongMonth(m % 12, r % 12, k);
    ReducedStride(m, r, k);
  }

  /** Strides may be counted in residues. */
  lemma ReducedStride(m: int, r: int, k: nat)
    ensures (m + k * r) % 12 == (m % 12 + k * (r % 12)) % 12
  {
    var a, b := m % 12, r % 12;
    var c := m / 12 + k * (r / 12);
    assert m + k * r == a + k * b + 12 * c by {
      assert r == b + 12 * (r / 12) && m == 12 * (m / 12) + a;
      assert k * r == k * b + k * (12 * (r / 12));
      assert k * (12 * (r / 12)) == 12 * (k * (r / 12));
    }
    AddMultiple(a + k * b, c, 12);
  }

  /** With whole years a stride and the one 400 strides earlier meet months of the same length. */
  lemma WholeYears(m: int, interval: nat, k: nat, i: nat, q: nat)
    requires interval % 12 == 0 && k == i + 400 * q
    ensures MonthLength(m + k * interval) == MonthLength(m + i * interval)
  {
    hide MonthLength;
    var years := interval / 12;
    assert interval == 12 * years;
    assert k * interval == i * interval + 4800 * (q * years) by {
      Distribute(i, 400 * q, interval);
      assert 400 * q * (12 * years) == 4800 * (q * years);
    }
    MonthLengthPeriods(m + i * interval, q * years);
  }

  /** With whole years another of 400 strides meets a month at least as long. */
  lemma SecondStride(m: int, interval: nat, i: nat) returns (j: nat)
    requires interval > 0 && interval % 12 == 0 && 1 <= i <= 400
    ensures 1 <= j <= 400 && j != i && MonthLength(m + i * interval) <= MonthLength(m + j * interval)
  {
    var up := i <= 200;
    var s := AnotherLongYear(m + i * interval, if up then interval / 12 else -(interval / 12));
    j := if up then i + s else i - s;
    Distribute(i, s, interval);
    assert (if up then interval / 12 else -(interval / 12)) * 12 * s == if up then s * interval else -(s * interval);
  }

  /** Going on by whole years, one of the first 80 steps meets as long a month again. */
  lemma AnotherLongYear(month: int, years: int) returns (s: nat)
    ensures 1 <= s <= 80 && MonthLength(month) <= MonthLength(month + years * 12 * s)
  {
    s := 1;
    if month % 12 == 1 && IsLeap(month / 12) {
      s := LeapAgain(month / 12, years);
    }
    YearsOn(month, years * s);
    assert years * 12 * s == 12 * (years * s);
  }

  lemma YearsOn(month: int, years: int)
    ensures (month + 12 * years) / 12 == month / 12 + years && (month + 12 * years) % 12 == month % 12
  {
  }

  lemma LeapAgain(y: int, years: int) returns (s: nat)
    requires IsLeap(y)
    ensures 1 <= s <= 80 && IsLeap(y + years * s)
  {
    if years % 5 == 0 {
      s := 80;
      SameLeap(y, years / 5);
      assert years * 80 == 400 * (years / 5);
    } else {
      s := if IsLeap(y + years * 4) then 4 else 8;
      LeapSoon(y, years);
    }
    hide IsLeap;
  }

  lemma LeapSoon(y: int, years: int)
    requires IsLeap(y) && years % 5 != 0
    ensures IsLeap(y + years * 4) || IsLeap(y + years * 8)
  {
    if (y + 4 * years) % 100 == 0 {
      NotTwoCenturies(y + 4 * years, years);
    } else {
      AddMultiple(y, years, 4);
    }
  }

  lemma SameLeap(y: int, q: int)
    ensures IsLeap(y + 400 * q) == IsLeap(y)
  {
    AddMultiple(y, 100 * q, 4);
    AddMultiple(y, 4 * q, 100);
    AddMultiple(y, q, 400);
  }

  /** Four strides after a century comes no other one, unless the stride is a multiple of five years. */
  lemma NotTwoCenturies(y: int, years: int)
    requires y % 100 == 0 && years % 5 != 0
    ensures (y + 4 * years) % 4 == 0 && (y + 4 * years) % 100 != 0
  {
    var a, c := y / 100, (y + 4 * years) / 100;
    assert y == 100 * a;
    AddMultiple(0, 25 * a + years, 4);
    if (y + 4 * years) % 100 == 0 {
      assert 4 * years == 100 * (c - a);
      AddMultiple(0, 5 * (c - a), 5);
    }
  }

  /**
    Counting back from a midnight that exists finds the right day exactly when the midnight counted back
    to is not in the gap, or `time.Date` does not move it to the day before.
  */
  lemma DayCountedBack(z: Zone, m: int, n: int)
    requires z.Valid() && !z.InGap(At(FirstDay(m + 1), 0))
    ensures Day(DayOf(z.Wall(AddDate(z, z.Date(At(FirstDay(m + 1), 0)), 0, n)))) == DayFromEnd(m, -n)
       <==> !z.MovesMidnight(FirstDay(m + 1) + n)
  {
    hide MonthLength, FirstDay, MonthOf;
    var day := FirstDay(m + 1) + n;
    CountedBackTo(z, m, n);
    z.DayOfMidnight(day);
    DayBeforeDiffers(day);
  }

  lemma CountedBackTo(z: Zone, m: int, n: int)
    requires !z.InGap(At(FirstDay(m + 1), 0))
    ensures AddDate(z, z.Date(At(FirstDay(m + 1), 0)), 0, n) == z.Date(At(FirstDay(m + 1) + n, 0))
  {
    hide MonthLength, FirstDay, MonthOf;
    z.MidnightShown(FirstDay(m + 1));
    DateRoundTrip(FirstDay(m + 1), n);
  }

  lemma DayBeforeDiffers(day: int)
    ensures Day(day - 1) != Day(day)
  {
    hide MonthLength, FirstDay, MonthOf;
    var m := MonthOf(day);
    FirstDayStep(m - 1);
    if FirstDay(m) <= day - 1 {
      MonthOfUnique(day - 1, m);
    } else {
      MonthOfUnique(day - 1, m - 1);
    }
  }

  /** Moving a reading of month `m`, or just beyond it, by less than a day: the month's number tells its bounds. */
  lemma MovedMonth(m: int, day: int, at: TimeOfDay, shift: int)
    requires FirstDay(m) <= day <= FirstDay(m) + 30 && -DAY < shift < DAY
    ensures var moved := At(day, at) + shift;
            Month(DayOf(moved)) == m % 12 + 1 <==> At(FirstDay(m), 0) <= moved < At(FirstDay(m + 1), 0)
  {
    hide MonthLength, FirstDay, MonthOf;
    var moved := At(day, at) + shift;
    FirstDayStep(m - 1);
    FirstDayStep(m);
    FirstDayStep(m + 1);
    MovedDay(day, at, shift);
    DayIsFrom(moved, FirstDay(m));
    DayIsFrom(moved, FirstDay(m + 1));
    hide At, DayOf;
    MonthOfUnique(DayOf(moved), if DayOf(moved) < FirstDay(m) then m - 1
                  else if DayOf(moved) < FirstDay(m + 1) then m else m + 1);
  }

  /** `time.Date` shows a reading, moved out of the gap if need be, within month `m`. */
  predicate StaysIn(z: Zone, m: int, wall: int) {
    var shown := if !z.InGap(wall) then wall else if z.late(wall) then wall - z.gap else wall + z.gap;
    At(FirstDay(m), 0) <= shown < At(FirstDay(m + 1), 0)
  }

  /** The comparison of month numbers finds exactly the readings that are shown within the month. */
  lemma ReadingMonth(z: Zone, m: int, day: int, at: TimeOfDay)
    requires z.Valid() && FirstDay(m) <= day <= FirstDay(m) + 30
    ensures Month(DayOf(z.Wall(z.Date(At(day, at))))) == m % 12 + 1 <==> StaysIn(z, m, At(day, at))
  {
    hide MonthLength, FirstDay, MonthOf, At, DayOf, Month;
    var wall := At(day, at);
    MovedMonth(m, day, at, if !z.InGap(wall) then 0 else if z.late(wall) then 0 - z.gap else z.gap);
  }

  lemma WithinMonth(m: int, day: int, at: TimeOfDay)
    requires FirstDay(m) <= day < FirstDay(m + 1)
    ensures At(FirstDay(m), 0) <= At(day, at) < At(FirstDay(m + 1), 0)
  {
    hide FirstDay;
  }

  lemma MovedDay(day: int, at: TimeOfDay, shift: int)
    requires -DAY < shift < DAY
    ensures day - 1 <= DayOf(At(day, at) + shift) <= day + 1
  {
  }

  lemma DayIsFrom(wall: int, day: int)
    ensures DayOf(wall) >= day <==> wall >= At(day, 0)
  {
  }

  /** After `lastRun` every month begins with a midnight. */
  predicate MonthsBegin(z: Zone, lastRun: Time) {
    z.MidnightsExist() || Day(z.LastGapDay()) != 1 || z.LastGapDay() <= DayOf(z.Wall(lastRun))
  }

  ghost predicate MidnightsAfter(z: Zone, month: int) {
    forall m :: m > month ==> !z.InGap(At(FirstDay(m), 0))
  }

  lemma MonthsBeginMeans(z: Zone, lastRun: Time)
    requires z.Valid()
    ensures MonthsBegin(z, lastRun) <==> MidnightsAfter(z, MonthOf(DayOf(z.Wall(lastRun))))
  {
    hide MonthLength, FirstDay, MonthOf, Zone.Wall, DayOf;
    var today, day := DayOf(z.Wall(lastRun)), z.LastGapDay();
    forall m | m > MonthOf(today) ensures z.InGap(At(FirstDay(m), 0)) ==> !MonthsBegin(z, lastRun) {
      z.MissingMidnight(FirstDay(m));
      MonthOfUnique(FirstDay(m), m);
      if FirstDay(m) <= today {
        MonthOfMonotone(FirstDay(m), today);
      }
    }
    if !MonthsBegin(z, lastRun) {
      z.MissingMidnight(day);
      LaterFirst(day, today);
      assert z.InGap(At(FirstDay(MonthOf(day)), 0));
    }
  }

  lemma LaterFirst(day: int, today: int)
    requires Day(day) == 1 && day > today
    ensures FirstDay(MonthOf(day)) == day && MonthOf(day) > MonthOf(today)
  {
    hide MonthLength, FirstDay, MonthOf;
    MonthOfMonotone(today, day);
    assert FirstDay(MonthOf(today)) <= today;
  }

  datatype MonthlyJob =
    MonthlyJob(interval: nat, days: seq<int>, daysFromEnd: seq<int>, atTimes: seq<TimeOfDay>, policy: Policy)
  {
    /** What setup guarantees; either list of days may be empty. */
    ghost predicate Valid() {
      && interval > 0 && Sorted(atTimes)
      && (forall i :: 0 <= i < |days| ==> 1 <= days[i] <= 31)
      && (forall i :: 0 <= i < |daysFromEnd| ==> -31 <= daysFromEnd[i] <= -1)
    }

    /** Day `d` of month `m` is one of the job's days. */
    ghost predicate Listed(m: int, d: int) {
      1 <= d <= MonthLength(m) && (d in days || d - MonthLength(m) - 1 in daysFromEnd)
    }

    ghost predicate Slot(z: Zone, t: Time) {
      var d := DayOf(z.Wall(t));
      ShowsAtTime(z, atTimes, t) && Listed(MonthOf(d), Day(d))
    }

    ghost function Grid(z: Zone): Grid {
      Grids.Grid(t => Slot(z, t), t => MonthOf(DayOf(z.Wall(t))), interval)
    }

    /** The days counted from the end, each found by going back from midnight on the first of the next month. */
    function CountedFromEnd(z: Zone, first: Time): seq<int> {
      seq(|daysFromEnd|, i requires 0 <= i < |daysFromEnd| => Day(DayOf(z.Wall(AddDate(z, first, 0, daysFromEnd[i])))))
    }

    function DaysFor(z: Zone, from: Time): seq<int> {
      var today := DayOf(z.Wall(from));
      SortInts(CountedFromEnd(z, z.Date(At(DayNumber(Year(today), Month(today) + 1, 1), 0))) + days)
    }

    method HandleNegativeDays(z: Zone, from: Time) returns (out: seq<int>)
      requires Valid() && z.Valid()
      ensures out == DaysFor(z, from)
      ensures CountsBack(z, MonthOf(DayOf(z.Wall(from)))) ==> DaysListed(out, MonthOf(DayOf(z.Wall(from))))
    {
      hide MonthLength, FirstDay, MonthOf, AddDate, DaysListed, CountsBack;
      var today := DayOf(z.Wall(from));
      var firstDayNextMonth := z.Date(At(DayNumber(Year(today), Month(today) + 1, 1), 0));
      out := [];
      for i := 0 to |daysFromEnd|
        invariant out == CountedFromEnd(z, firstDayNextMonth)[..i]
      {
        var day := Day(DayOf(z.Wall(AddDate(z, firstDayNextMonth, 0, daysFromEnd[i]))));
        out := out + [day];
      }
      assert out == CountedFromEnd(z, firstDayNextMonth);
      out := out + days;
      out := SortInts(out);
      if CountsBack(z, MonthOf(today)) { DaysForListed(z, from); }
    }

    /** An ordered list of day numbers that selects exactly the listed days of month `m`. */
    ghost predicate DaysListed(list: seq<int>, m: int) {
      Sorted(list) && (forall i :: 0 <= i < |list| ==> 1 <= list[i] <= 31) && ListsDaysOf(list, m)
    }

    /** What counting back relies on: month `m` ends with a midnight, and none is moved to the day before. */
    predicate CountsBack(z: Zone, m: int) {
      daysFromEnd == [] || (!z.InGap(At(FirstDay(m + 1), 0)) && z.KeepsMidnights())
    }

    lemma DaysForListed(z: Zone, from: Time)
      requires Valid() && z.Valid() && CountsBack(z, MonthOf(DayOf(z.Wall(from))))
      ensures DaysListed(DaysFor(z, from), MonthOf(DayOf(z.Wall(from))))
    {
      hide MonthLength, FirstDay, MonthOf, DayFromEnd, AddDate, Listed;
      hide Zone.Wall, Zone.Date, DayOf, At, CountsBack, DaysListed, ListsDaysOf, CountedFromEnd;
      var m := MonthOf(DayOf(z.Wall(from)));
      var fromEnd := CountedFromEnd(z, z.Date(At(FirstDay(m + 1), 0)));
      AllCountedBack(z, m);
      ListedDays(m, fromEnd);
      SortedDaysListed(fromEnd + days, m);
      hide SortInts;
    }

    lemma AllCountedBack(z: Zone, m: int)
      requires z.Valid() && CountsBack(z, m)
      ensures var fromEnd := CountedFromEnd(z, z.Date(At(FirstDay(m + 1), 0)));
              && |fromEnd| == |daysFromEnd|
              && forall j :: 0 <= j < |fromEnd| ==> fromEnd[j] == DayFromEnd(m, -daysFromEnd[j])
    {
      hide MonthLength, FirstDay, MonthOf, DayFromEnd, AddDate, Zone.Valid, Zone.Wall, Zone.Date, DayOf, At, Day;
      forall j | 0 <= j < |daysFromEnd|
        ensures CountedFromEnd(z, z.Date(At(FirstDay(m + 1), 0)))[j] == DayFromEnd(m, -daysFromEnd[j])
      {
        z.MissingMidnight(FirstDay(m + 1) + daysFromEnd[j]);
        DayCountedBack(z, m, daysFromEnd[j]);
      }
    }

    lemma SortedDaysListed(list: seq<int>, m: int)
      requires (forall d :: d in list ==> 1 <= d <= 31) && ListsDaysOf(list, m)
      ensures DaysListed(SortInts(list), m)
    {
      var sorted := SortInts(list);
      assert forall i :: 0 <= i < |sorted| ==> sorted[i] in list;
    }

    lemma ListedDays(m: int, fromEnd: seq<int>)
      requires Valid() && |fromEnd| == |daysFromEnd|
      requires forall j :: 0 <= j < |fromEnd| ==> fromEnd[j] == DayFromEnd(m, -daysFromEnd[j])
      ensures forall d :: d in fromEnd + days ==> 1 <= d <= 31
      ensures ListsDaysOf(fromEnd + days, m)
    {
      hide MonthLength, FirstDay, MonthOf, DayFromEnd;
      forall j | 0 <= j < |fromEnd|
        ensures 1 <= fromEnd[j] <= 31
        ensures 1 <= fromEnd[j] <= MonthLength(m) ==> fromEnd[j] - MonthLength(m) - 1 == daysFromEnd[j]
        ensures 1 <= daysFromEnd[j] + MonthLength(m) + 1 ==> fromEnd[j] == daysFromEnd[j] + MonthLength(m) + 1
      {
        NegativeDaysNeverAlias(m, -daysFromEnd[j]);
      }
    }

    ghost predicate After(from: Time, t: Time, firstPass: bool) {
      if firstPass then t > from else t >= from
    }

    /** `t` shows one of the at-times on a day of `list`, in the month of `from` and not before its date. */
    ghost predicate InRest(z: Zone, list: seq<int>, from: Time, t: Time) {
      var d, today := DayOf(z.Wall(t)), DayOf(z.Wall(from));
      ShowsAtTime(z, atTimes, t) && MonthOf(d) == MonthOf(today) && Day(d) in list && d >= today
    }

    ghost predicate LeastInRest(z: Zone, list: seq<int>, from: Time, firstPass: bool, r: Time) {
      if r == ZERO then forall t :: InRest(z, list, from, t) ==> !After(from, t, firstPass)
      else
        && After(from, r, firstPass) && InRest(z, list, from, r)
        && forall t :: InRest(z, list, from, t) && After(from, t, firstPass) ==> r <= t
    }

    /** What one day of the list and one at-time amount to: nothing if the date overflows into another month. */
    function MonthRunAt(z: Zone, today: int, day: int, at: TimeOfDay): Option<Time> {
      var d := DayNumber(Year(today), Month(today), day);
      if Month(DayOf(z.Wall(z.Date(At(d, at))))) != Month(today) then None else RunAt(z, policy, d, at)
    }

    predicate Comes(run: Option<Time>, from: Time, firstPass: bool) {
      run.Some? && if firstPass then run.value > from else run.value >= from
    }

    function FirstOfDay(z: Zone, times: seq<TimeOfDay>, day: int, from: Time, firstPass: bool): Option<Time> {
      if times == [] then None
      else
        var run := MonthRunAt(z, DayOf(z.Wall(from)), day, times[0]);
        if Comes(run, from, firstPass) then run else FirstOfDay(z, times[1..], day, from, firstPass)
    }

    /** The first run on a listed day that is not before the date of `from`. */
    function FirstOfMonth(z: Zone, list: seq<int>, from: Time, firstPass: bool): Option<Time> {
      if list == [] then None
      else
        var run := if list[0] >= Day(DayOf(z.Wall(from))) then FirstOfDay(z, atTimes, list[0], from, firstPass)
                   else None;
        if run.Some? then run else FirstOfMonth(z, list[1..], from, firstPass)
    }

    function OrZero(run: Option<Time>): Time {
      if run.Some? then run.value else ZERO
    }

    method NextMonthDayAtTime(z: Zone, lastRun: Time, list: seq<int>, firstPass: bool) returns (r: Time)
      requires z.Valid()
      ensures r == OrZero(FirstOfMonth(z, list, lastRun, firstPass))
      ensures (forall i :: 0 <= i < |list| ==> 1 <= list[i] <= 31) ==>
                exists run :: MonthTaken(z, list, lastRun, firstPass, run) && r == OrZero(run)
    {
      hide MonthLength, FirstDay, MonthOf, MonthTaken;
      if forall i :: 0 <= i < |list| ==> 1 <= list[i] <= 31 { FirstOfMonthTaken(z, list, 0, lastRun, firstPass); }
      var today := DayOf(z.Wall(lastRun));
      for i := 0 to |list|
        invariant FirstOfMonth(z, list, lastRun, firstPass) == FirstOfMonth(z, list[i..], lastRun, firstPass)
      {
        var day := list[i];
        assert list[i..][1..] == list[i + 1..];
        if day >= Day(today) {
          for j := 0 to |atTimes|
            invariant FirstOfDay(z, atTimes, day, lastRun, firstPass) ==
                      FirstOfDay(z, atTimes[j..], day, lastRun, firstPass)
          {
            var at := atTimes[j];
            var d := DayNumber(Year(today), Month(today), day);
            var atDate := z.Date(At(d, at));
            z.NormalisedIsInGap(d, at);
            assert atTimes[j..][1..] == atTimes[j + 1..];
            if Month(DayOf(z.Wall(atDate))) != Month(today) {
              continue;
            }
            if ClockOf(z.Wall(atDate)) != at {
              if policy.Skip? {
                continue;
              }
              if policy.RunAfterTransition? {
                atDate := AfterTransition(atDate, ClockOf(z.Wall(atDate)), at);
              }
            }
            if firstPass && atDate > lastRun {
              return atDate;
            } else if !firstPass && atDate >= lastRun {
              return atDate;
            }
          }
        }
      }
      return ZERO;
    }

    /** Where readings are kept that is the least listed instant in the rest of the month. */
    lemma {:induction false} FirstOfMonthIsLeast(z: Zone, list: seq<int>, i: nat, from: Time, firstPass: bool)
      requires Valid() && z.Valid() && KeepsAll(z)
      requires from >= ZERO && (firstPass || from > ZERO) && i <= |list|
      requires Sorted(list) && forall k :: 0 <= k < |list| ==> 1 <= list[k] <= 31
      requires forall t :: InRest(z, list[..i], from, t) ==> !After(from, t, firstPass)
      ensures LeastInRest(z, list, from, firstPass, OrZero(FirstOfMonth(z, list[i..], from, firstPass)))
      decreases |list| - i
    {
      hide MonthLength, FirstDay, MonthOf;
      if i == |list| {
        assert list[..i] == list;
      } else {
        assert list[i..][1..] == list[i + 1..];
        var today, day := DayOf(z.Wall(from)), list[i];
        if day >= Day(today) {
          var k := FirstOfDayScan(z, 0, day, from, firstPass);
          OverflowDay(today, day);
          var run := FirstOfDay(z, atTimes, day, from, firstPass);
          if run.Some? {
            FoundInRest(z, list, i, k, from, firstPass, run.value);
            return;
          }
        }
        DayDone(z, list, i, from, firstPass);
        FirstOfMonthIsLeast(z, list, i + 1, from, firstPass);
      }
    }

    /** Step `k` through the at-times of a day of this month finds the first run, or all are passed over. */
    lemma {:induction false} FirstOfDayScan(z: Zone, j: nat, day: int, from: Time, firstPass: bool) returns (k: nat)
      requires z.Valid() && KeepsAll(z) && j <= |atTimes| && Day(DayOf(z.Wall(from))) <= day <= 31
      requires InMonth(DayOf(z.Wall(from)), day) ==> PassedOver(z, j, day, from, firstPass)
      ensures atTimes[0..] == atTimes
      ensures var today := DayOf(z.Wall(from));
              match FirstOfDay(z, atTimes[j..], day, from, firstPass)
              case None => InMonth(today, day) ==> PassedOver(z, |atTimes|, day, from, firstPass)
              case Some(r) =>
                && InMonth(today, day) && k < |atTimes| && After(from, r, firstPass)
                && z.Wall(r) == At(today - Day(today) + day, atTimes[k]) && PassedOver(z, k, day, from, firstPass)
      decreases |atTimes| - j
    {
      hide MonthLength, FirstDay, MonthOf, MonthRunAt, InMonth, Zone.Wall, At, DayOf;
      k := j;
      if j < |atTimes| {
        var today := DayOf(z.Wall(from));
        ShownByRun(z, today, day, atTimes[j]);
        assert atTimes[j..][1..] == atTimes[j + 1..];
        if !Comes(MonthRunAt(z, today, day, atTimes[j]), from, firstPass) {
          k := FirstOfDayScan(z, j + 1, day, from, firstPass);
        }
      }
    }

    /** Where readings are kept the run of an at-time is the instant that shows it on that day of the month. */
    lemma ShownByRun(z: Zone, today: int, day: int, at: TimeOfDay)
      requires z.Valid() && KeepsAll(z) && at in atTimes && Day(today) <= day <= 31
      ensures var run := MonthRunAt(z, today, day, at);
              && (run.Some? ==> InMonth(today, day) && z.Wall(run.value) == At(today - Day(today) + day, at))
              && (InMonth(today, day) ==>
                    forall t :: z.Wall(t) == At(today - Day(today) + day, at) ==> run == Some(t))
    {
      hide MonthLength, FirstDay, MonthOf;
      var d := today - Day(today) + day;
      OverflowDay(today, day);
      ClockOfAt(d, at);
      assert d == DayNumber(Year(today), Month(today), day);
      hide InMonth, At, DayOf;
      if !KeepsReadings(z, policy) {
        NeverInGapMeans(z, atTimes);
        assert Clear(z, atTimes, d);
      }
      forall t ensures z.Wall(t) == At(d, at) <==> !z.InGap(At(d, at)) && t == z.Date(At(d, at)) {
        z.DateInvertsWall(At(d, at), t);
      }
    }

    /**
      A day of the month loses its run exactly when its at-time lies in the gap and is skipped, or was moved
      out of the month; the month is compared before any adjustment under RunAfterTransition.
    */
    lemma MonthTestDrops(z: Zone, today: int, day: int, at: TimeOfDay)
      requires z.Valid() && 1 <= day <= MonthLength(MonthOf(today))
      ensures var m := MonthOf(today);
              var wall := At(FirstDay(m) + day - 1, at);
              MonthRunAt(z, today, day, at).None? <==>
              z.InGap(wall) && (policy.Skip? || if z.late(wall) then wall - z.gap < At(FirstDay(m), 0)
                                                  else wall + z.gap >= At(FirstDay(m + 1), 0))
    {
      hide MonthLength, FirstDay, MonthOf, At, DayOf, AfterTransition, ClockOf, Zone.Valid;
      var m := MonthOf(today);
      var d := FirstDay(m) + day - 1;
      assert DayNumber(Year(today), Month(today), day) == d;
      FirstDayStep(m);
      FirstDayStep(m + 1);
      ReadingMonth(z, m, d, at);
      WithinMonth(m, d, at);
      hide Month, RunAt;
    }

    /** `t` is the run of an at-time on a day of the month of `today`, if `time.Date` keeps it in that month. */
    ghost predicate MonthRuns(z: Zone, today: int, day: int, at: TimeOfDay, t: Time) {
      var d := FirstDay(MonthOf(today)) + day - 1;
      Runs(z, policy, d, at, t) && StaysIn(z, MonthOf(today), At(d, at))
    }

    lemma MonthRunIs(z: Zone, today: int, day: int, at: TimeOfDay, t: Time)
      requires z.Valid() && 1 <= day <= 31
      ensures MonthRuns(z, today, day, at, t) <==> MonthRunAt(z, today, day, at) == Some(t)
    {
      hide MonthLength, FirstDay, MonthOf, At, DayOf, Runs, RunAt, Zone.Valid, StaysIn;
      var d := FirstDay(MonthOf(today)) + day - 1;
      assert DayNumber(Year(today), Month(today), day) == d;
      ReadingMonth(z, MonthOf(today), d, at);
      RunAtIs(z, policy, d, at, t);
    }

    /** The first `n` at-times have nothing to run on that day after `from`, or from it on. */
    ghost predicate NoneIn(z: Zone, day: int, n: nat, from: Time, firstPass: bool)
      requires n <= |atTimes|
    {
      forall j, t :: 0 <= j < n && MonthRuns(z, DayOf(z.Wall(from)), day, atTimes[j], t) ==> !After(from, t, firstPass)
    }

    /** Nor have the first `n` days of the list, those before the date of `from` aside. */
    ghost predicate NoneListed(z: Zone, list: seq<int>, n: nat, from: Time, firstPass: bool)
      requires n <= |list|
    {
      forall i :: 0 <= i < n && list[i] >= Day(DayOf(z.Wall(from))) ==>
                    NoneIn(z, list[i], |atTimes|, from, firstPass)
    }

    ghost predicate TakenOn(z: Zone, day: int, j: int, from: Time, firstPass: bool, r: Time) {
      && 0 <= j < |atTimes| && MonthRuns(z, DayOf(z.Wall(from)), day, atTimes[j], r) && After(from, r, firstPass)
      && NoneIn(z, day, j, from, firstPass)
    }

    ghost predicate TakenFrom(z: Zone, list: seq<int>, i: int, j: int, from: Time, firstPass: bool, r: Time) {
      && 0 <= i < |list| && list[i] >= Day(DayOf(z.Wall(from)))
      && TakenOn(z, list[i], j, from, firstPass, r) && NoneListed(z, list, i, from, firstPass)
    }

    /** The run of the first at-time of the first day, both in list order, that has one; None if none has. */
    ghost predicate MonthTaken(z: Zone, list: seq<int>, from: Time, firstPass: bool, run: Option<Time>) {
      match run
      case None => NoneListed(z, list, |list|, from, firstPass)
      case Some(r) => exists i, j :: TakenFrom(z, list, i, j, from, firstPass, r)
    }

    lemma {:induction false} FirstOfDayTaken(z: Zone, j: nat, day: int, from: Time, firstPass: bool) returns (k: nat)
      requires z.Valid() && 1 <= day <= 31 && j <= |atTimes| && NoneIn(z, day, j, from, firstPass)
      ensures atTimes[0..] == atTimes
      ensures match FirstOfDay(z, atTimes[j..], day, from, firstPass)
              case None => NoneIn(z, day, |atTimes|, from, firstPass)
              case Some(r) => TakenOn(z, day, k, from, firstPass, r)
      decreases |atTimes| - j
    {
      hide MonthRuns, MonthRunAt, DayOf, Zone.Wall;
      k := j;
      if j < |atTimes| {
        var run := MonthRunAt(z, DayOf(z.Wall(from)), day, atTimes[j]);
        assert atTimes[j..][1..] == atTimes[j + 1..];
        forall t ensures MonthRuns(z, DayOf(z.Wall(from)), day, atTimes[j], t) <==> run == Some(t) {
          MonthRunIs(z, DayOf(z.Wall(from)), day, atTimes[j], t);
        }
        if !Comes(run, from, firstPass) {
          k := FirstOfDayTaken(z, j + 1, day, from, firstPass);
        }
      }
    }

    lemma {:induction false} FirstOfMonthTaken(z: Zone, list: seq<int>, i: nat, from: Time, firstPass: bool)
      requires z.Valid() && i <= |list| && NoneListed(z, list, i, from, firstPass)
      requires forall k :: 0 <= k < |list| ==> 1 <= list[k] <= 31
      ensures MonthTaken(z, list, from, firstPass, FirstOfMonth(z, list[i..], from, firstPass))
      ensures list[0..] == list
      decreases |list| - i
    {
      hide NoneIn, TakenOn, FirstOfDay, DayOf, Zone.Wall, Day;
      if i < |list| {
        assert list[i..][1..] == list[i + 1..];
        if list[i] >= Day(DayOf(z.Wall(from))) {
          NoneYet(z, list[i], from, firstPass);
          var k := FirstOfDayTaken(z, 0, list[i], from, firstPass);
          var run := FirstOfDay(z, atTimes, list[i], from, firstPass);
          if run.Some? {
            assert TakenFrom(z, list, i, k, from, firstPass, run.value);
            return;
          }
        }
        FirstOfMonthTaken(z, list, i + 1, from, firstPass);
      }
    }

    lemma NoneYet(z: Zone, day: int, from: Time, firstPass: bool)
      ensures NoneIn(z, day, 0, from, firstPass)
    {
    }

    ghost predicate PassedOver(z: Zone, j: nat, day: int, from: Time, firstPass: bool)
      requires j <= |atTimes|
    {
      var today := DayOf(z.Wall(from));
      forall t, k :: 0 <= k < j && z.Wall(t) == At(today - Day(today) + day, atTimes[k]) ==> !After(from, t, firstPass)
    }

    predicate InMonth(today: int, day: int) {
      MonthOf(today - Day(today) + day) == MonthOf(today)
    }

    lemma OverflowDay(today: int, day: int)
      requires Day(today) <= day <= 31
      ensures Month(today - Day(today) + day) == Month(today) <==> InMonth(today, day)
      ensures InMonth(today, day) <==> day <= MonthLength(MonthOf(today))
      ensures InMonth(today, day) ==> Day(today - Day(today) + day) == day
    {
      hide MonthLength, FirstDay, MonthOf;
      var m := MonthOf(today);
      var d := today - Day(today) + day;
      FirstDayStep(m);
      if day <= MonthLength(m) {
        MonthOfUnique(d, m);
      } else {
        MonthOfUnique(d, m + 1);
      }
    }

    lemma DayDone(z: Zone, list: seq<int>, i: nat, from: Time, firstPass: bool)
      requires Valid() && z.Valid() && i < |list| && 1 <= list[i] <= 31
      requires forall t :: InRest(z, list[..i], from, t) ==> !After(from, t, firstPass)
      requires var today := DayOf(z.Wall(from));
               list[i] >= Day(today) && InMonth(today, list[i]) ==>
                 forall t, k :: 0 <= k < |atTimes| && z.Wall(t) == At(today - Day(today) + list[i], atTimes[k]) ==>
                                  !After(from, t, firstPass)
      ensures forall t :: InRest(z, list[..i + 1], from, t) ==> !After(from, t, firstPass)
    {
      hide MonthLength, FirstDay, MonthOf;
      assert list[..i + 1] == list[..i] + [list[i]];
      var today := DayOf(z.Wall(from));
      forall t | InRest(z, list[..i + 1], from, t) && !InRest(z, list[..i], from, t)
        ensures !After(from, t, firstPass) {
        var d := DayOf(z.Wall(t));
        assert Day(d) == list[i] && d == today - Day(today) + list[i];
        var k :| 0 <= k < |atTimes| && z.Wall(t) == At(d, atTimes[k]);
      }
    }

    lemma FoundInRest(z: Zone, list: seq<int>, i: nat, j: nat, from: Time, firstPass: bool, r: Time)
      requires Valid() && z.Valid() && i < |list| && j < |atTimes| && After(from, r, firstPass) && r != ZERO
      requires Sorted(list) && 1 <= list[i] <= 31
      requires var today := DayOf(z.Wall(from));
               list[i] >= Day(today) && InMonth(today, list[i])
               && z.Wall(r) == At(today - Day(today) + list[i], atTimes[j])
      requires PassedOver(z, j, list[i], from, firstPass)
      requires forall t :: InRest(z, list[..i], from, t) ==> !After(from, t, firstPass)
      ensures LeastInRest(z, list, from, firstPass, r)
    {
      hide MonthLength, FirstDay, MonthOf, Zone.Wall, DayOf, At, InMonth, PassedOver, ShowsAtTime;
      var today := DayOf(z.Wall(from));
      var d := today - Day(today) + list[i];
      ShownInRest(z, list, i, j, from, r);
      forall t | InRest(z, list, from, t) && After(from, t, firstPass) ensures r <= t {
        NotAmongFirst(list, i, Day(DayOf(z.Wall(t))));
        if DayOf(z.Wall(t)) == d {
          NoEarlierAtTime(z, list[i], j, from, firstPass, r, t);
        } else {
          LaterDay(z, r, t);
        }
      }
    }

    lemma ShownInRest(z: Zone, list: seq<int>, i: nat, j: nat, from: Time, r: Time)
      requires i < |list| && j < |atTimes| && 1 <= list[i] <= 31
      requires var today := DayOf(z.Wall(from));
               list[i] >= Day(today) && InMonth(today, list[i])
               && z.Wall(r) == At(today - Day(today) + list[i], atTimes[j])
      ensures InRest(z, list, from, r)
      ensures var today := DayOf(z.Wall(from));
              var d := today - Day(today) + list[i];
              DayOf(z.Wall(r)) == d && Day(d) == list[i]
    {
      hide MonthLength, FirstDay, MonthOf, Zone.Wall;
      var today := DayOf(z.Wall(from));
      ClockOfAt(today - Day(today) + list[i], atTimes[j]);
      OverflowDay(today, list[i]);
    }

    lemma NoEarlierAtTime(z: Zone, day: int, j: nat, from: Time, firstPass: bool, r: Time, t: Time)
      requires Valid() && j < |atTimes| && ShowsAtTime(z, atTimes, t) && After(from, t, firstPass)
      requires PassedOver(z, j, day, from, firstPass)
      requires var d := DayOf(z.Wall(from)) - Day(DayOf(z.Wall(from))) + day;
               DayOf(z.Wall(t)) == d && z.Wall(r) == At(d, atTimes[j])
      ensures r <= t
    {
      var k :| 0 <= k < |atTimes| && z.Wall(t) == At(DayOf(z.Wall(t)), atTimes[k]);
      assert k >= j && atTimes[j] <= atTimes[k];
      z.WallMonotone(t, r);
    }

    lemma NotAmongFirst(list: seq<int>, i: nat, x: int)
      requires Sorted(list) && i < |list| && x in list && x !in list[..i]
      ensures list[i] <= x
    {
      var l :| 0 <= l < |list| && list[l] == x;
      assert forall q :: 0 <= q < i ==> list[..i][q] == list[q] && list[q] in list[..i];
    }

    // ---- The search over months ----

    ghost predicate HasDay(m: int) {
      exists d :: Listed(m, d)
    }

    lemma LongerMonthHasDay(m: int, m': int)
      requires HasDay(m) && MonthLength(m) <= MonthLength(m')
      ensures HasDay(m')
    {
      var d :| Listed(m, d);
      if d in days {
        assert Listed(m', d);
      } else {
        assert Listed(m', d - MonthLength(m) + MonthLength(m'));
      }
    }

    /**
      400 strides decide the whole infinite search, and with one to spare: when any month of the class
      has a listed day, two different ones of the next 400 strides do.
    */
    lemma FourHundredStridesDecide(m: int, k: nat) returns (i: nat, j: nat)
      requires interval > 0 && k >= 1 && HasDay(m + k * interval)
      ensures 1 <= i <= 400 && 1 <= j <= 400 && i != j
      ensures HasDay(m + i * interval) && HasDay(m + j * interval)
    {
      hide MonthLength;
      if interval % 12 == 0 {
        i := (k - 1) % 400 + 1;
        WholeYears(m, interval, k, i, (k - 1) / 400);
        LongerMonthHasDay(m + k * interval, m + i * interval);
        j := SecondStride(m, interval, i);
        LongerMonthHasDay(m + i * interval, m + j * interval);
      } else {
        i := LongMonthAhead(m, interval);
        LongerMonthHasDay(m + k * interval, m + i * interval);
        j := LongMonthAhead(m + 12 * interval, interval);
        Distribute(12, j, interval);
        j := j + 12;
        LongerMonthHasDay(m + k * interval, m + j * interval);
      }
    }

    /** The rest of the month of `from`. */
    function RestOfMonth(z: Zone, from: Time, firstPass: bool): Time {
      OrZero(FirstOfMonth(z, DaysFor(z, from), from, firstPass))
    }

    /** At most `n` strides, each starting where `AddDate` leads from the one before. */
    function Strides(z: Zone, from: Time, n: nat): Time
      decreases n
    {
      if n == 0 then ZERO
      else
        var r := RestOfMonth(z, from, false);
        if r != ZERO then r else Strides(z, AddDate(z, from, interval, 0), n - 1)
    }

    function FirstStride(z: Zone, lastRun: Time): Time {
      var today := DayOf(z.Wall(lastRun));
      z.Date(At(DayNumber(Year(today), Month(today) + interval, 1), 0))
    }

    function Search(z: Zone, lastRun: Time): Time {
      var r := RestOfMonth(z, lastRun, true);
      if r != ZERO then r else Strides(z, FirstStride(z, lastRun), 400)
    }

    /** What the month of `from` has to offer, selected from the days found for it. */
    ghost predicate Answers(z: Zone, from: Time, firstPass: bool, r: Time) {
      exists run :: MonthTaken(z, DaysFor(z, from), from, firstPass, run) && OrZero(run) == r
    }

    ghost predicate Follows(z: Zone, starts: seq<Time>, i: int)
      requires 0 < i < |starts|
    {
      starts[i] == AddDate(z, starts[i - 1], interval, 0)
    }

    /** The strides from `from` on: all but the last found nothing, and the last one found `r`. */
    ghost predicate StridesTo(z: Zone, starts: seq<Time>, r: Time) {
      && starts != [] && (forall i :: 0 < i < |starts| ==> Follows(z, starts, i))
      && (forall i :: 0 <= i < |starts| - 1 ==> Answers(z, starts[i], false, ZERO))
      && Answers(z, starts[|starts| - 1], false, r)
    }

    /** The answer is that of the last run's own month, or of the first of 400 strides that has one. */
    ghost predicate FoundBy(z: Zone, lastRun: Time, starts: seq<Time>, r: Time) {
      if starts == [] then r != ZERO && Answers(z, lastRun, true, r)
      else
        && Answers(z, lastRun, true, ZERO) && StridesTo(z, starts, r)
        && starts[0] == z.Date(At(FirstDay(MonthOf(DayOf(z.Wall(lastRun))) + interval), 0))
        && |starts| <= 400 && (r == ZERO ==> |starts| == 400)
    }

    lemma DaysInRange(z: Zone, from: Time)
      requires Valid()
      ensures forall i :: 0 <= i < |DaysFor(z, from)| ==> 1 <= DaysFor(z, from)[i] <= 31
    {
      hide MonthLength, FirstDay, MonthOf, AddDate, DayOf, Zone.Wall, Zone.Date, At;
      var list := DaysFor(z, from);
      forall i | 0 <= i < |list| ensures 1 <= list[i] <= 31 {
        var today := DayOf(z.Wall(from));
        assert list[i] in CountedFromEnd(z, z.Date(At(DayNumber(Year(today), Month(today) + 1, 1), 0))) + days;
      }
    }

    lemma RestAnswers(z: Zone, from: Time, firstPass: bool)
      requires Valid() && z.Valid()
      ensures Answers(z, from, firstPass, RestOfMonth(z, from, firstPass))
    {
      hide MonthTaken, FirstOfMonth, DaysFor;
      DaysInRange(z, from);
      var list := DaysFor(z, from);
      FirstOfMonthTaken(z, list, 0, from, firstPass);
    }

    lemma {:induction false} StridesFound(z: Zone, from: Time, n: nat) returns (starts: seq<Time>)
      requires Valid() && z.Valid() && n > 0
      ensures StridesTo(z, starts, Strides(z, from, n)) && starts[0] == from
      ensures |starts| <= n && (Strides(z, from, n) == ZERO ==> |starts| == n)
      decreases n
    {
      hide Answers, RestOfMonth, AddDate;
      RestAnswers(z, from, false);
      starts := [from];
      if RestOfMonth(z, from, false) == ZERO && n > 1 {
        var rest := StridesFound(z, AddDate(z, from, interval, 0), n - 1);
        starts := starts + rest;
        forall i | 0 < i < |starts| ensures Follows(z, starts, i) {
          assert i > 1 ==> Follows(z, rest, i - 1);
        }
      }
    }

    lemma SearchFound(z: Zone, lastRun: Time)
      requires Valid() && z.Valid()
      ensures exists starts :: FoundBy(z, lastRun, starts, Search(z, lastRun))
    {
      hide Answers, RestOfMonth, Strides, Follows, MonthLength, FirstDay, MonthOf, Zone.Date;
      RestAnswers(z, lastRun, true);
      if RestOfMonth(z, lastRun, true) != ZERO {
        assert FoundBy(z, lastRun, [], Search(z, lastRun));
      } else {
        var starts := StridesFound(z, FirstStride(z, lastRun), 400);
        assert starts != [];
        assert FoundBy(z, lastRun, starts, Search(z, lastRun));
      }
    }

    /**
      monthlyJob.next: the least later slot of the class, and zero exactly when there is none at all, in
      a fixed-offset location under any policy, and under Skip wherever the midnights it needs are there.
    */
    method Next(z: Zone, lastRun: Time) returns (r: Time)
      requires Valid() && z.Valid() && lastRun >= ZERO
      ensures r == Search(z, lastRun) && exists starts :: FoundBy(z, lastRun, starts, r)
      ensures KeepsAll(z) && Sound(z, lastRun) ==> IsNext(Grid(z), lastRun, r)
    {
      hide MonthLength, FirstDay, MonthOf, AddDate, FirstOfMonth, DaysFor, IsNext, Grid, DaysListed, Sound, CountsBack;
      if KeepsAll(z) && Sound(z, lastRun) { SearchIsNext(z, lastRun); }
      hide FoundBy, KeepsAll;
      SearchFound(z, lastRun);
      var list := HandleNegativeDays(z, lastRun);
      r := NextMonthDayAtTime(z, lastRun, list, true);
      if r != ZERO {
        return;
      }
      var today := DayOf(z.Wall(lastRun));
      var from := z.Date(At(DayNumber(Year(today), Month(today) + interval, 1), 0));
      var i := 0;
      while r == ZERO && i < 400
        invariant 0 <= i <= 400
        invariant Search(z, lastRun) == if r != ZERO then r else Strides(z, from, 400 - i)
      {
        list := HandleNegativeDays(z, from);
        r := NextMonthDayAtTime(z, from, list, false);
        from := AddDate(z, from, interval, 0);
        i := i + 1;
      }
    }

    /** A fixed offset, or Skip, or at-times that never lie in the gap. */
    predicate KeepsAll(z: Zone) {
      KeepsReadings(z, policy) || NeverInGap(z, atTimes)
    }

    /** The midnights a search from `lastRun` needs: those of later months, and those it counts back to. */
    predicate Sound(z: Zone, lastRun: Time) {
      MonthsBegin(z, lastRun) && (daysFromEnd == [] || z.KeepsMidnights())
    }

    /** Month `m` and all later ones begin and end with a midnight, and the days counted back are right. */
    ghost predicate SoundFrom(z: Zone, m: int) {
      MidnightsAfter(z, m) && (daysFromEnd == [] || z.KeepsMidnights())
    }

    lemma SoundOnwards(z: Zone, lastRun: Time)
      requires z.Valid() && Sound(z, lastRun)
      ensures SoundFrom(z, MonthOf(DayOf(z.Wall(lastRun))))
    {
      MonthsBeginMeans(z, lastRun);
      hide MonthLength, FirstDay, MonthOf, MonthsBegin, MidnightsAfter;
    }

    lemma SearchIsNext(z: Zone, lastRun: Time)
      requires Valid() && z.Valid() && lastRun >= ZERO && KeepsAll(z) && Sound(z, lastRun)
      ensures IsNext(Grid(z), lastRun, Search(z, lastRun))
    {
      hide MonthLength, FirstDay, MonthOf, FirstOfMonth, DaysFor, IsNext, Reached, LeastInMonth, LeastInRest;
      var m := MonthOf(DayOf(z.Wall(lastRun)));
      SoundOnwards(z, lastRun);
      hide SoundFrom, Sound;
      RestIsLeast(z, lastRun, true);
      ReachedThisMonth(z, lastRun);
      ThisMonth(z, lastRun, DaysFor(z, lastRun), RestOfMonth(z, lastRun, true));
      Conclude(z, lastRun, m, RestOfMonth(z, lastRun, true));
      if RestOfMonth(z, lastRun, true) == ZERO {
        StridesAreNext(z, lastRun, 0);
        assert m + (0 + 1) * interval == m + interval;
      }
    }

    /** Stride `k` found nothing although its month has a listed day: only the gap's own month can do that. */
    ghost predicate PassedMonth(z: Zone, m: int, k: nat) {
      atTimes != [] && HasDay(m + k * interval) ==> m + k * interval == MonthOf(z.LastGapDay())
    }

    lemma {:induction false} StridesAreNext(z: Zone, lastRun: Time, i: nat)
      requires Valid() && z.Valid() && lastRun >= ZERO && KeepsAll(z) && i <= 400
      requires SoundFrom(z, MonthOf(DayOf(z.Wall(lastRun))))
      requires var m := MonthOf(DayOf(z.Wall(lastRun)));
               Reached(z, lastRun, m + (i + 1) * interval) && forall k :: 1 <= k <= i ==> PassedMonth(z, m, k)
      ensures var p := MonthOf(DayOf(z.Wall(lastRun))) + (i + 1) * interval;
              IsNext(Grid(z), lastRun, Strides(z, z.Date(At(FirstDay(p), 0)), 400 - i))
      decreases 400 - i
    {
      hide MonthLength, FirstDay, MonthOf, FirstOfMonth, DaysFor, IsNext;
      hide Reached, LeastInMonth, LeastInRest, AddDate, HasDay, Grid;
      var m := MonthOf(DayOf(z.Wall(lastRun)));
      MulMonotone(1, i + 1, interval);
      assert SoundFrom(z, m + (i + 1) * interval);
      assert !z.InGap(At(FirstDay(m + (i + 1) * interval), 0));
      hide SoundFrom;
      var p := m + (i + 1) * interval;
      if i == 400 {
        Exhausted(z, lastRun, p);
      } else {
        var from := z.Date(At(FirstDay(p), 0));
        var r := RestOfMonth(z, from, false);
        MonthStart(z, lastRun, p);
        RestIsLeast(z, from, false);
        WholeMonth(z, lastRun, p, DaysFor(z, from), r);
        Conclude(z, lastRun, p, r);
        if r == ZERO {
          NothingInMonth(z, lastRun, p);
          NextFirstOfMonth(z, p);
          Distribute(i + 1, 1, interval);
          StridesAreNext(z, lastRun, i + 1);
        }
      }
    }

    lemma RestIsLeast(z: Zone, from: Time, firstPass: bool)
      requires Valid() && z.Valid() && KeepsAll(z) && SoundFrom(z, MonthOf(DayOf(z.Wall(from))))
      requires from >= ZERO && (firstPass || from > ZERO)
      ensures LeastInRest(z, DaysFor(z, from), from, firstPass, RestOfMonth(z, from, firstPass))
      ensures ListsDaysOf(DaysFor(z, from), MonthOf(DayOf(z.Wall(from))))
    {
      hide MonthLength, FirstDay, MonthOf, DaysFor, FirstOfMonth, LeastInRest;
      var list := DaysFor(z, from);
      assert CountsBack(z, MonthOf(DayOf(z.Wall(from))));
      DaysForListed(z, from);
      FirstOfMonthIsLeast(z, list, 0, from, firstPass);
      assert list[0..] == list;
    }

    ghost predicate Reached(z: Zone, from: Time, month: int)
      requires interval > 0
    {
      Grids.Reached(Grid(z), from, month)
    }

    ghost predicate LeastInMonth(z: Zone, month: int, from: Time, r: Time) {
      if r == ZERO then forall t :: Slot(z, t) && MonthOf(DayOf(z.Wall(t))) == month ==> t <= from
      else
        && r > from && Slot(z, r) && MonthOf(DayOf(z.Wall(r))) == month
        && forall t :: Slot(z, t) && MonthOf(DayOf(z.Wall(t))) == month && t > from ==> r <= t
    }

    lemma GridIsValid(z: Zone)
      requires Valid() && z.Valid()
      ensures Grid(z).Valid()
    {
      hide MonthLength, FirstDay, MonthOf, Zone.Wall, DayOf;
      forall a: Time, b: Time | a <= b ensures MonthOf(DayOf(z.Wall(a))) <= MonthOf(DayOf(z.Wall(b))) {
        if a < b { NotEarlierDay(z, a, b); }
        MonthOfMonotone(DayOf(z.Wall(a)), DayOf(z.Wall(b)));
      }
    }

    lemma ReachedThisMonth(z: Zone, from: Time)
      requires Valid() && z.Valid()
      ensures Reached(z, from, MonthOf(DayOf(z.Wall(from))))
    {
      GridIsValid(z);
      StartHere(Grid(z), from);
    }

    lemma Conclude(z: Zone, from: Time, month: int, r: Time)
      requires Valid() && z.Valid() && Reached(z, from, month) && LeastInMonth(z, month, from, r)
      ensures if r == ZERO then Reached(z, from, month + interval) else IsNext(Grid(z), from, r)
    {
      GridIsValid(z);
      assert LeastIn(Grid(z), month, from, r) by {
        assert forall t :: Grid(z).slot(t) <==> Slot(z, t);
      }
      ConcludePeriod(Grid(z), from, month, r);
    }

    ghost predicate ListsDaysOf(list: seq<int>, m: int) {
      forall d :: 1 <= d <= MonthLength(m) ==> (d in list <==> Listed(m, d))
    }

    lemma ThisMonth(z: Zone, from: Time, list: seq<int>, r: Time)
      requires Valid() && z.Valid() && LeastInRest(z, list, from, true, r)
      requires ListsDaysOf(list, MonthOf(DayOf(z.Wall(from))))
      ensures LeastInMonth(z, MonthOf(DayOf(z.Wall(from))), from, r)
    {
      hide MonthLength, FirstDay, MonthOf;
      var m := MonthOf(DayOf(z.Wall(from)));
      forall t: Time | t > from ensures Slot(z, t) && MonthOf(DayOf(z.Wall(t))) == m <==> InRest(z, list, from, t) {
        NotEarlierDay(z, from, t);
        hide Zone.Wall, DayOf;
      }
    }

    /** Midnight on the first of a later month is after `lastRun`, so every slot of that month still counts. */
    lemma MonthStart(z: Zone, lastRun: Time, p: int)
      requires !z.InGap(At(FirstDay(p), 0)) && p > MonthOf(DayOf(z.Wall(lastRun)))
      ensures var from := z.Date(At(FirstDay(p), 0));
              && from > lastRun && DayOf(z.Wall(from)) == FirstDay(p) && MonthOf(FirstDay(p)) == p
    {
      hide MonthLength, FirstDay, MonthOf;
      var today := DayOf(z.Wall(lastRun));
      z.MidnightShown(FirstDay(p));
      ClockOfAt(FirstDay(p), 0);
      MonthOfUnique(FirstDay(p), p);
      if FirstDay(p) <= today {
        MonthOfMonotone(FirstDay(p), today);
      }
      z.WallMonotone(lastRun, z.Date(At(FirstDay(p), 0)));
    }

    lemma NextFirstOfMonth(z: Zone, p: int)
      requires !z.InGap(At(FirstDay(p), 0))
      ensures AddDate(z, z.Date(At(FirstDay(p), 0)), interval, 0) == z.Date(At(FirstDay(p + interval), 0))
    {
      hide MonthLength, FirstDay, MonthOf;
      z.MidnightShown(FirstDay(p));
      ClockOfAt(FirstDay(p), 0);
      MonthOfUnique(FirstDay(p), p);
      assert 12 * Year(FirstDay(p)) + Month(FirstDay(p)) - 1 == p;
    }

    lemma WholeMonth(z: Zone, lastRun: Time, p: int, list: seq<int>, r: Time)
      requires Valid() && z.Valid() && !z.InGap(At(FirstDay(p), 0))
      requires lastRun >= ZERO && p > MonthOf(DayOf(z.Wall(lastRun)))
      requires LeastInRest(z, list, z.Date(At(FirstDay(p), 0)), false, r) && ListsDaysOf(list, p)
      ensures LeastInMonth(z, p, lastRun, r)
    {
      hide MonthLength, FirstDay, MonthOf;
      MonthStart(z, lastRun, p);
      forall t ensures Slot(z, t) && MonthOf(DayOf(z.Wall(t))) == p <==>
                       InRest(z, list, z.Date(At(FirstDay(p), 0)), t) {
        SlotOfMonth(z, p, list, t);
      }
      forall t | Slot(z, t) && MonthOf(DayOf(z.Wall(t))) == p ensures t >= z.Date(At(FirstDay(p), 0)) {
        SlotOfMonth(z, p, list, t);
      }
      hide Slot, InRest, ListsDaysOf;
    }

    lemma OnOrAfter(z: Zone, t: Time, from: Time, day: int)
      requires z.Wall(from) == At(day, 0)
      ensures DayOf(z.Wall(t)) >= day ==> t >= from
    {
      z.WallMonotone(t, from);
    }

    /** The slots of a month are what its list selects from midnight on the first. */
    lemma SlotOfMonth(z: Zone, p: int, list: seq<int>, t: Time)
      requires !z.InGap(At(FirstDay(p), 0)) && ListsDaysOf(list, p)
      ensures var from := z.Date(At(FirstDay(p), 0));
              && (Slot(z, t) && MonthOf(DayOf(z.Wall(t))) == p <==> InRest(z, list, from, t))
              && (InRest(z, list, from, t) ==> t >= from)
    {
      hide MonthLength, FirstDay, MonthOf, ShowsAtTime;
      var from, d := z.Date(At(FirstDay(p), 0)), DayOf(z.Wall(t));
      z.MidnightShown(FirstDay(p));
      assert DayOf(z.Wall(from)) == FirstDay(p) by { ClockOfAt(FirstDay(p), 0); }
      assert MonthOf(FirstDay(p)) == p by { MonthOfUnique(FirstDay(p), p); }
      assert 1 <= Day(d) <= MonthLength(MonthOf(d)) && FirstDay(MonthOf(d)) <= d;
      assert d >= FirstDay(p) ==> t >= from by { OnOrAfter(z, t, from, FirstDay(p)); }
    }

    lemma NothingInMonth(z: Zone, lastRun: Time, p: int)
      requires z.Valid() && !z.InGap(At(FirstDay(p + 1), 0)) && p > MonthOf(DayOf(z.Wall(lastRun)))
      requires LeastInMonth(z, p, lastRun, ZERO)
      ensures atTimes != [] && HasDay(p) ==> p == MonthOf(z.LastGapDay())
    {
      hide MonthLength, FirstDay, MonthOf;
      if atTimes != [] && HasDay(p) && p != MonthOf(z.LastGapDay()) {
        var t := SlotOnListedDay(z, p);
        z.WallMonotone(t, lastRun);
        if t <= lastRun {
          MonthOfMonotone(DayOf(z.Wall(t)), DayOf(z.Wall(lastRun)));
        }
      }
    }

    lemma SlotOnListedDay(z: Zone, p: int) returns (t: Time)
      requires z.Valid() && !z.InGap(At(FirstDay(p + 1), 0))
      requires atTimes != [] && HasDay(p) && p != MonthOf(z.LastGapDay())
      ensures Slot(z, t) && MonthOf(DayOf(z.Wall(t))) == p
    {
      hide MonthLength, FirstDay, MonthOf;
      var d :| Listed(p, d);
      var day := FirstDay(p) + d - 1;
      MonthOfUnique(day, p);
      ClockOfAt(day, atTimes[0]);
      if z.InGap(At(day, atTimes[0])) {
        z.GapDays(day, atTimes[0]);
        z.MissingMidnight(FirstDay(p + 1));
        NextDayOrMonth(day);
      }
      t := z.Date(At(day, atTimes[0]));
      z.DateInvertsWall(At(day, atTimes[0]), t);
    }

    lemma NextDayOrMonth(day: int)
      ensures MonthOf(day + 1) == MonthOf(day) || day + 1 == FirstDay(MonthOf(day) + 1)
    {
      hide MonthLength, FirstDay, MonthOf;
      var m := MonthOf(day);
      FirstDayStep(m);
      if day + 1 < FirstDay(m + 1) {
        MonthOfUnique(day + 1, m);
      }
    }

    /** Nothing in this month and nothing in 400 strides: nothing anywhere. */
    lemma Exhausted(z: Zone, from: Time, p: int)
      requires Valid() && z.Valid() && p > MonthOf(DayOf(z.Wall(from))) && Reached(z, from, p)
      requires forall k :: 1 <= k <= 400 ==> PassedMonth(z, MonthOf(DayOf(z.Wall(from))), k)
      ensures IsNext(Grid(z), from, ZERO)
    {
      hide MonthLength, FirstDay, MonthOf, PassedMonth;
      var m := MonthOf(DayOf(z.Wall(from)));
      forall t ensures !Candidate(Grid(z), from, t) {
        if Candidate(Grid(z), from, t) {
          var d := DayOf(z.Wall(t));
          assert Slot(z, t) && Listed(MonthOf(d), Day(d)) && atTimes != [];
          NoClassMonthHasDay(z, m, MonthOf(d), p);
        }
      }
    }

    lemma NoClassMonthHasDay(z: Zone, m: int, n: int, p: int)
      requires interval > 0 && atTimes != [] && p > m && n >= p && n % interval == m % interval
      requires forall k :: 1 <= k <= 400 ==> PassedMonth(z, m, k)
      ensures !HasDay(n)
    {
      hide MonthLength, MonthOf, FirstDay, HasDay;
      if HasDay(n) {
        SameResidue(n, m, interval);
        var k :| n - m == k * interval;
        if k <= 0 { MulMonotone(k, 0, interval); }
        var i, j := FourHundredStridesDecide(m, k);
        assert PassedMonth(z, m, i) && PassedMonth(z, m, j);
        Distribute(i, j, interval);
        if i < j { MulMonotone(i + 1, j, interval); Distribute(i, 1, interval); }
        if j < i { MulMonotone(j + 1, i, interval); Distribute(j, 1, interval); }
      }
    }
  }

  predicate DayAllowed(day: int) {
    day != 0 && -31 <= day <= 31
  }

  /** monthlyJobDefinition.setup: the two ends of the month apart, each day once. */
  method Setup(interval: nat, daysOfTheMonth: Option<seq<int>>, atTimes: Option<seq<Option<AtTime>>>, policy: Policy)
    returns (r: Result<MonthlyJob>)
    ensures r.Success? <==>
            && interval > 0 && daysOfTheMonth.Some? && Accepted(atTimes)
            && forall d :: d in daysOfTheMonth.value ==> DayAllowed(d)
    ensures r.Success? ==>
              && r.value.Valid() && r.value.interval == interval && r.value.policy == policy
              && Ascending(r.value.days) && Ascending(r.value.daysFromEnd)
              && (forall d :: d in r.value.days <==> d in daysOfTheMonth.value && d > 0)
              && (forall d :: d in r.value.daysFromEnd <==> d in daysOfTheMonth.value && d < 0)
              && ClocksOf(atTimes, r.value.atTimes)
    ensures r.Failure? ==>
              && (interval == 0 <==> r.error == ZeroInterval)
              && (interval > 0 && daysOfTheMonth.None? <==> r.error == DaysNil)
              && (r.error == DaysInvalid <==>
                  interval > 0 && daysOfTheMonth.Some? && exists d :: d in daysOfTheMonth.value && !DayAllowed(d))
  {
    if interval == 0 {
      return Failure(ZeroInterval);
    }
    if daysOfTheMonth.None? {
      return Failure(DaysNil);
    }
    var list := daysOfTheMonth.value;
    var daysStart: seq<int>, daysEnd: seq<int> := [], [];
    for i := 0 to |list|
      invariant forall d :: d in list[..i] ==> DayAllowed(d)
      invariant forall d :: d in daysStart <==> d in list[..i] && d > 0
      invariant forall d :: d in daysEnd <==> d in list[..i] && d < 0
    {
      var day := list[i];
      assert list[..i + 1] == list[..i] + [day];
      if day > 31 || day == 0 || day < -31 {
        assert day in list && !DayAllowed(day);
        return Failure(DaysInvalid);
      }
      if day > 0 {
        daysStart := daysStart + [day];
      } else {
        daysEnd := daysEnd + [day];
      }
    }
    assert list[..|list|] == list;
    daysStart := EachOnce(daysStart);
    daysEnd := EachOnce(daysEnd);
    var clocks := Convert(atTimes);
    if clocks.Failure? {
      return Failure(clocks.error);
    }
    var job := MonthlyJob(interval, daysStart, daysEnd, clocks.value, policy);
    assert forall i :: 0 <= i < |daysStart| ==> daysStart[i] in daysStart;
    assert forall i :: 0 <= i < |daysEnd| ==> daysEnd[i] in daysEnd;
    return Success(job);
  }

  method EachOnce(days: seq<int>) returns (r: seq<int>)
    ensures Ascending(r) && forall d :: d in r <==> d in days
  {
    var slice := new int[|days|](i requires 0 <= i < |days| => days[i]);
    assert slice[..] == days;
    var n := RemoveSliceDuplicatesInt(slice);
    r := slice[..n];
  }
}
