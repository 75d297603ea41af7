/**
  What the monthly search needs of midnights.  Each stride starts at midnight on the first of a month,
  and days counted from the end are found from such a midnight too; a clock that jumps over one of
  them leads the search astray.
*/
module Midnights {
  import opened Times
  import opened Zones
  import opened Gregorian
  import opened Grids
  import opened AtTimes
  import opened MonthlyJobs

  // ---- Strides go forward ----

  /** A stride moves the reading by at least four weeks and keeps the clock. */
  lemma StrideReading(z: Zone, t: Time, months: nat)
    requires months > 0
    ensures var d := DayOf(z.Wall(t));
            var next := FirstDay(MonthOf(d) + months) + Day(d) - 1;
            AddDate(z, t, months, 0) == z.Date(next * DAY + z.Wall(t) % DAY) && next >= d + 28
  {
    hide MonthLength, FirstDay, MonthOf, Zone.Wall, Zone.Date;
    var d := DayOf(z.Wall(t));
    FirstDayMonotone(MonthOf(d), MonthOf(d) + months);
  }

  lemma StrideForward(z: Zone, t: Time, months: nat)
    requires months > 0 && z.Valid()
    ensures AddDate(z, t, months, 0) > t
  {
    StrideReading(z, t, months);
    hide MonthLength, FirstDay, MonthOf, AddDate;
    var d := DayOf(z.Wall(t));
    var next := FirstDay(MonthOf(d) + months) + Day(d) - 1;
    ReadingLater(z.Wall(t), next);
    DateLater(z, t, next * DAY + z.Wall(t) % DAY);
  }

  lemma ReadingLater(wall: int, day: int)
    requires day >= DayOf(wall) + 28
    ensures day * DAY + wall % DAY >= wall + 28 * DAY
  {
  }

  lemma DateLater(z: Zone, t: Time, wall: int)
    requires z.Valid() && wall >= z.Wall(t) + 28 * DAY
    ensures z.Date(wall) > t
  {
  }

  lemma {:induction false} FirstOfDayComes(j: MonthlyJob, z: Zone, times: seq<TimeOfDay>, day: int, from: Time)
    ensures j.FirstOfDay(z, times, day, from, false).Some? ==> j.FirstOfDay(z, times, day, from, false).value >= from
  {
    hide MonthlyJob.MonthRunAt;
    if times != [] {
      FirstOfDayComes(j, z, times[1..], day, from);
    }
  }

  lemma {:induction false} FirstOfMonthComes(j: MonthlyJob, z: Zone, list: seq<int>, from: Time)
    ensures j.FirstOfMonth(z, list, from, false).Some? ==> j.FirstOfMonth(z, list, from, false).value >= from
  {
    hide MonthlyJob.FirstOfDay;
    if list != [] {
      FirstOfDayComes(j, z, j.atTimes, list[0], from);
      FirstOfMonthComes(j, z, list[1..], from);
    }
  }

  /** However many strides it takes, the answer is not before the first of them starts. */
  lemma {:induction false} StridesNotBefore(j: MonthlyJob, z: Zone, from: Time, n: nat)
    requires j.interval > 0 && z.Valid()
    ensures j.Strides(z, from, n) == ZERO || j.Strides(z, from, n) >= from
    decreases n
  {
    hide MonthlyJob.FirstOfMonth, MonthlyJob.DaysFor, AddDate;
    if n > 0 {
      FirstOfMonthComes(j, z, j.DaysFor(z, from), from);
      StrideForward(z, from, j.interval);
      StridesNotBefore(j, z, AddDate(z, from, j.interval, 0), n - 1);
    }
  }

  // ---- Jobs with a single run a month ----

  lemma OneRunOnly(z: Zone, j: MonthlyJob, day: int, at: TimeOfDay, from: Time, firstPass: bool)
    requires j.days == [day] && j.daysFromEnd == [] && j.atTimes == [at]
    ensures var today := DayOf(z.Wall(from));
            var run := j.MonthRunAt(z, today, day, at);
            j.RestOfMonth(z, from, firstPass) ==
            if Day(today) <= day && j.Comes(run, from, firstPass) then run.value else ZERO
  {
    hide MonthLength, FirstDay, MonthOf, AddDate;
    OnlyDay(z, j, day, from);
    OneDayOnly(z, j, day, at, from, firstPass);
  }

  /** The same for a list that came out as a single day, however it was found. */
  lemma OneDayOnly(z: Zone, j: MonthlyJob, day: int, at: TimeOfDay, from: Time, firstPass: bool)
    requires j.DaysFor(z, from) == [day] && j.atTimes == [at]
    ensures var today := DayOf(z.Wall(from));
            var run := j.MonthRunAt(z, today, day, at);
            j.RestOfMonth(z, from, firstPass) ==
            if Day(today) <= day && j.Comes(run, from, firstPass) then run.value else ZERO
  {
    hide MonthLength, FirstDay, MonthOf, AddDate, MonthlyJob.DaysFor, MonthlyJob.MonthRunAt;
    var today := DayOf(z.Wall(from));
    assert [day][1..] == [] && j.atTimes[1..] == [];
    assert j.FirstOfMonth(z, [], from, firstPass) == None;
    assert j.FirstOfDay(z, [], day, from, firstPass) == None;
    assert j.FirstOfMonth(z, [day], from, firstPass) ==
           if Day(today) <= day then j.FirstOfDay(z, j.atTimes, day, from, firstPass) else None;
  }

  lemma OnlyDay(z: Zone, j: MonthlyJob, day: int, from: Time)
    requires j.days == [day] && j.daysFromEnd == []
    ensures j.DaysFor(z, from) == [day]
  {
    hide MonthLength, FirstDay, MonthOf, AddDate;
    SortOne(day);
    var today := DayOf(z.Wall(from));
    var counted := j.CountedFromEnd(z, z.Date(At(DayNumber(Year(today), Month(today) + 1, 1), 0)));
    assert counted == [] && counted + j.days == [day];
  }

  lemma SortOne(day: int)
    ensures SortInts([day]) == [day]
  {
    assert SortInts([]) == [];
  }

  ghost predicate AnswersNext(j: MonthlyJob, z: Zone, lastRun: Time)
    requires j.interval > 0
  {
    IsNext(j.Grid(z), lastRun, j.Search(z, lastRun))
  }

  // ---- A first of the month without a midnight ----

  /** A run on the first of the month, at midnight, where it exists. */
  function FirstAtMidnight(interval: nat): MonthlyJob {
    MonthlyJob(interval, [1], [], [0], Policy.Skip)
  }

  /** A stride that starts past midnight finds no such run in its month. */
  lemma NothingPastMidnight(z: Zone, interval: nat, from: Time)
    requires z.Valid() && z.Wall(from) % DAY != 0
    ensures FirstAtMidnight(interval).RestOfMonth(z, from, false) == ZERO
  {
    var j, today := FirstAtMidnight(interval), DayOf(z.Wall(from));
    OneRunOnly(z, j, 1, 0, from, false);
    hide MonthlyJob.RestOfMonth;
    if Day(today) == 1 {
      MidnightIsBefore(z, j, today, from);
    }
  }

  lemma MidnightIsBefore(z: Zone, j: MonthlyJob, today: int, from: Time)
    requires j == FirstAtMidnight(j.interval) && Day(today) == 1 && today == DayOf(z.Wall(from))
    requires z.Wall(from) % DAY != 0
    ensures !j.Comes(j.MonthRunAt(z, today, 1, 0), from, false)
  {
    hide MonthLength, FirstDay, MonthOf;
    assert DayNumber(Year(today), Month(today), 1) == today;
    assert At(today, 0) < z.Wall(from);
    if !z.InGap(At(today, 0)) {
      z.MidnightShown(today);
      z.WallMonotone(z.Date(At(today, 0)), from);
    }
  }

  /** Past the gap the clock reading stays, so no later stride finds anything either. */
  lemma {:induction false} NothingEver(z: Zone, interval: nat, from: Time, n: nat)
    requires z.Valid() && interval > 0 && from >= z.jump && z.Wall(from) % DAY != 0
    ensures FirstAtMidnight(interval).Strides(z, from, n) == ZERO
    decreases n
  {
    hide MonthLength, FirstDay, MonthOf, AddDate, DayOf, MonthlyJob.RestOfMonth, Zone.Wall;
    if n > 0 {
      NothingPastMidnight(z, interval, from);
      PastTheGap(z, from);
      StrideKeepsClock(z, from, interval);
      NothingEver(z, interval, AddDate(z, from, interval, 0), n - 1);
    }
  }

  lemma PastTheGap(z: Zone, from: Time)
    requires from >= z.jump
    ensures z.Wall(from) + 28 * DAY >= z.jump + z.before + z.gap
  {
  }

  /** A stride from a reading at or past the last midnight in reach of the gap keeps the clock. */
  lemma StrideKeepsClock(z: Zone, from: Time, interval: nat)
    requires z.Valid() && interval > 0 && z.Wall(from) + 28 * DAY >= z.jump + z.before + z.gap
    ensures var next := AddDate(z, from, interval, 0);
            next >= z.jump && z.Wall(next) % DAY == z.Wall(from) % DAY
            && DayOf(z.Wall(next)) ==
               FirstDay(MonthOf(DayOf(z.Wall(from))) + interval) + Day(DayOf(z.Wall(from))) - 1
  {
    StrideReading(z, from, interval);
    hide MonthLength, FirstDay, MonthOf, AddDate;
    var d := DayOf(z.Wall(from));
    var next := FirstDay(MonthOf(d) + interval) + Day(d) - 1;
    ReadingLater(z.Wall(from), next);
    ReadingOf(next, z.Wall(from) % DAY);
    DatePastGap(z, next * DAY + z.Wall(from) % DAY);
    hide DayOf, Zone.Wall, Zone.Date;
  }

  lemma DatePastGap(z: Zone, wall: int)
    requires wall >= z.jump + z.before + z.gap
    ensures z.Wall(z.Date(wall)) == wall && z.Date(wall) >= z.jump
  {
  }

  lemma ReadingOf(day: int, clock: int)
    requires 0 <= clock < DAY
    ensures DayOf(day * DAY + clock) == day && (day * DAY + clock) % DAY == clock
  {
  }

  /**
    From any start before it: a run on the first at midnight, at the interval that leads to a first of a
    month without a midnight, stops for good, although the schedule goes on.
  */
  lemma StopsAtMissingMidnight(z: Zone, lastRun: Time, k: nat)
    requires z.Valid() && lastRun >= ZERO && k > 0 && z.InGap(At(FirstDay(MonthOf(DayOf(z.Wall(lastRun))) + k), 0))
    ensures var j := FirstAtMidnight(k);
            j.Valid() && j.Search(z, lastRun) == ZERO && !AnswersNext(j, z, lastRun)
  {
    var q, j := MonthOf(DayOf(z.Wall(lastRun))), FirstAtMidnight(k);
    hide MonthOf, FirstDay, MonthLength, DayOf, At, Zone.Wall, Zone.InGap, IsNext, MonthlyJob.Grid, MonthlyJob.Search;
    hide MonthlyJob.RestOfMonth, MonthlyJob.Strides, MonthlyJob.FirstStride;
    NotToday(z, lastRun, k);
    FirstStrideIs(z, j, lastRun);
    NothingFromMissing(z, q + k, k);
    SlotAfterMissing(z, lastRun, k);
    SearchIs(z, j, lastRun);
  }

  lemma NotToday(z: Zone, lastRun: Time, k: nat)
    requires z.Valid() && k > 0 && z.InGap(At(FirstDay(MonthOf(DayOf(z.Wall(lastRun))) + k), 0))
    ensures FirstAtMidnight(k).RestOfMonth(z, lastRun, true) == ZERO
  {
    var today, j := DayOf(z.Wall(lastRun)), FirstAtMidnight(k);
    OneRunOnly(z, j, 1, 0, lastRun, true);
    MonthStarts(today);
    hide MonthLength, FirstDay, MonthOf, Year, Month, Day, DayNumber, Zone.Valid;
    hide MonthlyJob.RestOfMonth, Zone.Wall, Zone.Date, DayOf, Zone.InGap;
    var first := FirstDay(MonthOf(today));
    if !z.InGap(At(first, 0)) {
      z.MidnightShown(first);
      NotAfterMidnight(z, first, lastRun);
    }
  }

  lemma MonthStarts(day: int)
    ensures DayNumber(Year(day), Month(day), 1) == FirstDay(MonthOf(day)) <= day
  {
    hide MonthLength, FirstDay, MonthOf;
    assert 12 * Year(day) + Month(day) - 1 == MonthOf(day);
  }

  lemma NotAfterMidnight(z: Zone, day: int, from: Time)
    requires !z.InGap(At(day, 0)) && day <= DayOf(z.Wall(from))
    ensures z.Date(At(day, 0)) <= from
  {
    z.MidnightShown(day);
    z.WallMonotone(from, z.Date(At(day, 0)));
  }

  lemma FirstStrideIs(z: Zone, j: MonthlyJob, lastRun: Time)
    ensures j.FirstStride(z, lastRun) == z.Date(At(FirstDay(MonthOf(DayOf(z.Wall(lastRun))) + j.interval), 0))
  {
    hide MonthLength, FirstDay, MonthOf, Zone.Wall, DayOf, Zone.Date;
  }

  lemma NothingFromMissing(z: Zone, p: int, interval: nat)
    requires z.Valid() && interval > 0 && z.InGap(At(FirstDay(p), 0))
    ensures FirstAtMidnight(interval).Strides(z, z.Date(At(FirstDay(p), 0)), 400) == ZERO
  {
    var first := z.Date(At(FirstDay(p), 0));
    hide FirstDay, MonthOf, MonthLength;
    ShiftedMidnight(z, FirstDay(p));
    NothingPastMidnight(z, interval, first);
    StrideKeepsClock(z, first, interval);
    hide AddDate, MonthlyJob.RestOfMonth, Zone.Wall, Zone.Date, Zone.InGap;
    NothingEver(z, interval, AddDate(z, first, interval, 0), 399);
  }

  /** What a midnight in the gap is read as. */
  lemma ShiftedMidnight(z: Zone, day: int)
    requires z.Valid() && z.InGap(At(day, 0))
    ensures var t := z.Date(At(day, 0));
            && z.Wall(t) % DAY != 0 && z.Wall(t) + 28 * DAY >= z.jump + z.before + z.gap
            && (z.late(At(day, 0)) ==> DayOf(z.Wall(t)) == day - 1 && z.Wall(t) % DAY == DAY - z.gap && t < z.jump)
            && (!z.late(At(day, 0)) ==> DayOf(z.Wall(t)) == day && z.Wall(t) % DAY == z.gap)
  {
    var t := z.Date(At(day, 0));
    assert z.Wall(t) == day * DAY + if z.late(At(day, 0)) then 0 - z.gap else z.gap;
    if z.late(At(day, 0)) {
      ReadingOf(day - 1, DAY - z.gap);
    } else {
      ReadingOf(day, z.gap);
    }
  }

  lemma SlotAfterMissing(z: Zone, lastRun: Time, k: nat)
    requires z.Valid() && lastRun >= ZERO && k > 0 && z.InGap(At(FirstDay(MonthOf(DayOf(z.Wall(lastRun))) + k), 0))
    ensures !IsNext(FirstAtMidnight(k).Grid(z), lastRun, ZERO)
  {
    hide MonthLength, FirstDay, MonthOf, DayOf, At, Zone.Wall, Zone.InGap, Zone.Date, MonthlyJob.Slot;
    var q := MonthOf(DayOf(z.Wall(lastRun)));
    var t := z.Date(At(FirstDay(q + 2 * k), 0));
    FirstDayMonotone(q + k, q + 2 * k);
    z.MissingMidnight(FirstDay(q + k));
    z.MissingMidnight(FirstDay(q + 2 * k));
    MidnightSlot(z, k, q + 2 * k);
    LaterMonth(z, lastRun, t);
    AddMultiple(q, 2, k);
    assert Candidate(FirstAtMidnight(k).Grid(z), lastRun, t);
  }

  lemma LaterMonth(z: Zone, from: Time, t: Time)
    requires MonthOf(DayOf(z.Wall(t))) > MonthOf(DayOf(z.Wall(from)))
    ensures t > from
  {
    hide MonthLength, FirstDay, MonthOf, Zone.Wall, DayOf;
    if t <= from {
      EarlierDay(z, t, from);
      MonthOfMonotone(DayOf(z.Wall(t)), DayOf(z.Wall(from)));
    }
  }

  lemma MidnightSlot(z: Zone, interval: nat, m: int)
    requires !z.InGap(At(FirstDay(m), 0))
    ensures var t := z.Date(At(FirstDay(m), 0));
            FirstAtMidnight(interval).Slot(z, t) && MonthOf(DayOf(z.Wall(t))) == m
  {
    hide MonthLength, FirstDay, MonthOf, Zone.Wall, Zone.InGap, Zone.Date;
    var j, t := FirstAtMidnight(interval), z.Date(At(FirstDay(m), 0));
    z.MidnightShown(FirstDay(m));
    FirstOfItsMonth(m);
    assert j.days[0] == 1 && j.Listed(m, 1);
    assert j.atTimes[0] == 0 && ShowsAtTime(z, j.atTimes, t);
  }

  lemma FirstOfItsMonth(m: int)
    ensures var day := FirstDay(m);
            MonthOf(day) == m && Day(day) == 1 && DayNumber(Year(day), Month(day), 1) == day
  {
    MonthOfUnique(FirstDay(m), m);
    hide MonthLength, FirstDay, MonthOf;
  }

  lemma EarlierDay(z: Zone, t: Time, from: Time)
    requires t <= from
    ensures DayOf(z.Wall(t)) <= DayOf(z.Wall(from))
  {
    if t < from { NotEarlierDay(z, t, from); }
  }

  /**
    Under Skip and without days counted from the end, every job's search from `lastRun` answers the next
    slot if and only if every later month begins with a midnight.
  */
  lemma MonthsBeginExactly(z: Zone, lastRun: Time)
    requires z.Valid() && lastRun >= ZERO
    ensures MonthsBegin(z, lastRun) <==>
            forall j: MonthlyJob :: j.Valid() && j.policy.Skip? && j.daysFromEnd == [] ==> AnswersNext(j, z, lastRun)
  {
    hide MonthLength, FirstDay, MonthOf, MonthsBegin, Zone.Wall, DayOf, MonthlyJob.Search, IsNext, Zone.InGap;
    MonthsBeginMeans(z, lastRun);
    if MonthsBegin(z, lastRun) {
      forall j: MonthlyJob | j.Valid() && j.policy.Skip? && j.daysFromEnd == [] ensures AnswersNext(j, z, lastRun) {
        j.SearchIsNext(z, lastRun);
      }
    } else {
      var p :| p > MonthOf(DayOf(z.Wall(lastRun))) && z.InGap(At(FirstDay(p), 0));
      var k := p - MonthOf(DayOf(z.Wall(lastRun)));
      StopsAtMissingMidnight(z, lastRun, k);
      assert !AnswersNext(FirstAtMidnight(k), z, lastRun);
    }
  }

  // ---- A midnight inside the month, moved to the day before ----

  /** A run in the last second of the day that is `-n` days from the end of its month. */
  function LastSecond(n: int): MonthlyJob {
    MonthlyJob(1, [], [n], [86_399], Policy.Skip)
  }

  /** What a start just before the jump finds around a missing midnight. */
  lemma JustBefore(z: Zone, day: int)
    requires z.Valid() && z.InGap(At(day, 0))
    ensures z.Wall(z.jump - 1) < At(day, 0) && DayOf(z.Wall(z.jump - 1)) == day - 1
    ensures z.InGap(At(day - 1, 86_399)) || z.Date(At(day - 1, 86_399)) < z.jump
    ensures !z.InGap(At(day, 86_399)) && z.Date(At(day, 86_399)) >= z.jump
  {
    assert At(day, 86_399) == At(day, 0) + DAY - SECOND && z.gap <= DAY - SECOND;
    assert At(day - 1, 86_399) == At(day, 0) - SECOND;
    assert At(day - 1, 0) == At(day, 0) - DAY;
  }

  lemma SameMonthBefore(day: int)
    requires Day(day) != 1
    ensures MonthOf(day - 1) == MonthOf(day) && Day(day - 1) == Day(day) - 1
  {
    hide MonthLength, FirstDay, MonthOf;
    MonthOfUnique(day - 1, MonthOf(day));
  }

  lemma CountedAs(z: Zone, day: int, from: Time)
    requires z.Valid() && z.MovesMidnight(day) && Day(day) != 1 && DayOf(z.Wall(from)) == day - 1
    ensures LastSecond(day - FirstDay(MonthOf(day) + 1)).DaysFor(z, from) == [Day(day - 1)]
  {
    hide MonthLength, FirstDay, MonthOf, AddDate, Zone.Valid, Zone.Wall, Zone.Date, Zone.MovesMidnight, DayOf, At;
    hide MonthlyJob.DaysFor;
    SameMonthBefore(day);
    CountedDay(z, day);
    CountsOnly(z, from, day - FirstDay(MonthOf(day) + 1), day - 1, Day(day - 1));
  }

  /** All there is to select from is the day counted back to. */
  lemma CountsOnly(z: Zone, from: Time, n: int, today: int, counted: int)
    requires DayOf(z.Wall(from)) == today
    requires Day(DayOf(z.Wall(AddDate(z, z.Date(At(FirstDay(MonthOf(today) + 1), 0)), 0, n)))) == counted
    ensures LastSecond(n).DaysFor(z, from) == [counted]
  {
    hide MonthLength, FirstDay, MonthOf, AddDate, Zone.Wall, Zone.Date, DayOf, At, SortInts;
    hide MonthlyJob.DaysFor, MonthlyJob.CountedFromEnd;
    NextMonthStarts(today);
    OnlyCounted(z, LastSecond(n), z.Date(At(FirstDay(MonthOf(today) + 1), 0)), n, counted);
    SortOne(counted);
    DaysForIs(z, LastSecond(n), from, today);
  }

  lemma NextMonthStarts(day: int)
    ensures DayNumber(Year(day), Month(day) + 1, 1) == FirstDay(MonthOf(day) + 1)
  {
    assert 12 * Year(day) + (Month(day) + 1) - 1 == MonthOf(day) + 1;
  }

  lemma DaysForIs(z: Zone, j: MonthlyJob, from: Time, today: int)
    requires DayOf(z.Wall(from)) == today && j.days == []
    ensures j.DaysFor(z, from) ==
            SortInts(j.CountedFromEnd(z, z.Date(At(DayNumber(Year(today), Month(today) + 1, 1), 0))))
  {
    hide SortInts, MonthlyJob.CountedFromEnd, MonthLength, FirstDay, MonthOf, Zone.Wall, Zone.Date, DayOf, At;
    var counted := j.CountedFromEnd(z, z.Date(At(DayNumber(Year(today), Month(today) + 1, 1), 0)));
    assert counted + j.days == counted;
  }

  lemma OnlyCounted(z: Zone, j: MonthlyJob, first: Time, n: int, counted: int)
    requires j.daysFromEnd == [n] && Day(DayOf(z.Wall(AddDate(z, first, 0, n)))) == counted
    ensures j.CountedFromEnd(z, first) == [counted]
  {
    hide AddDate, DayOf, Zone.Wall, MonthLength, MonthOf, FirstDay;
  }

  /** Counting back to the missing midnight ends on the day before. */
  lemma CountedDay(z: Zone, day: int)
    requires z.Valid() && z.MovesMidnight(day)
    ensures var next := FirstDay(MonthOf(day) + 1);
            Day(DayOf(z.Wall(AddDate(z, z.Date(At(next, 0)), 0, day - next)))) == Day(day - 1)
  {
    hide MonthLength, FirstDay, MonthOf, AddDate, Zone.Wall, Zone.Date, DayOf, At, Zone.InGap;
    FirstDayStep(MonthOf(day));
    z.MissingMidnight(day);
    z.MissingMidnight(FirstDay(MonthOf(day) + 1));
    CountedBackTo(z, MonthOf(day), day - FirstDay(MonthOf(day) + 1));
    z.DayOfMidnight(day);
  }

  lemma DayBeforeIsOver(z: Zone, day: int)
    requires z.Valid() && z.MovesMidnight(day) && Day(day) != 1
    ensures LastSecond(day - FirstDay(MonthOf(day) + 1)).RestOfMonth(z, z.jump - 1, true) == ZERO
  {
    var from := z.jump - 1;
    var j := LastSecond(day - FirstDay(MonthOf(day) + 1));
    hide MonthLength, FirstDay, MonthOf, AddDate, Zone.Wall, Zone.Date, DayOf, At, Zone.InGap, MonthlyJob.DaysFor;
    hide MonthlyJob.RestOfMonth;
    JustBefore(z, day);
    CountedAs(z, day, from);
    OneDayOnly(z, j, Day(day - 1), 86_399, from, true);
    assert DayNumber(Year(day - 1), Month(day - 1), Day(day - 1)) == day - 1 by { DateRoundTrip(day - 1, 0); }
  }

  lemma LastSecondIsSlot(z: Zone, day: int)
    requires z.Valid() && z.InGap(At(day, 0)) && Day(day) != 1
    ensures Candidate(LastSecond(day - FirstDay(MonthOf(day) + 1)).Grid(z), z.jump - 1, z.Date(At(day, 86_399)))
  {
    var m, t := MonthOf(day), z.Date(At(day, 86_399));
    var j := LastSecond(day - FirstDay(m + 1));
    JustBefore(z, day);
    z.DateInvertsWall(At(day, 86_399), t);
    ClockOfAt(day, 86_399);
    FirstDayStep(m);
    hide MonthLength, FirstDay, MonthOf, Zone.Wall, Zone.Date, DayOf, At, Zone.InGap;
    assert j.daysFromEnd[0] == Day(day) - MonthLength(m) - 1;
    assert j.Listed(m, Day(day));
    assert j.atTimes[0] == 86_399 && ShowsAtTime(z, j.atTimes, t);
    assert j.Slot(z, t);
  }

  /**
    When `time.Date` moves a midnight inside a month to the day before, a day counted from the end is taken
    for the one before it, and a run late on that day is left out.
  */
  lemma CountsToWrongDay(z: Zone, day: int)
    requires z.Valid() && z.MovesMidnight(day) && Day(day) != 1
    ensures var j := LastSecond(day - FirstDay(MonthOf(day) + 1));
            j.Valid() && !AnswersNext(j, z, z.jump - 1)
  {
    var m := MonthOf(day);
    var j, from := LastSecond(day - FirstDay(m + 1)), z.jump - 1;
    hide MonthLength, FirstDay, MonthOf, Zone.Wall, Zone.Date, DayOf, At, Zone.InGap, MonthlyJob.Strides;
    hide MonthlyJob.RestOfMonth, MonthlyJob.FirstStride, MonthlyJob.Search, MonthlyJob.Grid;
    FirstDayStep(m);
    DayBeforeIsOver(z, day);
    LastSecondIsSlot(z, day);
    SearchIs(z, j, from);
    StrideIsLater(z, day);
    StridesNotBefore(j, z, j.FirstStride(z, from), 400);
  }

  lemma StrideIsLater(z: Zone, day: int)
    requires z.Valid() && z.InGap(At(day, 0)) && Day(day) != 1
    ensures LastSecond(day - FirstDay(MonthOf(day) + 1)).FirstStride(z, z.jump - 1) > z.Date(At(day, 86_399))
  {
    var m := MonthOf(day);
    hide MonthLength, FirstDay, MonthOf, Zone.Wall, Zone.Date, DayOf, At, Zone.InGap;
    FirstDayStep(m);
    JustBefore(z, day);
    SameMonthBefore(day);
    z.MissingMidnight(day);
    z.MissingMidnight(FirstDay(m + 1));
    assert 12 * Year(day - 1) + (Month(day - 1) + 1) - 1 == m + 1;
    LaterReading(z, At(day, 86_399), At(FirstDay(m + 1), 0)) by {
      assert At(day, 86_399) < At(FirstDay(m + 1), 0) by { AtMonotone(day, 86_399, FirstDay(m + 1)); }
    }
  }

  lemma AtMonotone(day: int, at: TimeOfDay, later: int)
    requires day < later
    ensures At(day, at) < At(later, 0)
  {
  }

  lemma LaterReading(z: Zone, a: int, b: int)
    requires a < b && !z.InGap(a) && !z.InGap(b)
    ensures z.Date(a) < z.Date(b)
  {
  }

  // ---- What a zone must have ----

  /** No month begins without its midnight. */
  predicate MonthsBeginEver(z: Zone) {
    z.MidnightsExist() || Day(z.LastGapDay()) != 1
  }

  /**
    For a zone whose jump a search can meet: under Skip every search without days counted from the end is
    right if and only if every month begins with a midnight, and every search at all if and only if,
    besides, no midnight is moved to the day before.
  */
  lemma MidnightsExactly(z: Zone)
    requires z.Valid() && z.jump > ZERO
    ensures MonthsBeginEver(z) <==>
            forall j: MonthlyJob, s: Time ::
              j.Valid() && j.policy.Skip? && j.daysFromEnd == [] && s >= ZERO ==> AnswersNext(j, z, s)
    ensures MonthsBeginEver(z) && z.KeepsMidnights() <==>
            forall j: MonthlyJob, s: Time :: j.Valid() && j.policy.Skip? && s >= ZERO ==> AnswersNext(j, z, s)
  {
    hide MonthLength, FirstDay, MonthOf, Zone.Wall, DayOf, MonthlyJob.Search, IsNext, Zone.InGap;
    if MonthsBeginEver(z) {
      forall j: MonthlyJob, s: Time |
        j.Valid() && j.policy.Skip? && s >= ZERO && (j.daysFromEnd == [] || z.KeepsMidnights())
        ensures AnswersNext(j, z, s)
      {
        j.SearchIsNext(z, s);
      }
      if !z.KeepsMidnights() {
        z.MissingMidnight(z.LastGapDay());
        CountsToWrongDay(z, z.LastGapDay());
        assert !AnswersNext(LastSecond(z.LastGapDay() - FirstDay(MonthOf(z.LastGapDay()) + 1)), z, z.jump - 1);
      }
    } else {
      var day := z.LastGapDay();
      z.MissingMidnight(day);
      JustBefore(z, day);
      LaterFirst(day, day - 1);
      var k := MonthOf(day) - MonthOf(day - 1);
      StopsAtMissingMidnight(z, z.jump - 1, k);
      assert !AnswersNext(FirstAtMidnight(k), z, z.jump - 1);
    }
  }

  // ---- A late midnight on the first, at every policy ----

  /** A run at noon on the 15th of every month. */
  function NoonOnThe15th(policy: Policy): MonthlyJob {
    MonthlyJob(1, [15], [], [43_200], policy)
  }

  lemma The15thIsShown(z: Zone, p: int, m: int)
    requires z.Valid() && z.InGap(At(FirstDay(p), 0)) && (m == p || m == p - 1)
    ensures var wall := At(FirstDay(m) + 14, 43_200);
            !z.InGap(wall) && z.Wall(z.Date(wall)) == wall && DayOf(wall) == FirstDay(m) + 14
    ensures MonthOf(FirstDay(m) + 14) == m
  {
    hide MonthLength, FirstDay, MonthOf, At, DayOf, Zone.Wall, Zone.Date, Zone.InGap;
    var day := FirstDay(m) + 14;
    MonthOfUnique(day, m);
    FirstDayStep(p - 1);
    z.MissingMidnight(FirstDay(p));
    ClockOfAt(day, 43_200);
    if z.InGap(At(day, 43_200)) {
      z.GapDays(day, 43_200);
    }
    z.DateInvertsWall(At(day, 43_200), z.Date(At(day, 43_200)));
  }

  lemma MonthIsOver(z: Zone, policy: Policy, lastRun: Time, p: int)
    requires z.Valid() && z.InGap(At(FirstDay(p), 0))
    requires MonthOf(DayOf(z.Wall(lastRun))) == p - 1 && z.Wall(lastRun) >= At(FirstDay(p - 1) + 14, 43_200)
    ensures NoonOnThe15th(policy).RestOfMonth(z, lastRun, true) == ZERO
    ensures NoonOnThe15th(policy).FirstStride(z, lastRun) == z.Date(At(FirstDay(p), 0))
  {
    hide MonthLength, FirstDay, MonthOf, At, DayOf, Zone.Wall, Zone.Date, Zone.InGap, MonthlyJob.RestOfMonth;
    var j, today := NoonOnThe15th(policy), DayOf(z.Wall(lastRun));
    var wall := At(FirstDay(p - 1) + 14, 43_200);
    The15thIsShown(z, p, p - 1);
    OneRunOnly(z, j, 15, 43_200, lastRun, true);
    assert 12 * Year(today) + Month(today) - 1 == p - 1;
    z.WallMonotone(lastRun, z.Date(wall));
  }

  lemma LastDayHasNothing(z: Zone, policy: Policy, p: int)
    requires z.Valid() && z.MovesMidnight(FirstDay(p))
    ensures var j, from := NoonOnThe15th(policy), z.Date(At(FirstDay(p), 0));
            && j.RestOfMonth(z, from, false) == ZERO
            && z.Wall(AddDate(z, from, 1, 0)) >= At(FirstDay(p) + 27, 0)
  {
    hide MonthLength, FirstDay, MonthOf, DayOf, Zone.Wall, Zone.Date, Zone.InGap, MonthlyJob.RestOfMonth, AddDate;
    var j, from := NoonOnThe15th(policy), z.Date(At(FirstDay(p), 0));
    FirstDayStep(p - 1);
    MonthOfUnique(FirstDay(p) - 1, p - 1);
    ShiftedMidnight(z, FirstDay(p));
    OneRunOnly(z, j, 15, 43_200, from, false);
    StrideKeepsClock(z, from, 1);
    DayIsFrom(z.Wall(AddDate(z, from, 1, 0)), FirstDay(p) + 27);
  }

  lemma The15thIsSlot(z: Zone, policy: Policy, lastRun: Time, p: int)
    requires z.Valid() && z.InGap(At(FirstDay(p), 0)) && MonthOf(DayOf(z.Wall(lastRun))) == p - 1
    ensures Candidate(NoonOnThe15th(policy).Grid(z), lastRun, z.Date(At(FirstDay(p) + 14, 43_200)))
  {
    hide MonthLength, FirstDay, MonthOf, At, DayOf, Zone.Wall, Zone.Date, Zone.InGap;
    var j, t := NoonOnThe15th(policy), z.Date(At(FirstDay(p) + 14, 43_200));
    The15thIsShown(z, p, p);
    assert j.days[0] == 15 && j.Listed(p, 15) && Day(FirstDay(p) + 14) == 15;
    assert j.atTimes[0] == 43_200 && ShowsAtTime(z, j.atTimes, t);
    assert j.Slot(z, t);
    LaterMonth(z, lastRun, t);
  }

  /**
    In every zone where the midnight of a first is moved to the day before, and under every policy, the run
    at noon on the 15th of that month is passed over: no at-time need lie in the gap.
  */
  lemma LateFirstPassesMonth(z: Zone, policy: Policy, lastRun: Time, p: int)
    requires z.Valid() && z.MovesMidnight(FirstDay(p)) && lastRun >= ZERO
    requires MonthOf(DayOf(z.Wall(lastRun))) == p - 1 && z.Wall(lastRun) >= At(FirstDay(p - 1) + 14, 43_200)
    ensures NoonOnThe15th(policy).Valid() && !AnswersNext(NoonOnThe15th(policy), z, lastRun)
  {
    hide MonthLength, FirstDay, MonthOf, At, DayOf, Zone.Wall, Zone.Date, AddDate;
    hide MonthlyJob.RestOfMonth, MonthlyJob.FirstStride, MonthlyJob.Search, MonthlyJob.Grid;
    var j, first := NoonOnThe15th(policy), z.Date(At(FirstDay(p), 0));
    var second, t := AddDate(z, first, 1, 0), z.Date(At(FirstDay(p) + 14, 43_200));
    MonthIsOver(z, policy, lastRun, p);
    LastDayHasNothing(z, policy, p);
    The15thIsSlot(z, policy, lastRun, p);
    The15thIsShown(z, p, p);
    SearchIs(z, j, lastRun);
    assert j.Strides(z, first, 400) == j.Strides(z, second, 399);
    StridesNotBefore(j, z, second, 399);
    AtMonotone(FirstDay(p) + 14, 43_200, FirstDay(p) + 27);
    z.WallMonotone(t, second);
  }

  // ---- One such jump, day by day ----

  /** Noon of a day, in a zone that jumps from UTC-5 to UTC-4. */
  function NoonBefore(day: int): Time { At(day, 43_200) + 5 * HOUR }
  function NoonAfter(day: int): Time { At(day, 43_200) + 4 * HOUR }

  /**
    Without a midnight on the first the search can pass over a month, under any policy and with no
    at-time in the gap: the run of 15 January is followed by that of 15 March, because midnight on
    1 February is read as 23:00 on 31 January and a month later than that is 3 March.
  */
  lemma MonthPassedOver(policy: Policy)
    ensures var z, j := MidnightJump(31), NoonOnThe15th(policy);
            && z.Valid() && LooksUpAsUTC(z) && j.Valid()
            && j.Search(z, NoonBefore(14)) == NoonAfter(73)
            && Candidate(j.Grid(z), NoonBefore(14), NoonAfter(45))
            && ZERO < NoonBefore(14) < NoonAfter(45) < NoonAfter(73)
  {
    var z, j := MidnightJump(31), NoonOnThe15th(policy);
    assert j.Valid();
    hide *;
    MidnightJumpGap(31);
    Readings();
    JanuaryIsOver(j);
    FebruaryIsPassed(j);
    MarchIsFound(j);
    FebruaryIsSlot(j);
    SearchIs(z, j, NoonBefore(14));
    TwoStrides(z, j, Elevens(30), Elevens(61));
  }

  lemma SearchIs(z: Zone, j: MonthlyJob, lastRun: Time)
    requires j.RestOfMonth(z, lastRun, true) == ZERO
    ensures j.Search(z, lastRun) == j.Strides(z, j.FirstStride(z, lastRun), 400)
  {
    hide MonthlyJob.RestOfMonth, MonthlyJob.FirstStride, MonthlyJob.Strides;
  }

  lemma TwoStrides(z: Zone, j: MonthlyJob, first: Time, second: Time)
    requires AddDate(z, first, j.interval, 0) == second
    requires j.RestOfMonth(z, first, false) == ZERO && j.RestOfMonth(z, second, false) != ZERO
    ensures j.Strides(z, first, 400) == j.RestOfMonth(z, second, false)
  {
    hide MonthlyJob.RestOfMonth, AddDate;
    assert j.Strides(z, first, 400) == j.Strides(z, second, 399);
  }

  /** 23:00 of a day, on either side of the jump. */
  function Elevens(day: int): Time { At(day, 82_800) + if day < 31 then 5 * HOUR else 4 * HOUR }

  /** What the clocks show at the instants the search passes through. */
  lemma Readings()
    ensures var z := MidnightJump(31);
            && z.Wall(NoonBefore(14)) == At(14, 43_200) && z.Wall(NoonAfter(45)) == At(45, 43_200)
            && z.Wall(NoonAfter(73)) == At(73, 43_200)
            && z.Wall(Elevens(30)) == At(30, 82_800) && z.Wall(Elevens(61)) == At(61, 82_800)
            && z.Date(At(31, 0)) == Elevens(30) && z.Date(At(61, 82_800)) == Elevens(61)
            && forall policy :: RunAt(z, policy, 14, 43_200) == Some(NoonBefore(14))
                                && RunAt(z, policy, 73, 43_200) == Some(NoonAfter(73))
    ensures forall day, at: TimeOfDay :: DayOf(At(day, at)) == day && At(day, at) % DAY == at * SECOND
    ensures MidnightJump(31).Date(At(14, 43_200)) == NoonBefore(14)
    ensures MidnightJump(31).Date(At(73, 43_200)) == NoonAfter(73)
    ensures ZERO < NoonBefore(14) < NoonAfter(45) < NoonAfter(73) && Elevens(61) < NoonAfter(73)
  {
    forall day, at: TimeOfDay ensures DayOf(At(day, at)) == day && At(day, at) % DAY == at * SECOND {
      ClockOfAt(day, at);
    }
  }

  lemma JanuaryIsOver(j: MonthlyJob)
    requires j == NoonOnThe15th(j.policy)
    ensures var z := MidnightJump(31);
            j.RestOfMonth(z, NoonBefore(14), true) == ZERO && j.FirstStride(z, NoonBefore(14)) == Elevens(30)
  {
    hide *;
    JanuaryHasOneRun(j);
    StrideToFebruary(j);
  }

  lemma JanuaryHasOneRun(j: MonthlyJob)
    requires j == NoonOnThe15th(j.policy)
    ensures j.RestOfMonth(MidnightJump(31), NoonBefore(14), true) == ZERO
  {
    var z := MidnightJump(31);
    hide MonthLength, FirstDay, MonthOf, Zone.Wall, Zone.Date, At, DayOf, RunAt, NoonBefore, MonthlyJob.RestOfMonth;
    hide MidnightJump;
    Readings();
    FirstMonths();
    OneRunOnly(z, j, 15, 43_200, NoonBefore(14), true);
    assert DayNumber(Year(14), Month(14), 15) == 14;
  }

  lemma StrideToFebruary(j: MonthlyJob)
    requires j == NoonOnThe15th(j.policy)
    ensures j.FirstStride(MidnightJump(31), NoonBefore(14)) == Elevens(30)
  {
    var z := MidnightJump(31);
    hide MonthLength, FirstDay, MonthOf, Zone.Wall, Zone.Date, At, DayOf, RunAt, NoonBefore, Elevens, MidnightJump;
    Readings();
    FirstMonths();
    assert DayNumber(Year(14), Month(14) + 1, 1) == 31;
    assert DayOf(z.Wall(NoonBefore(14))) == 14;
  }

  lemma FebruaryIsPassed(j: MonthlyJob)
    requires j == NoonOnThe15th(j.policy)
    ensures var z := MidnightJump(31);
            j.RestOfMonth(z, Elevens(30), false) == ZERO && AddDate(z, Elevens(30), 1, 0) == Elevens(61)
  {
    Readings();
    FirstMonths();
    hide MonthLength, FirstDay, MonthOf, Zone.Wall, Zone.Date, DayOf, RunAt, Elevens;
    OneRunOnly(MidnightJump(31), j, 15, 43_200, Elevens(30), false);
  }

  lemma MarchIsFound(j: MonthlyJob)
    requires j == NoonOnThe15th(j.policy)
    ensures j.RestOfMonth(MidnightJump(31), Elevens(61), false) == NoonAfter(73)
  {
    Readings();
    FirstMonths();
    hide MonthLength, FirstDay, MonthOf, Zone.Wall, Zone.Date, At, DayOf, RunAt, Elevens, NoonAfter;
    OneRunOnly(MidnightJump(31), j, 15, 43_200, Elevens(61), false);
  }

  lemma FebruaryIsSlot(j: MonthlyJob)
    requires j == NoonOnThe15th(j.policy)
    ensures Candidate(j.Grid(MidnightJump(31)), NoonBefore(14), NoonAfter(45))
  {
    Readings();
    FirstMonths();
    hide MonthLength, FirstDay, MonthOf, Zone.Wall, Zone.Date, At, DayOf, NoonAfter, NoonBefore;
    assert j.atTimes[0] == 43_200 && j.days[0] == 15;
    assert j.Listed(13, 15) && Day(45) == 15;
    assert ShowsAtTime(MidnightJump(31), j.atTimes, NoonAfter(45));
  }

  // ---- A moved run that leaves its month ----

  /** Clocks jump from UTC-5 to UTC-3 ten minutes into 1 February of year 1, past its midnight. */
  function TenPastMidnight(): Zone {
    Zone(-5 * HOUR, At(31, 600) + 5 * HOUR, 2 * HOUR, wall => true)
  }

  /** Half past midnight on the first of every month. */
  function HalfPastOnTheFirst(policy: Policy): MonthlyJob {
    MonthlyJob(1, [1], [], [1800], policy)
  }

  /**
    Every day has a midnight, and yet a policy that moves gap times loses February's only run: moved, it
    falls on 31 January, so the run of 1 January is followed by that of 1 March.
  */
  lemma MovedRunLost(policy: Policy)
    requires !policy.Skip?
    ensures var z, j := TenPastMidnight(), HalfPastOnTheFirst(policy);
            && z.Valid() && LooksUpAsUTC(z) && z.MidnightsExist() && j.Valid()
            && RunAt(z, policy, 31, 1800).Some? && j.MonthRunAt(z, 31, 1, 1800).None?
            && j.Search(z, HalfPast(0)) == HalfPast(59)
  {
    var z, j := TenPastMidnight(), HalfPastOnTheFirst(policy);
    hide At, TenPastMidnight, HalfPast, LooksUpAsUTC, Zone.MidnightsExist, MonthLength, FirstDay, MonthOf, RunAt;
    hide AddDate, MonthlyJob.Search, MonthlyJob.RestOfMonth, MonthlyJob.FirstStride, MonthlyJob.Strides;
    hide MonthlyJob.MonthRunAt;
    TenPastReadings();
    HalfPastRuns(j);
    HalfPastJanuary(j);
    HalfPastFebruary(j);
    HalfPastMarch(j);
    SearchIs(z, j, HalfPast(0));
    TwoStrides(z, j, At(31, 0) + 5 * HOUR, At(59, 0) + 3 * HOUR);
  }

  /** 00:30 of a day, on either side of the jump. */
  function HalfPast(day: int): Time { At(day, 1800) + if day < 31 then 5 * HOUR else 3 * HOUR }

  lemma TenPastReadings()
    ensures var z := TenPastMidnight();
            && z.Valid() && LooksUpAsUTC(z) && z.MidnightsExist()
            && z.Wall(HalfPast(0)) == At(0, 1800) && z.Date(At(0, 1800)) == HalfPast(0)
            && z.Date(At(59, 1800)) == HalfPast(59) && !z.InGap(At(0, 1800)) && !z.InGap(At(59, 1800))
            && z.InGap(At(31, 1800)) && z.late(At(31, 1800)) && At(31, 1800) - z.gap < At(31, 0)
            && z.Date(At(31, 0)) == At(31, 0) + 5 * HOUR && z.Wall(At(31, 0) + 5 * HOUR) == At(31, 0)
            && z.Date(At(59, 0)) == At(59, 0) + 3 * HOUR && z.Wall(At(59, 0) + 3 * HOUR) == At(59, 0)
            && ZERO < HalfPast(0) < At(59, 0) + 3 * HOUR < HalfPast(59)
    ensures forall day, at: TimeOfDay :: DayOf(At(day, at)) == day && At(day, at) % DAY == at * SECOND
  {
    forall day, at: TimeOfDay ensures DayOf(At(day, at)) == day && At(day, at) % DAY == at * SECOND {
      ClockOfAt(day, at);
    }
  }

  lemma HalfPastRuns(j: MonthlyJob)
    requires j == HalfPastOnTheFirst(j.policy) && !j.policy.Skip?
    ensures var z := TenPastMidnight();
            && j.MonthRunAt(z, 0, 1, 1800) == Some(HalfPast(0))
            && RunAt(z, j.policy, 31, 1800).Some? && j.MonthRunAt(z, 31, 1, 1800).None?
            && j.MonthRunAt(z, 59, 1, 1800) == Some(HalfPast(59))
  {
    var z := TenPastMidnight();
    hide At, DayOf, MonthLength, FirstDay, MonthOf, Zone.Wall, Zone.Date, Zone.InGap, HalfPast, TenPastMidnight;
    hide MonthlyJob.MonthRunAt;
    TenPastReadings();
    FirstMonths();
    RunOnTheFirst(z, j, 12);
    RunOnTheFirst(z, j, 13);
    RunOnTheFirst(z, j, 14);
  }

  lemma RunOnTheFirst(z: Zone, j: MonthlyJob, m: int)
    requires z.Valid() && !j.policy.Skip?
    ensures var wall := At(FirstDay(m), 1800);
            j.MonthRunAt(z, FirstDay(m), 1, 1800) ==
            if z.InGap(wall) && (if z.late(wall) then wall - z.gap < At(FirstDay(m), 0)
                                 else wall + z.gap >= At(FirstDay(m + 1), 0)) then None
            else RunAt(z, j.policy, FirstDay(m), 1800)
  {
    hide At, MonthLength, FirstDay, MonthOf, Zone.Wall, Zone.Date, Zone.InGap, DayOf, RunAt;
    FirstOfItsMonth(m);
    j.MonthTestDrops(z, FirstDay(m), 1, 1800);
  }

  lemma HalfPastJanuary(j: MonthlyJob)
    requires j == HalfPastOnTheFirst(j.policy) && !j.policy.Skip?
    ensures j.RestOfMonth(TenPastMidnight(), HalfPast(0), true) == ZERO
    ensures j.FirstStride(TenPastMidnight(), HalfPast(0)) == At(31, 0) + 5 * HOUR
  {
    var z := TenPastMidnight();
    assert j.interval == 1;
    hide At, DayOf, RunAt, MonthLength, FirstDay, MonthOf, Day, Year, Month, AddDate, HalfPast, TenPastMidnight;
    hide Zone.Wall, Zone.Date, Zone.InGap, MonthlyJob.RestOfMonth, MonthlyJob.MonthRunAt, MonthlyJob.FirstStride;
    TenPastReadings();
    FirstMonths();
    FirstOfItsMonth(12);
    HalfPastRuns(j);
    RestFromTheFirst(z, j, 12, HalfPast(0), true);
    FirstStrideIs(z, j, HalfPast(0));
  }

  lemma HalfPastFebruary(j: MonthlyJob)
    requires j == HalfPastOnTheFirst(j.policy) && !j.policy.Skip?
    ensures j.RestOfMonth(TenPastMidnight(), At(31, 0) + 5 * HOUR, false) == ZERO
    ensures AddDate(TenPastMidnight(), At(31, 0) + 5 * HOUR, 1, 0) == At(59, 0) + 3 * HOUR
  {
    var z := TenPastMidnight();
    assert j.interval == 1;
    hide At, DayOf, RunAt, MonthLength, FirstDay, MonthOf, Day, Year, Month, AddDate, HalfPast, TenPastMidnight;
    hide Zone.Wall, Zone.Date, Zone.InGap, MonthlyJob.RestOfMonth, MonthlyJob.MonthRunAt, MonthlyJob.FirstStride;
    TenPastReadings();
    FirstMonths();
    HalfPastRuns(j);
    RestFromTheFirst(z, j, 13, At(31, 0) + 5 * HOUR, false);
    j.NextFirstOfMonth(z, 13);
  }

  lemma HalfPastMarch(j: MonthlyJob)
    requires j == HalfPastOnTheFirst(j.policy) && !j.policy.Skip?
    ensures j.RestOfMonth(TenPastMidnight(), At(59, 0) + 3 * HOUR, false) == HalfPast(59) > ZERO
  {
    hide At, DayOf, RunAt, MonthLength, FirstDay, MonthOf, Day, Year, Month, AddDate, HalfPast, TenPastMidnight;
    hide Zone.Wall, Zone.Date, Zone.InGap, MonthlyJob.RestOfMonth, MonthlyJob.MonthRunAt, MonthlyJob.FirstStride;
    TenPastReadings();
    FirstMonths();
    HalfPastRuns(j);
    RestFromTheFirst(TenPastMidnight(), j, 14, At(59, 0) + 3 * HOUR, false);
  }

  lemma RestFromTheFirst(z: Zone, j: MonthlyJob, m: int, from: Time, firstPass: bool)
    requires j == HalfPastOnTheFirst(j.policy) && DayOf(z.Wall(from)) == FirstDay(m)
    ensures var run := j.MonthRunAt(z, FirstDay(m), 1, 1800);
            j.RestOfMonth(z, from, firstPass) == if j.Comes(run, from, firstPass) then run.value else ZERO
  {
    OneRunOnly(z, j, 1, 1800, from, firstPass);
    FirstOfItsMonth(m);
    hide *;
  }

  /** The calendar around day 0, 1 January of year 1. */
  lemma FirstMonths()
    ensures FirstDay(12) == 0 && FirstDay(13) == 31 && FirstDay(14) == 59
    ensures MonthOf(14) == MonthOf(30) == 12 && MonthOf(45) == 13 && MonthOf(61) == MonthOf(73) == 14
    ensures MonthLength(13) == 28
  {
    hide MonthOf;
    assert MonthLength(12) == 31 && MonthLength(13) == 28 && MonthLength(14) == 31 && FirstDay(12) == 0;
    FirstDayStep(12);
    FirstDayStep(13);
    hide FirstDay, MonthLength;
    MonthOfUnique(14, 12);
    MonthOfUnique(30, 12);
    MonthOfUnique(45, 13);
    MonthOfUnique(61, 14);
    MonthOfUnique(73, 14);
  }
}
