/** The at-time loop that dailyJob.nextDay and weeklyJob.nextWeekDayAtTime share. */
module AtTimes {
  import opened Times
  import opened Zones
  import opened Gregorian

  datatype Error = AtTimesNil | AtTimeNil | AtTimeHours | AtTimeMinSec | ZeroInterval | DaysNil | DaysInvalid

  datatype Result<T> = Success(value: T) | Failure(error: Error)

  /** NewAtTime's arguments, before validation. */
  datatype AtTime = AtTime(hours: nat, minutes: nat, seconds: nat)
  {
    predicate Valid() {
      hours <= 23 && minutes <= 59 && seconds <= 59
    }

    function Clock(): TimeOfDay
      requires Valid()
    {
      hours * 3600 + minutes * 60 + seconds
    }

    /** What is wrong with one entry; the hours are looked at first. */
    function Fault(): Error
    {
      if hours > 23 then AtTimeHours else AtTimeMinSec
    }
  }

  ghost predicate Rejected(a: Option<AtTime>) {
    a.None? || !a.value.Valid()
  }

  ghost predicate Accepted(atTimes: Option<seq<Option<AtTime>>>) {
    atTimes.Some? && forall a :: a in atTimes.value ==> !Rejected(a)
  }

  /** The clock readings of accepted at-times, ordered. */
  ghost predicate ClocksOf(atTimes: Option<seq<Option<AtTime>>>, clocks: seq<TimeOfDay>) {
    && Accepted(atTimes) && Sorted(clocks) && |clocks| == |atTimes.value|
    && forall c :: c in clocks <==> exists a :: Some(a) in atTimes.value && a.Valid() && a.Clock() == c
  }

  /** convertAtTimesToDateTime: the first bad entry decides the error, otherwise all of them, ordered. */
  method Convert(atTimes: Option<seq<Option<AtTime>>>) returns (r: Result<seq<TimeOfDay>>)
    ensures atTimes.None? ==> r == Failure(AtTimesNil)
    ensures r.Success? ==> ClocksOf(atTimes, r.value)
    ensures r.Failure? ==> !Accepted(atTimes) && r.error in {AtTimesNil, AtTimeNil, AtTimeHours, AtTimeMinSec}
    ensures atTimes.Some? && r.Failure? ==>
              exists i :: 0 <= i < |atTimes.value| && Rejected(atTimes.value[i])
                          && (forall j :: 0 <= j < i ==> !Rejected(atTimes.value[j]))
                          && r.error == match atTimes.value[i] case None => AtTimeNil case Some(a) => a.Fault()
  {
    if atTimes.None? {
      return Failure(AtTimesNil);
    }
    var dates: seq<TimeOfDay> := [];
    var list := atTimes.value;
    for i := 0 to |list|
      invariant |dates| == i
      invariant forall j :: 0 <= j < i ==> !Rejected(list[j]) && dates[j] == list[j].value.Clock()
    {
      var a := list[i];
      assert a in list;
      if a.None? {
        return Failure(AtTimeNil);
      }
      var at := a.value;
      if at.hours > 23 {
        return Failure(AtTimeHours);
      } else if at.minutes > 59 || at.seconds > 59 {
        return Failure(AtTimeMinSec);
      }
      dates := dates + [at.Clock()];
    }
    var sorted := SortInts(dates);
    SamePermutationLength(sorted, dates);
    assert forall i :: 0 <= i < |sorted| ==> sorted[i] in dates;
    r := Success(sorted);
    forall c | c in dates ensures exists a :: Some(a) in list && a.Valid() && a.Clock() == c {
      var j :| 0 <= j < |dates| && dates[j] == c;
      assert list[j] in list && Some(list[j].value) == list[j];
    }
    forall a | Some(a) in list && a.Valid() ensures a.Clock() in dates {
      var j :| 0 <= j < |list| && list[j] == Some(a);
      assert dates[j] == a.Clock();
    }
  }

  /** Instants at which a clock in the zone shows one of the at-times. */
  ghost predicate ShowsAtTime(z: Zone, atTimes: seq<TimeOfDay>, t: Time) {
    exists i :: 0 <= i < |atTimes| && z.Wall(t) == At(DayOf(z.Wall(t)), atTimes[i])
  }

  /** Default and RunAfterTransition move gap times, so only Skip keeps to the listed readings there. */
  predicate KeepsReadings(z: Zone, policy: Policy) {
    z.gap == 0 || policy.Skip?
  }

  /** None of the at-times lies in the gap on that day. */
  predicate Clear(z: Zone, atTimes: seq<TimeOfDay>, day: int) {
    forall i :: 0 <= i < |atTimes| ==> !z.InGap(At(day, atTimes[i]))
  }

  /** Every run of the day shows its at-time, or is left out. */
  predicate Keeps(z: Zone, policy: Policy, atTimes: seq<TimeOfDay>, day: int) {
    KeepsReadings(z, policy) || Clear(z, atTimes, day)
  }

  /** No at-time ever lies in the gap, which is a matter of two days. */
  predicate NeverInGap(z: Zone, atTimes: seq<TimeOfDay>) {
    Clear(z, atTimes, z.LastGapDay() - 1) && Clear(z, atTimes, z.LastGapDay())
  }

  lemma NeverInGapMeans(z: Zone, atTimes: seq<TimeOfDay>)
    requires z.Valid()
    ensures NeverInGap(z, atTimes) <==> forall day :: Clear(z, atTimes, day)
  {
    hide Zone.InGap;
    forall day, i | 0 <= i < |atTimes| && z.InGap(At(day, atTimes[i])) ensures !NeverInGap(z, atTimes) {
      z.GapDays(day, atTimes[i]);
    }
  }

  ghost predicate LeastOnDay(z: Zone, atTimes: seq<TimeOfDay>, day: int, from: Time, r: Time) {
    if r == ZERO then forall t :: ShowsAtTime(z, atTimes, t) && DayOf(z.Wall(t)) == day ==> t <= from
    else
      && r > from && ShowsAtTime(z, atTimes, r) && DayOf(z.Wall(r)) == day
      && forall t :: ShowsAtTime(z, atTimes, t) && DayOf(z.Wall(t)) == day && t > from ==> r <= t
  }

  /**
    What each policy makes of an at-time: the listed reading where it exists, otherwise nothing, or a moved
    instant.
  */
  function RunAt(z: Zone, policy: Policy, day: int, at: TimeOfDay): Option<Time> {
    var wall := At(day, at);
    if !z.InGap(wall) then Some(z.Date(wall))
    else match policy
         case Default => Some(z.Date(wall))
         case Skip => None
         case RunAfterTransition => Some(AfterTransition(z.Date(wall), ClockOf(z.Wall(z.Date(wall))), at))
  }

  /**
    `t` is the run of an at-time on a day, told by instants and offsets.  In the gap Default keeps the instant
    that `time.Date` chose.  RunAfterTransition takes the reading under the old offset, unless the shift that
    `time.Date` chose left the date: a run shifted back stays where it is, one shifted on goes on to the
    at-time's distance from midnight.
  */
  ghost predicate Runs(z: Zone, policy: Policy, day: int, at: TimeOfDay, t: Time) {
    var wall := At(day, at);
    if !z.InGap(wall) then z.Wall(t) == wall
    else match policy
         case Default => t == wall - z.before - if z.late(wall) then z.gap else 0
         case Skip => false
         case RunAfterTransition =>
           if z.late(wall) then t == wall - z.before - if at * SECOND < z.gap then z.gap else 0
           else t == wall - z.before + if at * SECOND + z.gap >= DAY then DAY - z.gap else 0
  }

  lemma RunAtIs(z: Zone, policy: Policy, day: int, at: TimeOfDay, t: Time)
    requires z.Valid()
    ensures Runs(z, policy, day, at, t) <==> RunAt(z, policy, day, at) == Some(t)
  {
    var wall := At(day, at);
    if !z.InGap(wall) {
      z.DateInvertsWall(wall, t);
    } else if z.late(wall) {
      LateRun(z, day, at);
    } else {
      EarlyRun(z, day, at);
    }
    hide ClockOf, DayOf, At, AfterTransition;
  }

  /** A gap time moved on: a shift past midnight is taken for one that must still go on. */
  lemma EarlyRun(z: Zone, day: int, at: TimeOfDay)
    requires z.Valid() && z.InGap(At(day, at)) && !z.late(At(day, at))
    ensures var wall := At(day, at);
            && z.Date(wall) == wall - z.before
            && AfterTransition(z.Date(wall), ClockOf(z.Wall(z.Date(wall))), at) ==
               wall - z.before + if at * SECOND + z.gap >= DAY then DAY - z.gap else 0
  {
    assert z.Wall(z.Date(At(day, at))) == At(day, at) + z.gap;
    ClockShifted(day, at, z.gap);
  }

  /** The first `n` at-times have no run after `from`. */
  ghost predicate NoneOf(z: Zone, policy: Policy, atTimes: seq<TimeOfDay>, n: nat, day: int, from: Time)
    requires n <= |atTimes|
  {
    forall i, t :: 0 <= i < n && Runs(z, policy, day, atTimes[i], t) ==> t <= from
  }

  /** `r` is the run of the first at-time, in the order of the list, that runs after `from`; zero if none does. */
  ghost predicate FirstTaken(z: Zone, policy: Policy, atTimes: seq<TimeOfDay>, day: int, from: Time, r: Time) {
    if r == ZERO then NoneOf(z, policy, atTimes, |atTimes|, day, from)
    else r > from && exists k :: TakenAt(z, policy, atTimes, k, day, from, r)
  }

  ghost predicate TakenAt(z: Zone, policy: Policy, atTimes: seq<TimeOfDay>, k: int, day: int, from: Time, r: Time) {
    0 <= k < |atTimes| && Runs(z, policy, day, atTimes[k], r) && NoneOf(z, policy, atTimes, k, day, from)
  }

  predicate ComesAfter(run: Option<Time>, from: Time) {
    run.Some? && run.value > from
  }

  /** The first at-time, in the order of the list, whose run comes after `from`. */
  function FirstRun(z: Zone, policy: Policy, atTimes: seq<TimeOfDay>, day: int, from: Time): Time {
    if atTimes == [] then ZERO
    else
      var run := RunAt(z, policy, day, atTimes[0]);
      if ComesAfter(run, from) then run.value else FirstRun(z, policy, atTimes[1..], day, from)
  }

  lemma {:induction false} FirstRunIsZero(z: Zone, policy: Policy, atTimes: seq<TimeOfDay>, day: int, from: Time)
    requires from >= ZERO
    ensures FirstRun(z, policy, atTimes, day, from) == ZERO <==>
            forall i :: 0 <= i < |atTimes| ==> !ComesAfter(RunAt(z, policy, day, atTimes[i]), from)
  {
    if atTimes != [] {
      FirstRunIsZero(z, policy, atTimes[1..], day, from);
      assert forall i :: 1 <= i < |atTimes| ==> atTimes[i] == atTimes[1..][i - 1];
    }
  }

  lemma FirstRunTaken(z: Zone, policy: Policy, atTimes: seq<TimeOfDay>, day: int, from: Time)
    requires z.Valid() && from >= ZERO
    ensures FirstTaken(z, policy, atTimes, day, from, FirstRun(z, policy, atTimes, day, from))
  {
    FirstTakenFrom(z, policy, atTimes, 0, day, from);
    assert atTimes[0..] == atTimes;
  }

  lemma {:induction false} FirstTakenFrom(z: Zone, policy: Policy, atTimes: seq<TimeOfDay>, i: nat, day: int,
                                          from: Time)
    requires z.Valid() && from >= ZERO && i <= |atTimes| && NoneOf(z, policy, atTimes, i, day, from)
    ensures FirstTaken(z, policy, atTimes, day, from, FirstRun(z, policy, atTimes[i..], day, from))
    decreases |atTimes| - i
  {
    hide Runs, RunAt;
    if i < |atTimes| {
      var run := RunAt(z, policy, day, atTimes[i]);
      assert atTimes[i..][1..] == atTimes[i + 1..];
      forall t ensures Runs(z, policy, day, atTimes[i], t) <==> run == Some(t) {
        RunAtIs(z, policy, day, atTimes[i], t);
      }
      if ComesAfter(run, from) {
        assert TakenAt(z, policy, atTimes, i, day, from, run.value);
      } else {
        FirstTakenFrom(z, policy, atTimes, i + 1, day, from);
      }
    }
  }

  /**
    In a fixed-offset location under any policy, under Skip anywhere, and under any policy on a day whose
    at-times are clear of the gap, the first run is the least listed instant.
  */
  lemma FirstRunIsLeast(z: Zone, policy: Policy, atTimes: seq<TimeOfDay>, day: int, from: Time)
    requires z.Valid() && Sorted(atTimes) && from >= ZERO && Keeps(z, policy, atTimes, day)
    ensures LeastOnDay(z, atTimes, day, from, FirstRun(z, policy, atTimes, day, from))
  {
    FirstRunFrom(z, policy, atTimes, 0, day, from);
    assert atTimes[0..] == atTimes;
  }

  lemma {:induction false} FirstRunFrom(z: Zone, policy: Policy, atTimes: seq<TimeOfDay>, i: nat, day: int, from: Time)
    requires z.Valid() && Sorted(atTimes) && from >= ZERO && Keeps(z, policy, atTimes, day) && i <= |atTimes|
    requires forall t, j :: 0 <= j < i && z.Wall(t) == At(day, atTimes[j]) ==> t <= from
    ensures LeastOnDay(z, atTimes, day, from, FirstRun(z, policy, atTimes[i..], day, from))
    decreases |atTimes| - i
  {
    if i < |atTimes| {
      var wall := At(day, atTimes[i]);
      ClockOfAt(day, atTimes[i]);
      forall t ensures z.Wall(t) == wall <==> !z.InGap(wall) && t == z.Date(wall) {
        z.DateInvertsWall(wall, t);
      }
      if ComesAfter(RunAt(z, policy, day, atTimes[i]), from) {
        LaterAtTimes(z, atTimes, day, i, from, z.Date(wall));
      } else {
        assert atTimes[i..][1..] == atTimes[i + 1..];
        FirstRunFrom(z, policy, atTimes, i + 1, day, from);
      }
    }
  }

  /** The at-time falls into a gap on `day` and its run was moved back to `from` or before. */
  predicate MovedBack(z: Zone, policy: Policy, day: int, at: TimeOfDay, from: Time) {
    && z.InGap(At(day, at)) && z.late(At(day, at)) && At(day, at) - z.before - z.gap <= from
    && (policy.RunAfterTransition? ==> at * SECOND < z.gap)
  }

  /** Without Skip a later day has no run after `from` exactly when all its runs were moved back. */
  lemma LaterDayIsZero(z: Zone, policy: Policy, atTimes: seq<TimeOfDay>, day: int, from: Time)
    requires z.Valid() && !policy.Skip? && from >= ZERO && day > DayOf(z.Wall(from))
    ensures FirstRun(z, policy, atTimes, day, from) == ZERO <==>
            forall i :: 0 <= i < |atTimes| ==> MovedBack(z, policy, day, atTimes[i], from)
  {
    FirstRunIsZero(z, policy, atTimes, day, from);
    forall i | 0 <= i < |atTimes|
      ensures MovedBack(z, policy, day, atTimes[i], from) <==> !ComesAfter(RunAt(z, policy, day, atTimes[i]), from)
    {
      LostOnLaterDay(z, policy, day, atTimes[i], from);
    }
  }

  lemma LostOnLaterDay(z: Zone, policy: Policy, day: int, at: TimeOfDay, from: Time)
    requires z.Valid() && !policy.Skip? && day > DayOf(z.Wall(from))
    ensures MovedBack(z, policy, day, at, from) <==> !ComesAfter(RunAt(z, policy, day, at), from)
  {
    var wall := At(day, at);
    ClockOfAt(day, at);
    assert z.Wall(from) < wall;
    hide DayOf, At;
    if !z.InGap(wall) {
      z.DateInvertsWall(wall, z.Date(wall));
      z.WallMonotone(from, z.Date(wall));
    } else if z.late(wall) {
      LateRun(z, day, at);
      EarlyOffset(z, wall, from);
      hide ClockOf;
    } else {
      EarlyOffset(z, wall, from);
      hide ClockOf;
    }
  }

  /** The instant that shows the gap's reading under the old offset comes after everything shown before it. */
  lemma EarlyOffset(z: Zone, wall: int, from: Time)
    requires z.InGap(wall) && z.Wall(from) < wall
    ensures from < z.jump <= wall - z.before
  {
  }

  /** A gap time moved back: only a shift within the date is recognised and undone. */
  lemma LateRun(z: Zone, day: int, at: TimeOfDay)
    requires z.Valid() && z.InGap(At(day, at)) && z.late(At(day, at))
    ensures var wall := At(day, at);
            && z.Date(wall) == wall - z.before - z.gap
            && AfterTransition(z.Date(wall), ClockOf(z.Wall(z.Date(wall))), at) ==
               if at * SECOND < z.gap then wall - z.before - z.gap else wall - z.before
  {
    assert z.Wall(z.Date(At(day, at))) == At(day, at) - z.gap;
    ClockShifted(day, at, 0 - z.gap);
  }

  /** A 00:30 run on the day of a midnight jump, under either policy that moves it: 23:30 on the day before. */
  lemma MovedAcrossMidnight(day: int, policy: Policy)
    requires !policy.Skip?
    ensures var z := MidnightJump(day);
            var moved := At(day, 1800) - z.before - z.gap;
            && RunAt(z, policy, day, 1800) == Some(moved) && DayOf(z.Wall(moved)) == day - 1
            && MovedBack(z, policy, day, 1800, moved)
  {
    var z := MidnightJump(day);
    MidnightJumpGap(day);
    ClockOfAt(day, 1800);
    ClockOfAt(day - 1, 84_600);
    assert z.Wall(z.Date(At(day, 1800))) == At(day - 1, 84_600);
  }

  lemma OnlyRun(z: Zone, policy: Policy, day: int, from: Time)
    ensures var run := RunAt(z, policy, day, 1800);
            FirstRun(z, policy, [1800], day, from) == if ComesAfter(run, from) then run.value else ZERO
  {
    assert FirstRun(z, policy, [], day, from) == ZERO;
  }

  /** An ordinary 00:30 run before the jump. */
  lemma OrdinaryRun(day: int, before: int, policy: Policy)
    requires before < day
    ensures var z := MidnightJump(day);
            var run := At(before, 1800) - z.before;
            RunAt(z, policy, before, 1800) == Some(run) && z.Wall(run) == At(before, 1800)
            && DayOf(z.Wall(run)) == before
  {
    MidnightJumpGap(day);
    ClockOfAt(before, 1800);
  }

  /** RunAfterTransition runs a gap time at its reading under the old offset, unless the shift left the date. */
  lemma RunAfterTransitionKeepsOldOffset(z: Zone, day: int, at: TimeOfDay)
    requires z.Valid() && z.InGap(At(day, at))
    requires if z.late(At(day, at)) then at * SECOND >= z.gap else at * SECOND + z.gap < DAY
    ensures RunAt(z, RunAfterTransition, day, at) == Some(At(day, at) - z.before)
  {
    AfterTransitionUsesOldOffset(z, day, at);
  }

  /** The loop over the at-times of the day `ahead` days after `date`. */
  method FirstAtTime(z: Zone, policy: Policy, atTimes: seq<TimeOfDay>, from: Time, date: int, ahead: int)
    returns (r: Time)
    requires z.Valid() && from >= ZERO
    ensures r == FirstRun(z, policy, atTimes, date + ahead, from)
    ensures FirstTaken(z, policy, atTimes, date + ahead, from, r)
  {
    hide MonthLength, FirstDay, MonthOf, AfterTransition, FirstTaken;
    FirstRunTaken(z, policy, atTimes, date + ahead, from);
    var day := DayNumber(Year(date), Month(date), Day(date) + ahead);
    DateRoundTrip(date, ahead);
    for i := 0 to |atTimes|
      invariant FirstRun(z, policy, atTimes, day, from) == FirstRun(z, policy, atTimes[i..], day, from)
    {
      var at := atTimes[i];
      var wall := At(day, at);
      var atDate := z.Date(wall);
      z.NormalisedIsInGap(day, at);
      assert atTimes[i..][1..] == atTimes[i + 1..];
      if ClockOf(z.Wall(atDate)) != at {
        if policy.Skip? {
          continue;
        }
        if policy.RunAfterTransition? {
          atDate := AfterTransition(atDate, ClockOf(z.Wall(atDate)), at);
        }
      }
      if atDate > from {
        return atDate;
      }
    }
    return ZERO;
  }

  lemma LaterAtTimes(z: Zone, atTimes: seq<TimeOfDay>, day: int, i: nat, from: Time, r: Time)
    requires z.Valid() && Sorted(atTimes) && i < |atTimes| && r > from >= ZERO
    requires z.Wall(r) == At(day, atTimes[i])
    requires forall t, j :: 0 <= j < i && z.Wall(t) == At(day, atTimes[j]) ==> t <= from
    ensures LeastOnDay(z, atTimes, day, from, r)
  {
    ClockOfAt(day, atTimes[i]);
    forall t | ShowsAtTime(z, atTimes, t) && DayOf(z.Wall(t)) == day && t > from ensures r <= t {
      var j :| 0 <= j < |atTimes| && z.Wall(t) == At(DayOf(z.Wall(t)), atTimes[j]);
      assert j >= i;
      assert atTimes[i] <= atTimes[j];
      z.WallMonotone(t, r);
    }
  }

  /** A later day has something to run unless the gap covers its at-times. */
  lemma ClearDayHasRun(z: Zone, atTimes: seq<TimeOfDay>, day: int, from: Time)
    requires z.Valid() && atTimes != [] && day > DayOf(z.Wall(from)) && !z.InGap(At(day, atTimes[0]))
    ensures !LeastOnDay(z, atTimes, day, from, ZERO)
  {
    var t := z.Date(At(day, atTimes[0]));
    ClockOfAt(day, atTimes[0]);
    z.DateInvertsWall(At(day, atTimes[0]), t);
    assert ShowsAtTime(z, atTimes, t);
    assert t > from by { LaterDay(z, from, t); }
  }

  lemma NotEarlierDay(z: Zone, from: Time, t: Time)
    requires from < t
    ensures DayOf(z.Wall(from)) <= DayOf(z.Wall(t))
  {
    z.WallMonotone(from, t);
  }

  /** On a later day Skip comes back with nothing only while the gap still reaches into that day. */
  lemma NothingLeftOnlyInGap(z: Zone, atTimes: seq<TimeOfDay>, day: int, from: Time)
    requires z.Valid() && atTimes != [] && day > DayOf(z.Wall(from)) && LeastOnDay(z, atTimes, day, from, ZERO)
    ensures day <= z.LastGapDay() && z.gap > 0
  {
    if !z.InGap(At(day, atTimes[0])) {
      ClearDayHasRun(z, atTimes, day, from);
    } else {
      GapReaches(z, day, atTimes[0]);
    }
  }

  lemma LaterDay(z: Zone, from: Time, t: Time)
    requires DayOf(z.Wall(from)) < DayOf(z.Wall(t))
    ensures from < t
  {
    z.WallMonotone(from, t);
  }

  lemma GapReaches(z: Zone, day: int, at: TimeOfDay)
    requires z.InGap(At(day, at))
    ensures day <= z.LastGapDay() && z.gap > 0
  {
    ClockOfAt(day, at);
    assert At(day, at) / DAY <= (z.jump + z.before + z.gap - 1) / DAY;
  }
}

module DailyJobs {
  import opened Times
  import opened Zones
  import opened Gregorian
  import opened Grids
  import opened AtTimes

  datatype DailyJob = DailyJob(interval: nat, atTimes: seq<TimeOfDay>, policy: Policy)
  {
    /** What setup guarantees. */
    ghost predicate Valid() {
      interval > 0 && Sorted(atTimes)
    }

    ghost function Grid(z: Zone): Grid {
      Grids.Grid(t => ShowsAtTime(z, atTimes, t), t => DayOf(z.Wall(t)), interval)
    }

    method NextDay(z: Zone, lastRun: Time, dayOffset: int) returns (r: Time)
      requires Valid() && z.Valid() && lastRun >= ZERO
      ensures r == FirstRun(z, policy, atTimes, DayOf(z.Wall(lastRun)) + dayOffset, lastRun)
      ensures FirstTaken(z, policy, atTimes, DayOf(z.Wall(lastRun)) + dayOffset, lastRun, r)
      ensures Keeps(z, policy, atTimes, DayOf(z.Wall(lastRun)) + dayOffset) ==>
                LeastOnDay(z, atTimes, DayOf(z.Wall(lastRun)) + dayOffset, lastRun, r)
    {
      hide MonthLength, FirstDay, MonthOf, FirstRun, LeastOnDay, FirstTaken, Keeps;
      var today := DayOf(z.Wall(lastRun));
      var date := DayNumber(Year(today), Month(today), Day(today) + dayOffset);
      DateRoundTrip(today, dayOffset);
      r := FirstAtTime(z, policy, atTimes, lastRun, date, 0);
      if Keeps(z, policy, atTimes, today + dayOffset) {
        FirstRunIsLeast(z, policy, atTimes, today + dayOffset, lastRun);
      }
    }

    /** Without Skip the search looks at the current day and the next one of the class, no further. */
    function WithoutSkip(z: Zone, lastRun: Time): Time {
      var today := DayOf(z.Wall(lastRun));
      var r := FirstRun(z, policy, atTimes, today, lastRun);
      if r != ZERO then r else FirstRun(z, policy, atTimes, today + interval, lastRun)
    }

    /**
      Without Skip the search gives up exactly when today has no more runs and every one of the next day was
      moved back.
    */
    lemma WithoutSkipIsZero(z: Zone, lastRun: Time)
      requires Valid() && z.Valid() && lastRun >= ZERO && !policy.Skip?
      ensures var today := DayOf(z.Wall(lastRun));
              WithoutSkip(z, lastRun) == ZERO <==>
              && (forall i :: 0 <= i < |atTimes| ==> !ComesAfter(RunAt(z, policy, today, atTimes[i]), lastRun))
              && (forall i :: 0 <= i < |atTimes| ==> MovedBack(z, policy, today + interval, atTimes[i], lastRun))
    {
      var today := DayOf(z.Wall(lastRun));
      FirstRunIsZero(z, policy, atTimes, today, lastRun);
      LaterDayIsZero(z, policy, atTimes, today + interval, lastRun);
    }

    /**
      dailyJob.next.  Skip needs an at-time, or it would look for one forever; it stops because
      every further day is past more of the gap.
    */
    method Next(z: Zone, lastRun: Time) returns (r: Time)
      requires Valid() && z.Valid() && lastRun >= ZERO
      requires policy.Skip? ==> atTimes != []
      ensures KeepsBoth(z, DayOf(z.Wall(lastRun))) ==> IsNext(Grid(z), lastRun, r)
      ensures !policy.Skip? ==> r == WithoutSkip(z, lastRun) && NextTaken(z, lastRun, r)
    {
      hide FirstRun, IsNext, Reached, LeastOnDay, FirstTaken, Keeps;
      ghost var today := DayOf(z.Wall(lastRun));
      ghost var least := KeepsBoth(z, today);
      ReachedToday(z, lastRun);
      r := NextDay(z, lastRun, 0);
      if least { Conclude(z, lastRun, today, r); }
      if r != ZERO {
        return;
      }
      var dayOffset := interval;
      r := NextDay(z, lastRun, dayOffset);
      if least { Conclude(z, lastRun, today + dayOffset, r); }
      if r != ZERO {
        return;
      }
      if policy.Skip? {
        assert least by { SkipKeeps(z, today); SkipKeeps(z, today + interval); }
        NothingLeftOnlyInGap(z, atTimes, today + dayOffset, lastRun);
        while r == ZERO
          invariant dayOffset > 0
          invariant r == ZERO ==> Reached(z, lastRun, today + dayOffset + interval)
          invariant r == ZERO ==> today + dayOffset <= z.LastGapDay()
          invariant r != ZERO ==> IsNext(Grid(z), lastRun, r)
          decreases z.LastGapDay() - (today + dayOffset), r == ZERO
        {
          dayOffset := dayOffset + interval;
          r := NextDay(z, lastRun, dayOffset);
          assert Keeps(z, policy, atTimes, today + dayOffset) by { SkipKeeps(z, today + dayOffset); }
          Conclude(z, lastRun, today + dayOffset, r);
          if r == ZERO {
            NothingLeftOnlyInGap(z, atTimes, today + dayOffset, lastRun);
          }
        }
      } else if least {
        NothingLeft(z, lastRun);
      }
    }

    /** The answer comes from the last run's day, or else from the next day of the class. */
    ghost predicate NextTaken(z: Zone, lastRun: Time, r: Time) {
      var today := DayOf(z.Wall(lastRun));
      || (r != ZERO && FirstTaken(z, policy, atTimes, today, lastRun, r))
      || (FirstTaken(z, policy, atTimes, today, lastRun, ZERO)
          && FirstTaken(z, policy, atTimes, today + interval, lastRun, r))
    }

    /** Neither that day nor the next of the class has an at-time moved out of the gap. */
    predicate KeepsBoth(z: Zone, today: int) {
      Keeps(z, policy, atTimes, today) && Keeps(z, policy, atTimes, today + interval)
    }

    lemma SkipKeeps(z: Zone, day: int)
      ensures policy.Skip? ==> Keeps(z, policy, atTimes, day)
    {
    }

    /** Without Skip a search that keeps to its readings comes back with nothing only when nothing is listed. */
    lemma NothingLeft(z: Zone, lastRun: Time)
      requires Valid() && z.Valid() && !policy.Skip? && KeepsBoth(z, DayOf(z.Wall(lastRun)))
      requires LeastOnDay(z, atTimes, DayOf(z.Wall(lastRun)) + interval, lastRun, ZERO)
      ensures IsNext(Grid(z), lastRun, ZERO)
    {
      if atTimes != [] {
        ClearDayHasRun(z, atTimes, DayOf(z.Wall(lastRun)) + interval, lastRun);
      } else {
        NothingListed(z, lastRun);
      }
    }

    /** What the day `k` intervals on has to offer. */
    function OnDay(z: Zone, lastRun: Time, k: nat): Time {
      FirstRun(z, policy, atTimes, DayOf(z.Wall(lastRun)) + k * interval, lastRun)
    }

    /** Going on day by day, as Skip does, comes to an end if and only if there is an at-time. */
    lemma SearchEnds(z: Zone, lastRun: Time)
      requires Valid() && z.Valid() && lastRun >= ZERO && policy.Skip?
      ensures atTimes != [] <==> exists k: nat :: OnDay(z, lastRun, k) != ZERO
    {
      var today := DayOf(z.Wall(lastRun));
      if atTimes != [] {
        var k := if z.LastGapDay() >= today then z.LastGapDay() - today + 1 else 1;
        MulMonotone(1, interval, k);
        FirstRunIsLeast(z, policy, atTimes, today + k * interval, lastRun);
        if OnDay(z, lastRun, k) == ZERO {
          NothingLeftOnlyInGap(z, atTimes, today + k * interval, lastRun);
        }
        assert OnDay(z, lastRun, k) != ZERO;
      }
    }

    lemma NothingListed(z: Zone, from: Time)
      requires interval > 0 && atTimes == []
      ensures IsNext(Grid(z), from, ZERO)
    {
    }

    /** No candidate lies before `day`, which is a day of the schedule's class. */
    ghost predicate Reached(z: Zone, from: Time, day: int)
      requires interval > 0
    {
      Grids.Reached(Grid(z), from, day)
    }

    lemma ReachedToday(z: Zone, from: Time)
      requires Valid() && z.Valid()
      ensures Reached(z, from, DayOf(z.Wall(from)))
    {
      GridIsValid(z);
      StartHere(Grid(z), from);
    }

    lemma Conclude(z: Zone, from: Time, day: int, r: Time)
      requires Valid() && z.Valid() && Reached(z, from, day) && LeastOnDay(z, atTimes, day, from, r)
      ensures if r == ZERO then Reached(z, from, day + interval) else IsNext(Grid(z), from, r)
    {
      GridIsValid(z);
      assert LeastIn(Grid(z), day, from, r) by {
        assert forall t :: Grid(z).slot(t) <==> ShowsAtTime(z, atTimes, t);
      }
      ConcludePeriod(Grid(z), from, day, r);
    }

    lemma GridIsValid(z: Zone)
      requires Valid() && z.Valid()
      ensures Grid(z).Valid()
    {
      forall a: Time, b: Time | a <= b ensures DayOf(z.Wall(a)) <= DayOf(z.Wall(b)) {
        z.WallMonotone(b, a);
      }
    }

    /** A daily schedule never runs out. */
    lemma NeverExhausted(z: Zone, from: Time)
      requires Valid() && z.Valid() && atTimes != []
      ensures !IsNext(Grid(z), from, ZERO)
    {
      var today := DayOf(z.Wall(from));
      var k := if z.LastGapDay() >= today then z.LastGapDay() - today + 1 else 1;
      MulMonotone(1, interval, k);
      AddMultiple(today, k, interval);
      SlotPastGap(z, from, today + k * interval);
    }

    lemma SlotPastGap(z: Zone, from: Time, day: int)
      requires Valid() && atTimes != [] && day > DayOf(z.Wall(from)) && day > z.LastGapDay()
      requires day % interval == DayOf(z.Wall(from)) % interval
      ensures !IsNext(Grid(z), from, ZERO)
    {
      var wall := At(day, atTimes[0]);
      ClockOfAt(day, atTimes[0]);
      if z.InGap(wall) {
        GapReaches(z, day, atTimes[0]);
      }
      var t := z.Date(wall);
      z.DateInvertsWall(wall, t);
      LaterDay(z, from, t);
      assert ShowsAtTime(z, atTimes, t);
      assert Candidate(Grid(z), from, t);
    }
  }

  /**
    A daily 00:30 run without Skip, and clocks that jump from UTC-5 to UTC-4 at midnight: the ordinary
    run of the day before is followed by the moved instant, and that one by zero, although the
    schedule has later instants.  The chain of runs stops for good.
  */
  lemma StopsAcrossMidnight(day: int, policy: Policy)
    requires day > 1 && !policy.Skip?
    ensures var z, j := MidnightJump(day), DailyJob(1, [1800], policy);
            var ordinary := At(day - 1, 1800) - z.before;
            var moved := At(day, 1800) - z.before - z.gap;
            && z.Valid() && LooksUpAsUTC(z) && j.Valid()
            && z.Wall(ordinary) == At(day - 1, 1800) && ZERO < ordinary < moved
            && j.WithoutSkip(z, ordinary) == moved
            && j.WithoutSkip(z, moved) == ZERO && !IsNext(j.Grid(z), moved, ZERO)
  {
    var z, j := MidnightJump(day), DailyJob(1, [1800], policy);
    var moved := At(day, 1800) - z.before - z.gap;
    MidnightJumpGap(day);
    OrdinaryRun(day, day - 1, policy);
    MovedAcrossMidnight(day, policy);
    OnlyRun(z, policy, day - 1, At(day - 1, 1800) - z.before);
    OnlyRun(z, policy, day, At(day - 1, 1800) - z.before);
    OnlyRun(z, policy, day - 1, moved);
    OnlyRun(z, policy, day, moved);
    j.NeverExhausted(z, moved);
  }

  /** dailyJobDefinition.setup: bad at-times are reported before a zero interval. */
  method Setup(interval: nat, atTimes: Option<seq<Option<AtTime>>>, policy: Policy) returns (r: Result<DailyJob>)
    ensures r.Success? <==> interval > 0 && Accepted(atTimes)
    ensures r.Success? ==>
              r.value.Valid() && r.value.interval == interval && r.value.policy == policy
              && ClocksOf(atTimes, r.value.atTimes)
    ensures r.Failure? ==> (Accepted(atTimes) <==> r.error == ZeroInterval)
  {
    var clocks := Convert(atTimes);
    if clocks.Failure? {
      return Failure(clocks.error);
    }
    if interval == 0 {
      return Failure(ZeroInterval);
    }
    return Success(DailyJob(interval, clocks.value, policy));
  }
}

module WeeklyJobs {
  import opened Times
  import opened Zones
  import opened Gregorian
  import opened Grids
  import opened AtTimes

  /** Weeks run from Sunday to Saturday. */
  function WeekOf(day: int): int { (day + 1) / 7 }

  function Sunday(week: int): int { 7 * week - 1 }

  datatype WeeklyJob = WeeklyJob(interval: nat, daysOfWeek: seq<int>, atTimes: seq<TimeOfDay>, policy: Policy)
  {
    /** What setup guarantees. */
    ghost predicate Ordered() {
      interval > 0 && Sorted(atTimes) && Sorted(daysOfWeek)
    }

    /** Besides, all the weekday numbers name weekdays. */
    ghost predicate Valid() {
      Ordered() && forall i :: 0 <= i < |daysOfWeek| ==> 0 <= daysOfWeek[i] < 7
    }

    /** There is an at-time, and a weekday that some week can reach: a negative number never is. */
    predicate HasRuns() {
      atTimes != [] && daysOfWeek != [] && daysOfWeek[|daysOfWeek| - 1] >= 0
    }

    ghost predicate OnWeekday(z: Zone, t: Time, wd: int) {
      ShowsAtTime(z, atTimes, t) && Weekday(DayOf(z.Wall(t))) == wd
    }

    /** `t` falls in the week of `date`, on that date or later. */
    ghost predicate Remaining(z: Zone, date: int, t: Time) {
      WeekOf(DayOf(z.Wall(t))) == WeekOf(date) && DayOf(z.Wall(t)) >= date
    }

    ghost predicate Slot(z: Zone, t: Time) {
      ShowsAtTime(z, atTimes, t) && Weekday(DayOf(z.Wall(t))) in daysOfWeek
    }

    ghost function Grid(z: Zone): Grid {
      Grids.Grid(t => Slot(z, t), t => WeekOf(DayOf(z.Wall(t))), interval)
    }

    /** Slots of the week of `date` that are not before `date`. */
    ghost predicate LeastFrom(z: Zone, date: int, from: Time, r: Time) {
      if r == ZERO then
        forall t :: Slot(z, t) && Remaining(z, date, t) ==> t <= from
      else
        && r > from && Slot(z, r) && WeekOf(DayOf(z.Wall(r))) == WeekOf(date)
        && forall t :: Slot(z, t) && Remaining(z, date, t) && t > from ==> r <= t
    }

    /** The first run on a weekday of the week of `date`, unless that day is over. */
    function FirstOnWeekday(z: Zone, wd: int, date: int, from: Time): Time {
      if wd >= Weekday(date) then FirstRun(z, policy, atTimes, date + wd - Weekday(date), from) else ZERO
    }

    /** The first listed weekday from `date` to the end of its week that has a run after `from`. */
    function FirstOfWeek(z: Zone, weekdays: seq<int>, date: int, from: Time): Time {
      if weekdays == [] then ZERO
      else
        var r := FirstOnWeekday(z, weekdays[0], date, from);
        if r != ZERO then r else FirstOfWeek(z, weekdays[1..], date, from)
    }

    /** Without Skip the search looks at the rest of this week and the next week of the class, no further. */
    function WithoutSkip(z: Zone, lastRun: Time): Time {
      var today := DayOf(z.Wall(lastRun));
      var r := FirstOfWeek(z, daysOfWeek, today, lastRun);
      if r != ZERO then r else FirstOfWeek(z, daysOfWeek, Sunday(WeekOf(today) + interval), lastRun)
    }

    lemma {:induction false} FirstOfWeekIsZero(z: Zone, weekdays: seq<int>, date: int, from: Time)
      ensures FirstOfWeek(z, weekdays, date, from) == ZERO <==>
              forall i :: 0 <= i < |weekdays| ==> FirstOnWeekday(z, weekdays[i], date, from) == ZERO
    {
      if weekdays != [] {
        FirstOfWeekIsZero(z, weekdays[1..], date, from);
        assert forall i :: 1 <= i < |weekdays| ==> weekdays[i] == weekdays[1..][i - 1];
      }
    }

    /** The weekday is over, or none of its runs comes after `from`. */
    ghost predicate NothingAhead(z: Zone, wd: int, date: int, from: Time) {
      wd >= Weekday(date) ==>
        forall i :: 0 <= i < |atTimes| ==> !ComesAfter(RunAt(z, policy, date + wd - Weekday(date), atTimes[i]), from)
    }

    ghost predicate AllMovedBack(z: Zone, day: int, from: Time) {
      forall i :: 0 <= i < |atTimes| ==> MovedBack(z, policy, day, atTimes[i], from)
    }

    /**
      Without Skip the search gives up exactly when the rest of this week has no more runs and every
      run of every listed weekday of the next week of the class was moved back.
    */
    lemma WithoutSkipIsZero(z: Zone, lastRun: Time)
      requires Ordered() && z.Valid() && lastRun >= ZERO && !policy.Skip?
      ensures var today := DayOf(z.Wall(lastRun));
              WithoutSkip(z, lastRun) == ZERO <==>
              && (forall i :: 0 <= i < |daysOfWeek| ==> NothingAhead(z, daysOfWeek[i], today, lastRun))
              && (forall i :: 0 <= i < |daysOfWeek| && daysOfWeek[i] >= 0 ==>
                                AllMovedBack(z, Sunday(WeekOf(today) + interval) + daysOfWeek[i], lastRun))
    {
      hide FirstOnWeekday, NothingAhead, AllMovedBack, FirstOfWeek;
      var today := DayOf(z.Wall(lastRun));
      var sunday := Sunday(WeekOf(today) + interval);
      FirstOfWeekIsZero(z, daysOfWeek, today, lastRun);
      FirstOfWeekIsZero(z, daysOfWeek, sunday, lastRun);
      forall i | 0 <= i < |daysOfWeek|
        ensures FirstOnWeekday(z, daysOfWeek[i], today, lastRun) == ZERO <==>
                NothingAhead(z, daysOfWeek[i], today, lastRun)
        ensures FirstOnWeekday(z, daysOfWeek[i], sunday, lastRun) == ZERO <==>
                (daysOfWeek[i] >= 0 ==> AllMovedBack(z, sunday + daysOfWeek[i], lastRun))
      {
        WeekdayIsZero(z, daysOfWeek[i], today, WeekOf(today) + interval, lastRun);
      }
    }

    lemma WeekdayIsZero(z: Zone, wd: int, date: int, week: int, from: Time)
      requires z.Valid() && from >= ZERO && !policy.Skip? && week > WeekOf(DayOf(z.Wall(from)))
      ensures FirstOnWeekday(z, wd, date, from) == ZERO <==> NothingAhead(z, wd, date, from)
      ensures FirstOnWeekday(z, wd, Sunday(week), from) == ZERO <==>
              (wd >= 0 ==> AllMovedBack(z, Sunday(week) + wd, from))
    {
      hide FirstRun, RunAt, MovedBack;
      FirstRunIsZero(z, policy, atTimes, date + wd - Weekday(date), from);
      assert Weekday(Sunday(week)) == 0 && Sunday(week) > DayOf(z.Wall(from));
      if wd >= 0 {
        LaterDayIsZero(z, policy, atTimes, Sunday(week) + wd, from);
      }
    }

    /** The date of a weekday number in the week of `date`; below that of `date` it is not looked at. */
    function DateOf(wd: int, date: int): int {
      date + wd - Weekday(date)
    }

    /** None of the days looked at has an at-time moved out of the gap. */
    predicate KeepsWeek(z: Zone, date: int) {
      forall i :: 0 <= i < |daysOfWeek| && daysOfWeek[i] >= Weekday(date) ==>
                    Keeps(z, policy, atTimes, DateOf(daysOfWeek[i], date))
    }

    /** Nor in the rest of this week and in the next week of the class. */
    predicate KeepsBoth(z: Zone, today: int) {
      KeepsWeek(z, today) && KeepsWeek(z, Sunday(WeekOf(today) + interval))
    }

    /** The first `n` weekdays of the list have no run left. */
    ghost predicate NoneOn(z: Zone, n: nat, date: int, from: Time)
      requires n <= |daysOfWeek|
    {
      forall i :: 0 <= i < n && daysOfWeek[i] >= Weekday(date) ==>
                    FirstTaken(z, policy, atTimes, DateOf(daysOfWeek[i], date), from, ZERO)
    }

    /** `r` is the first run of the first weekday, in the order of the list, that has one; zero if none has. */
    ghost predicate FirstTakenInWeek(z: Zone, date: int, from: Time, r: Time) {
      if r == ZERO then NoneOn(z, |daysOfWeek|, date, from)
      else exists k :: TakenOn(z, k, date, from, r)
    }

    ghost predicate TakenOn(z: Zone, k: int, date: int, from: Time, r: Time) {
      && 0 <= k < |daysOfWeek| && daysOfWeek[k] >= Weekday(date)
      && FirstTaken(z, policy, atTimes, DateOf(daysOfWeek[k], date), from, r) && NoneOn(z, k, date, from)
    }

    lemma FirstOfWeekTaken(z: Zone, date: int, from: Time)
      requires z.Valid() && from >= ZERO
      ensures FirstTakenInWeek(z, date, from, FirstOfWeek(z, daysOfWeek, date, from))
    {
      FirstTakenInWeekFrom(z, 0, date, from);
      assert daysOfWeek[0..] == daysOfWeek;
    }

    lemma {:induction false} FirstTakenInWeekFrom(z: Zone, i: nat, date: int, from: Time)
      requires z.Valid() && from >= ZERO && i <= |daysOfWeek| && NoneOn(z, i, date, from)
      ensures FirstTakenInWeek(z, date, from, FirstOfWeek(z, daysOfWeek[i..], date, from))
      decreases |daysOfWeek| - i
    {
      hide FirstTaken, FirstRun, Weekday;
      if i < |daysOfWeek| {
        assert daysOfWeek[i..][1..] == daysOfWeek[i + 1..];
        FirstRunTaken(z, policy, atTimes, DateOf(daysOfWeek[i], date), from);
        var r := FirstOnWeekday(z, daysOfWeek[i], date, from);
        if r != ZERO {
          assert TakenOn(z, i, date, from, r);
        } else {
          FirstTakenInWeekFrom(z, i + 1, date, from);
        }
      }
    }

    /** The answer comes from the rest of this week, or else from the next week of the class. */
    ghost predicate NextTaken(z: Zone, lastRun: Time, r: Time) {
      var today := DayOf(z.Wall(lastRun));
      || (r != ZERO && FirstTakenInWeek(z, today, lastRun, r))
      || (FirstTakenInWeek(z, today, lastRun, ZERO)
          && FirstTakenInWeek(z, Sunday(WeekOf(today) + interval), lastRun, r))
    }

    method NextWeekDayAtTime(z: Zone, lastRun: Time, dayOffset: int) returns (r: Time)
      requires Ordered() && z.Valid() && lastRun >= ZERO
      ensures r == FirstOfWeek(z, daysOfWeek, DayOf(z.Wall(lastRun)) + dayOffset, lastRun)
      ensures FirstTakenInWeek(z, DayOf(z.Wall(lastRun)) + dayOffset, lastRun, r)
      ensures KeepsWeek(z, DayOf(z.Wall(lastRun)) + dayOffset) && Valid() ==>
                LeastFrom(z, DayOf(z.Wall(lastRun)) + dayOffset, lastRun, r)
    {
      hide FirstRun, LeastFrom, MonthLength, FirstDay, MonthOf, FirstTakenInWeek, KeepsWeek, FirstTaken;
      var today := DayOf(z.Wall(lastRun));
      var date := DayNumber(Year(today), Month(today), Day(today) + dayOffset);
      DateRoundTrip(today, dayOffset);
      FirstOfWeekTaken(z, date, lastRun);
      if KeepsWeek(z, date) && Valid() { FirstOfWeekIsLeast(z, 0, date, lastRun); }
      for i := 0 to |daysOfWeek|
        invariant FirstOfWeek(z, daysOfWeek, date, lastRun) == FirstOfWeek(z, daysOfWeek[i..], date, lastRun)
      {
        var wd := daysOfWeek[i];
        assert daysOfWeek[i..][1..] == daysOfWeek[i + 1..];
        if wd >= Weekday(date) {
          var weekDayDiff := wd - Weekday(date);
          r := FirstAtTime(z, policy, atTimes, lastRun, date, weekDayDiff);
          if r != ZERO {
            return;
          }
        }
      }
      return ZERO;
    }

    lemma {:induction false} FirstOfWeekIsLeast(z: Zone, i: nat, date: int, from: Time)
      requires Valid() && z.Valid() && from >= ZERO && KeepsWeek(z, date) && i <= |daysOfWeek|
      requires forall t, j :: 0 <= j < i && OnWeekday(z, t, daysOfWeek[j]) && Remaining(z, date, t) ==> t <= from
      ensures LeastFrom(z, date, from, FirstOfWeek(z, daysOfWeek[i..], date, from))
      ensures i == 0 ==> daysOfWeek[i..] == daysOfWeek
      decreases |daysOfWeek| - i
    {
      if i < |daysOfWeek| {
        var wd := daysOfWeek[i];
        var day := date + wd - Weekday(date);
        assert daysOfWeek[i..][1..] == daysOfWeek[i + 1..];
        if wd >= Weekday(date) { FirstRunIsLeast(z, policy, atTimes, day, from); }
        var r := FirstRun(z, policy, atTimes, day, from);
        hide FirstRun, LeastFrom, Keeps;
        if wd >= Weekday(date) && r != ZERO {
          LaterWeekdays(z, date, i, from, r);
        } else {
          WeekdayDone(z, date, i, from);
          FirstOfWeekIsLeast(z, i + 1, date, from);
        }
      }
    }

    lemma WeekdayDone(z: Zone, date: int, i: nat, from: Time)
      requires Valid() && z.Valid() && i < |daysOfWeek|
      requires forall t, j :: 0 <= j < i && OnWeekday(z, t, daysOfWeek[j]) && Remaining(z, date, t) ==> t <= from
      requires daysOfWeek[i] >= Weekday(date) ==>
                 LeastOnDay(z, atTimes, date + daysOfWeek[i] - Weekday(date), from, ZERO)
      ensures forall t, j :: 0 <= j <= i && OnWeekday(z, t, daysOfWeek[j]) && Remaining(z, date, t) ==> t <= from
    {
      var wd := daysOfWeek[i];
      forall t | OnWeekday(z, t, wd) && Remaining(z, date, t) ensures t <= from {
        if wd >= Weekday(date) {
          SameDayOfWeek(date, wd);
        } else {
          EarlierWeekdayIsPast(date, DayOf(z.Wall(t)));
        }
      }
    }

    lemma LaterWeekdays(z: Zone, date: int, i: nat, from: Time, r: Time)
      requires Valid() && z.Valid() && i < |daysOfWeek| && from >= ZERO && daysOfWeek[i] >= Weekday(date) && r != ZERO
      requires LeastOnDay(z, atTimes, date + daysOfWeek[i] - Weekday(date), from, r)
      requires forall t, j :: 0 <= j < i && OnWeekday(z, t, daysOfWeek[j]) && Remaining(z, date, t) ==> t <= from
      ensures LeastFrom(z, date, from, r)
    {
      var wd := daysOfWeek[i];
      SameDayOfWeek(date, wd);
      assert Weekday(DayOf(z.Wall(r))) == wd;
      forall t | Slot(z, t) && Remaining(z, date, t) && t > from ensures r <= t {
        var day := DayOf(z.Wall(t));
        var j :| 0 <= j < |daysOfWeek| && daysOfWeek[j] == Weekday(day);
        assert j >= i && daysOfWeek[i] <= daysOfWeek[j];
        SameDayOfWeek(date, Weekday(day));
        hide Weekday, WeekOf, DayOf, Zone.Wall;
        if day > date + wd - Weekday(date) {
          LaterDay(z, r, t);
        }
      }
    }

    /** What the rest of this week, or the week `k` intervals on, has to offer. */
    function InWeek(z: Zone, lastRun: Time, k: nat): Time {
      var today := DayOf(z.Wall(lastRun));
      FirstOfWeek(z, daysOfWeek, if k == 0 then today else Sunday(WeekOf(today) + k * interval), lastRun)
    }

    /** The answer comes from the first week of the class that has a run. */
    ghost predicate FirstIn(z: Zone, lastRun: Time, k: nat, r: Time) {
      r != ZERO && r == InWeek(z, lastRun, k) && forall i: nat :: i < k ==> InWeek(z, lastRun, i) == ZERO
    }

    /** A later week without a run is one the gap reaches into or past. */
    lemma EmptyWeek(z: Zone, week: int, from: Time)
      requires Ordered() && z.Valid() && HasRuns() && policy.Skip? && from >= ZERO && week > WeekOf(DayOf(z.Wall(from)))
      requires FirstOfWeek(z, daysOfWeek, Sunday(week), from) == ZERO
      ensures Sunday(week) <= z.LastGapDay()
    {
      var last := |daysOfWeek| - 1;
      var day := Sunday(week) + daysOfWeek[last];
      FirstOfWeekIsZero(z, daysOfWeek, Sunday(week), from);
      assert FirstOnWeekday(z, daysOfWeek[last], Sunday(week), from) == ZERO && Weekday(Sunday(week)) == 0;
      hide FirstOfWeek, FirstRun;
      FirstRunIsLeast(z, policy, atTimes, day, from);
      NothingLeftOnlyInGap(z, atTimes, day, from);
    }

    /** Going on week by week, as Skip does, comes to an end if and only if there is something to find. */
    lemma SearchEnds(z: Zone, lastRun: Time)
      requires Ordered() && z.Valid() && lastRun >= ZERO && policy.Skip?
      ensures HasRuns() <==> exists k: nat :: InWeek(z, lastRun, k) != ZERO
    {
      var week := WeekOf(DayOf(z.Wall(lastRun)));
      if HasRuns() {
        var k := if z.LastGapDay() >= Sunday(week) then z.LastGapDay() - Sunday(week) + 1 else 1;
        MulMonotone(1, interval, k);
        if InWeek(z, lastRun, k) == ZERO {
          EmptyWeek(z, week + k * interval, lastRun);
        }
        assert InWeek(z, lastRun, k) != ZERO;
      } else {
        forall k: nat ensures InWeek(z, lastRun, k) == ZERO {
          NothingInWeek(z, if k == 0 then DayOf(z.Wall(lastRun)) else Sunday(week + k * interval), lastRun);
        }
      }
    }

    lemma NothingInWeek(z: Zone, date: int, from: Time)
      requires Ordered() && !HasRuns()
      ensures FirstOfWeek(z, daysOfWeek, date, from) == ZERO
    {
      FirstOfWeekIsZero(z, daysOfWeek, date, from);
      hide FirstOfWeek;
    }

    /**
      weeklyJob.next.  Numbers that name no weekday are not refused: a negative one is never reached, one
      above 6 counts on into later weeks.
    */
    method Next(z: Zone, lastRun: Time) returns (r: Time)
      requires Ordered() && z.Valid() && lastRun >= ZERO
      requires policy.Skip? ==> HasRuns()
      ensures KeepsBoth(z, DayOf(z.Wall(lastRun))) && Valid() ==> IsNext(Grid(z), lastRun, r)
      ensures if policy.Skip? then exists k: nat :: FirstIn(z, lastRun, k, r)
              else r == WithoutSkip(z, lastRun) && NextTaken(z, lastRun, r)
    {
      hide FirstOfWeek, IsNext, Reached, LeastInWeek, LeastFrom, KeepsWeek, FirstTakenInWeek;
      ghost var today := DayOf(z.Wall(lastRun));
      ghost var week := WeekOf(today);
      ghost var least := KeepsBoth(z, today) && Valid();
      if least { ReachedThisWeek(z, lastRun); }
      r := NextWeekDayAtTime(z, lastRun, 0);
      if least {
        RestOfThisWeek(z, lastRun, r);
        Conclude(z, lastRun, week, r);
      }
      assert r == InWeek(z, lastRun, 0);
      if r != ZERO {
        assert FirstIn(z, lastRun, 0, r);
        return;
      }
      var dayOffset := interval * 7 - Weekday(DayOf(z.Wall(lastRun)));
      ghost var n := interval;
      assert today + dayOffset == Sunday(week + n);
      r := NextWeekDayAtTime(z, lastRun, dayOffset);
      if least {
        WholeWeek(z, week + n, lastRun, r);
        Conclude(z, lastRun, week + n, r);
      }
      assert r == InWeek(z, lastRun, 1);
      if r != ZERO {
        assert FirstIn(z, lastRun, 1, r);
        return;
      }
      if policy.Skip? {
        ghost var k := 1;
        EmptyWeek(z, week + n, lastRun);
        while r == ZERO
          invariant n > 0 && n == k * interval && k > 0 && today + dayOffset == Sunday(week + n)
          invariant r == ZERO ==> Sunday(week + n) <= z.LastGapDay()
          invariant r == InWeek(z, lastRun, k) && forall i: nat :: i < k ==> InWeek(z, lastRun, i) == ZERO
          invariant least && r == ZERO ==> Reached(z, lastRun, week + n + interval)
          invariant least && r != ZERO ==> IsNext(Grid(z), lastRun, r)
          decreases z.LastGapDay() - Sunday(week + n), r == ZERO
        {
          dayOffset := dayOffset + interval * 7;
          n, k := n + interval, k + 1;
          r := NextWeekDayAtTime(z, lastRun, dayOffset);
          if least {
            SkipKeepsWeek(z, today + dayOffset);
            WholeWeek(z, week + n, lastRun, r);
            Conclude(z, lastRun, week + n, r);
          }
          if r == ZERO {
            EmptyWeek(z, week + n, lastRun);
          }
        }
        assert FirstIn(z, lastRun, k, r);
      } else if least {
        NothingLeft(z, lastRun);
      }
    }

    lemma SkipKeepsWeek(z: Zone, date: int)
      ensures policy.Skip? ==> KeepsWeek(z, date)
    {
    }

    lemma NothingLeft(z: Zone, lastRun: Time)
      requires Valid() && z.Valid() && !policy.Skip? && KeepsBoth(z, DayOf(z.Wall(lastRun)))
      requires LeastInWeek(z, WeekOf(DayOf(z.Wall(lastRun))) + interval, lastRun, ZERO)
      ensures IsNext(Grid(z), lastRun, ZERO)
    {
      if atTimes != [] && daysOfWeek != [] {
        var week := WeekOf(DayOf(z.Wall(lastRun))) + interval;
        var day := Sunday(week) + daysOfWeek[0];
        assert Weekday(Sunday(week)) == 0 && DateOf(daysOfWeek[0], Sunday(week)) == day;
        assert Keeps(z, policy, atTimes, day);
        LeastOfItsDay(z, week, lastRun);
        ClearDayHasRun(z, atTimes, day, lastRun);
      } else {
        NothingListed(z, lastRun);
      }
    }

    /** A week without a run has none on its first listed weekday. */
    lemma LeastOfItsDay(z: Zone, week: int, from: Time)
      requires Valid() && daysOfWeek != [] && LeastInWeek(z, week, from, ZERO)
      ensures var day := Sunday(week) + daysOfWeek[0];
              WeekOf(day) == week && LeastOnDay(z, atTimes, day, from, ZERO)
    {
      var day := Sunday(week) + daysOfWeek[0];
      assert WeekOf(day) == week && Weekday(day) == daysOfWeek[0];
      assert forall t :: ShowsAtTime(z, atTimes, t) && DayOf(z.Wall(t)) == day ==> Slot(z, t);
    }

    lemma NothingListed(z: Zone, from: Time)
      requires interval > 0 && (atTimes == [] || daysOfWeek == [])
      ensures IsNext(Grid(z), from, ZERO)
    {
      forall t ensures !Candidate(Grid(z), from, t) {
        assert !Slot(z, t);
      }
    }

    /** The slots of a week, from its first one after `from` on. */
    ghost predicate LeastInWeek(z: Zone, week: int, from: Time, r: Time) {
      if r == ZERO then forall t :: Slot(z, t) && WeekOf(DayOf(z.Wall(t))) == week ==> t <= from
      else
        && r > from && Slot(z, r) && WeekOf(DayOf(z.Wall(r))) == week
        && forall t :: Slot(z, t) && WeekOf(DayOf(z.Wall(t))) == week && t > from ==> r <= t
    }

    lemma RestOfThisWeek(z: Zone, from: Time, r: Time)
      requires z.Valid() && LeastFrom(z, DayOf(z.Wall(from)), from, r)
      ensures LeastInWeek(z, WeekOf(DayOf(z.Wall(from))), from, r)
    {
      forall t: Time | t > from && WeekOf(DayOf(z.Wall(t))) == WeekOf(DayOf(z.Wall(from)))
        ensures Remaining(z, DayOf(z.Wall(from)), t)
      {
        NotEarlierDay(z, from, t);
      }
      hide Slot, Remaining;
    }

    lemma WholeWeek(z: Zone, week: int, from: Time, r: Time)
      requires z.Valid() && LeastFrom(z, Sunday(week), from, r)
      ensures LeastInWeek(z, week, from, r)
    {
      assert forall t :: WeekOf(DayOf(z.Wall(t))) == week ==> Remaining(z, Sunday(week), t);
    }

    ghost predicate Reached(z: Zone, from: Time, week: int)
      requires interval > 0
    {
      Grids.Reached(Grid(z), from, week)
    }

    lemma ReachedThisWeek(z: Zone, from: Time)
      requires Valid() && z.Valid()
      ensures Reached(z, from, WeekOf(DayOf(z.Wall(from))))
    {
      GridIsValid(z);
      StartHere(Grid(z), from);
    }

    lemma Conclude(z: Zone, from: Time, week: int, r: Time)
      requires Valid() && z.Valid() && Reached(z, from, week) && LeastInWeek(z, week, from, r)
      ensures if r == ZERO then Reached(z, from, week + interval) else IsNext(Grid(z), from, r)
    {
      GridIsValid(z);
      assert LeastIn(Grid(z), week, from, r) by {
        assert forall t :: Grid(z).slot(t) <==> Slot(z, t);
      }
      ConcludePeriod(Grid(z), from, week, r);
    }

    lemma NothingLeftInWeek(z: Zone, week: int, from: Time)
      requires Valid() && z.Valid() && atTimes != [] && daysOfWeek != []
      requires week > WeekOf(DayOf(z.Wall(from))) && LeastInWeek(z, week, from, ZERO)
      ensures Sunday(week) <= z.LastGapDay() && z.gap > 0
    {
      LeastOfItsDay(z, week, from);
      NothingLeftOnlyInGap(z, atTimes, Sunday(week) + daysOfWeek[0], from);
    }

    lemma GridIsValid(z: Zone)
      requires Valid() && z.Valid()
      ensures Grid(z).Valid()
    {
      forall a: Time, b: Time | a <= b ensures WeekOf(DayOf(z.Wall(a))) <= WeekOf(DayOf(z.Wall(b))) {
        z.WallMonotone(b, a);
      }
    }

    /** A weekly schedule never runs out. */
    lemma NeverExhausted(z: Zone, from: Time)
      requires Valid() && z.Valid() && atTimes != [] && daysOfWeek != []
      ensures !IsNext(Grid(z), from, ZERO)
    {
      var week := WeekOf(DayOf(z.Wall(from)));
      var k := if z.LastGapDay() >= Sunday(week) then z.LastGapDay() - Sunday(week) + 1 else 1;
      MulMonotone(1, interval, k);
      AddMultiple(week, k, interval);
      var w := week + k * interval;
      if IsNext(Grid(z), from, ZERO) {
        assert LeastInWeek(z, w, from, ZERO) by {
          forall t | Slot(z, t) && WeekOf(DayOf(z.Wall(t))) == w ensures t <= from {
            assert !Candidate(Grid(z), from, t);
          }
        }
        NothingLeftInWeek(z, w, from);
      }
    }
  }

  /**
    A weekly Sunday 00:30 run without Skip, and clocks that jump from UTC-5 to UTC-4 at midnight on a
    Sunday: the ordinary run of the Sunday before is followed by the moved instant, late on Saturday, and
    that one by zero, although the schedule has later instants.
  */
  lemma StopsAcrossMidnight(week: int, policy: Policy)
    requires week > 1 && !policy.Skip?
    ensures var z, j := MidnightJump(Sunday(week)), WeeklyJob(1, [0], [1800], policy);
            var ordinary := At(Sunday(week - 1), 1800) - z.before;
            var moved := At(Sunday(week), 1800) - z.before - z.gap;
            && z.Valid() && LooksUpAsUTC(z) && j.Valid()
            && z.Wall(ordinary) == At(Sunday(week - 1), 1800) && ZERO < ordinary < moved
            && j.WithoutSkip(z, ordinary) == moved
            && j.WithoutSkip(z, moved) == ZERO && !IsNext(j.Grid(z), moved, ZERO)
  {
    var z, j := MidnightJump(Sunday(week)), WeeklyJob(1, [0], [1800], policy);
    var moved := At(Sunday(week), 1800) - z.before - z.gap;
    MidnightJumpGap(Sunday(week));
    OrdinaryRun(Sunday(week), Sunday(week - 1), policy);
    MovedOnSaturday(week, j);
    StopsOnSaturday(week, j);
    j.NeverExhausted(z, moved);
    hide WeeklyJob.WithoutSkip, WeeklyJob.Grid, IsNext, RunAt, LooksUpAsUTC;
  }

  lemma MovedOnSaturday(week: int, j: WeeklyJob)
    requires j == WeeklyJob(1, [0], [1800], j.policy) && !j.policy.Skip?
    ensures var z, day := MidnightJump(Sunday(week)), Sunday(week);
            j.WithoutSkip(z, At(Sunday(week - 1), 1800) - z.before) == At(day, 1800) - z.before - z.gap
  {
    var z, day, before := MidnightJump(Sunday(week)), Sunday(week), Sunday(week - 1);
    var ordinary := At(before, 1800) - z.before;
    OrdinaryRun(day, before, j.policy);
    MovedAcrossMidnight(day, j.policy);
    assert WeekOf(before) == week - 1 && Weekday(before) == 0 && Weekday(day) == 0;
    OnlySunday(z, j, before, ordinary);
    OnlySunday(z, j, day, ordinary);
    assert At(day, 1800) - z.before - z.gap > ordinary;
    hide WeeklyJob.FirstOfWeek, RunAt, MovedBack, DayOf;
  }

  lemma StopsOnSaturday(week: int, j: WeeklyJob)
    requires week > 1 && j == WeeklyJob(1, [0], [1800], j.policy) && !j.policy.Skip?
    ensures var z := MidnightJump(Sunday(week));
            j.WithoutSkip(z, At(Sunday(week), 1800) - z.before - z.gap) == ZERO
  {
    var z, day := MidnightJump(Sunday(week)), Sunday(week);
    var moved := At(day, 1800) - z.before - z.gap;
    MovedAcrossMidnight(day, j.policy);
    assert WeekOf(day - 1) == week - 1 && Weekday(day - 1) == 6;
    OnlySunday(z, j, day - 1, moved);
    OnlySunday(z, j, day, moved);
    hide WeeklyJob.FirstOfWeek, RunAt, MovedBack, At, DayOf;
  }

  lemma OnlySunday(z: Zone, j: WeeklyJob, date: int, from: Time)
    requires j.daysOfWeek == [0] && j.atTimes == [1800]
    ensures var run := RunAt(z, j.policy, date, 1800);
            j.FirstOfWeek(z, j.daysOfWeek, date, from) ==
            if Weekday(date) == 0 && ComesAfter(run, from) then run.value else ZERO
  {
    OnlyRun(z, j.policy, date, from);
    assert j.FirstOfWeek(z, [], date, from) == ZERO;
    hide FirstRun, RunAt;
  }

  /** weeklyJobDefinition.setup takes any weekday number; only 0 to 6 name weekdays. */
  method Setup(interval: nat, daysOfTheWeek: Option<seq<int>>, atTimes: Option<seq<Option<AtTime>>>, policy: Policy)
    returns (r: Result<WeeklyJob>)
    ensures r.Success? <==> interval > 0 && daysOfTheWeek.Some? && Accepted(atTimes)
    ensures r.Success? ==>
              && r.value.Ordered() && r.value.interval == interval && r.value.policy == policy
              && multiset(r.value.daysOfWeek) == multiset(daysOfTheWeek.value)
              && ClocksOf(atTimes, r.value.atTimes)
              && (r.value.Valid() <==> forall d :: d in daysOfTheWeek.value ==> 0 <= d < 7)
    ensures r.Failure? ==>
              && (interval == 0 <==> r.error == ZeroInterval)
              && (interval > 0 && daysOfTheWeek.None? <==> r.error == DaysNil)
  {
    if interval == 0 {
      return Failure(ZeroInterval);
    }
    if daysOfTheWeek.None? {
      return Failure(DaysNil);
    }
    var daysOfWeek := SortInts(daysOfTheWeek.value);
    var clocks := Convert(atTimes);
    if clocks.Failure? {
      return Failure(clocks.error);
    }
    assert forall i :: 0 <= i < |daysOfWeek| ==> daysOfWeek[i] in daysOfTheWeek.value;
    assert forall d :: d in daysOfTheWeek.value ==> d in daysOfWeek;
    return Success(WeeklyJob(interval, daysOfWeek, clocks.value, policy));
  }

  lemma EarlierWeekdayIsPast(date: int, day: int)
    requires WeekOf(day) == WeekOf(date) && day >= date
    ensures Weekday(day) >= Weekday(date)
  {
  }

  lemma SameDayOfWeek(date: int, wd: int)
    requires Weekday(date) <= wd < 7
    ensures var day := date + wd - Weekday(date);
            Weekday(day) == wd && WeekOf(day) == WeekOf(date)
    ensures forall d :: WeekOf(d) == WeekOf(date) && Weekday(d) == wd ==> d == date + wd - Weekday(date)
  {
  }
}
