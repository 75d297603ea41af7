/**
  Locations whose offset jumps forward at most once, and what `time.Date` does there.

  `gap == 0` is a fixed-offset location.  Wall-clock readings are counted in the same unit as
  instants, from the reading of day 0 at midnight.
*/
module Zones {
  import opened Times

  const SECOND := 1_000_000_000
  const HOUR := 3_600 * SECOND
  const DAY := 86_400 * SECOND

  /** An at-time: seconds since midnight. */
  type TimeOfDay = s: nat | s < 86_400

  datatype Policy = Default | Skip | RunAfterTransition

  function DayOf(wall: int): int { wall / DAY }

  /** The hour, minute and second of a reading, as seconds since midnight. */
  function ClockOf(wall: int): TimeOfDay { wall % DAY / SECOND }

  /** The reading of an at-time on a day. */
  function At(day: int, at: TimeOfDay): int { day * DAY + at * SECOND }

  /**
    Up to the instant `jump` clocks show instant + `before`; from then on they are `gap` ahead of
    that.  For a reading inside the gap `time.Date` may use either offset; `late` says whether it takes
    the one after the jump.
  */
  datatype Zone = Zone(before: int, jump: int, gap: nat, late: int -> bool)
  {
    predicate Valid() {
      gap < DAY && gap % SECOND == 0
    }

    function Wall(t: Time): int {
      t + before + if t < jump then 0 else gap
    }

    predicate InGap(wall: int) {
      jump + before <= wall < jump + before + gap
    }

    /** The last day the gap reaches into. */
    function LastGapDay(): int { (jump + before + gap - 1) / DAY }

    /** Every day has a midnight: the gap begins and ends within one day, past its midnight. */
    predicate MidnightsExist() {
      gap == 0 || (jump + before - 1) / DAY == LastGapDay()
    }

    /** A gap below a day holds at most one midnight, that of its last day. */
    lemma MissingMidnight(day: int)
      requires Valid()
      ensures InGap(At(day, 0)) <==> !MidnightsExist() && day == LastGapDay()
    {
      var first, last := jump + before, jump + before + gap - 1;
      ClockOfAt(day, 0);
      if InGap(At(day, 0)) {
        assert (first - 1) / DAY < day <= last / DAY;
      }
    }

    lemma MidnightShown(day: int)
      requires !InGap(At(day, 0))
      ensures Wall(Date(At(day, 0))) == At(day, 0) && DayOf(Wall(Date(At(day, 0)))) == day
    {
      DateInvertsWall(At(day, 0), Date(At(day, 0)));
      ClockOfAt(day, 0);
    }

    /** `time.Date` moves the midnight of `day` to the day before. */
    predicate MovesMidnight(day: int) {
      InGap(At(day, 0)) && late(At(day, 0))
    }

    /** No midnight is moved to the day before. */
    predicate KeepsMidnights() {
      MidnightsExist() || !late(At(LastGapDay(), 0))
    }

    /** The day that `time.Date` makes of a midnight. */
    lemma DayOfMidnight(day: int)
      requires Valid()
      ensures DayOf(Wall(Date(At(day, 0)))) == if MovesMidnight(day) then day - 1 else day
    {
      if InGap(At(day, 0)) {
        assert Wall(Date(At(day, 0))) == At(day, 0) + if late(At(day, 0)) then 0 - gap else gap;
      } else {
        MidnightShown(day);
      }
    }

    /** All readings of the gap are on its last day, or, when that has no midnight, on the day before. */
    lemma GapDays(day: int, at: TimeOfDay)
      requires Valid() && InGap(At(day, at))
      ensures day == LastGapDay() || (day == LastGapDay() - 1 && !MidnightsExist())
      ensures gap > 0
    {
      var first, last := jump + before, jump + before + gap - 1;
      ClockOfAt(day, at);
      assert (first - 1) / DAY <= day <= last / DAY && last / DAY <= (first - 1) / DAY + 1;
    }

    /** `time.Date` on a reading. */
    function Date(wall: int): Time {
      if wall < jump + before then wall - before
      else if InGap(wall) && !late(wall) then wall - before
      else wall - before - gap
    }

    /** The test the searches use: the normalised time shows another hour, minute or second. */
    predicate Normalised(day: int, at: TimeOfDay) {
      ClockOf(Wall(Date(At(day, at)))) != at
    }

    lemma WallMonotone(a: Time, b: Time)
      ensures a < b <==> Wall(a) < Wall(b)
    {
    }

    /** Outside the gap `Date` inverts `Wall`; no instant shows a reading inside it. */
    lemma DateInvertsWall(wall: int, t: Time)
      ensures Wall(t) == wall <==> !InGap(wall) && t == Date(wall)
    {
    }

    /** The clock comparison finds exactly the readings inside the gap. */
    lemma NormalisedIsInGap(day: int, at: TimeOfDay)
      requires Valid()
      ensures Normalised(day, at) <==> InGap(At(day, at))
    {
      var w := At(day, at);
      ClockOfAt(day, at);
      if InGap(w) {
        ClockShifted(day, at, gap);
        ClockShifted(day, at, 0 - gap);
      } else {
        DateInvertsWall(w, Date(w));
      }
    }
  }

  lemma ClockOfAt(day: int, at: TimeOfDay)
    ensures ClockOf(At(day, at)) == at && DayOf(At(day, at)) == day
  {
    assert At(day, at) / DAY == day && At(day, at) % DAY == at * SECOND;
  }

  /** Moving a reading by less than a day changes the clock. */
  lemma ClockShifted(day: int, at: TimeOfDay, shift: int)
    requires -DAY < shift < DAY && shift != 0 && shift % SECOND == 0
    ensures ClockOf(At(day, at) + shift) ==
            var c := at + shift / SECOND;
            if c < 0 then c + 86_400 else if c < 86_400 then c else c - 86_400
    ensures ClockOf(At(day, at) + shift) != at
  {
    var q := shift / SECOND;
    assert shift == q * SECOND;
    var c := at + q;
    var d := if c < 0 then day - 1 else if c < 86_400 then day else day + 1;
    var c': TimeOfDay := if c < 0 then c + 86_400 else if c < 86_400 then c else c - 86_400;
    assert At(day, at) + shift == At(d, c');
    ClockOfAt(d, c');
  }

  /** daylightSavingsTimeRunAfterTransitionTime: `clock` is what the normalised time shows. */
  function AfterTransition(normalised: Time, clock: TimeOfDay, requested: TimeOfDay): Time {
    var offset := (requested - clock) * SECOND;
    if offset <= 0 then normalised else normalised + offset
  }

  /**
    For a requested reading inside the gap the adjusted instant is that reading under the offset
    before the jump, exactly when undoing the shift `time.Date` chose stays on the requested date.
  */
  lemma AfterTransitionUsesOldOffset(z: Zone, day: int, at: TimeOfDay)
    requires z.Valid() && z.InGap(At(day, at))
    ensures var w := At(day, at);
            AfterTransition(z.Date(w), ClockOf(z.Wall(z.Date(w))), at) == w - z.before
            <==> if z.late(w) then at * SECOND >= z.gap else at * SECOND + z.gap < DAY
  {
    var w := At(day, at);
    if z.late(w) {
      assert z.Wall(z.Date(w)) == w - z.gap;
      ClockShifted(day, at, 0 - z.gap);
    } else {
      assert z.Wall(z.Date(w)) == w + z.gap;
      ClockShifted(day, at, z.gap);
    }
  }

  /**
    The choice Go makes inside the gap: it looks the reading up as if it were UTC, and when the offset
    found there does not fit, takes the one on the other side of the jump.
  */
  ghost predicate LooksUpAsUTC(z: Zone) {
    forall wall :: z.InGap(wall) ==> (z.late(wall) <==> wall < z.jump)
  }

  /** Clocks jump from UTC-5 to UTC-4 at midnight at the start of `day`, so 00:00 to 01:00 does not exist. */
  function MidnightJump(day: int): Zone {
    Zone(-5 * HOUR, day * DAY + 5 * HOUR, HOUR, wall => true)
  }

  lemma MidnightJumpGap(day: int)
    ensures var z := MidnightJump(day);
            && z.Valid() && LooksUpAsUTC(z)
            && forall wall :: z.InGap(wall) <==> day * DAY <= wall < day * DAY + HOUR
  {
  }

  /** In such a gap a 00:30 run after the transition is not put at 00:30 under the old offset. */
  lemma AfterTransitionAcrossMidnight(day: int)
    ensures var z, w := MidnightJump(day), At(day, 1800);
            z.InGap(w) && AfterTransition(z.Date(w), ClockOf(z.Wall(z.Date(w))), 1800) != w - z.before
  {
    MidnightJumpGap(day);
    AfterTransitionUsesOldOffset(MidnightJump(day), day, 1800);
  }
}
