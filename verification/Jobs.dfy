/** internalJob and what one scheduler event does to it. */
module Jobs {
  import opened Times
  import Grids

  /**
    How a job answers `next`.  Within one event it is evaluated through one function; a random
    duration may use another function at each event (its arguments strictly increase within an
    event, so a function is no restriction), every other schedule always uses the same one.
  */
  datatype Schedule = Duration(duration: int) | DurationRandom(min: int, max: int) | Other(next: Time -> Time)
  {
    ghost predicate Valid() {
      match this
      case Duration(d) => d > 0
      case DurationRandom(min, max) => 0 < min < max
      case Other(_) => true
    }

    ghost predicate Answers(f: Time -> Time) {
      match this
      case Duration(d) => forall t :: f(t) == t + d
      case DurationRandom(min, max) => forall t :: t + min <= f(t) < t + max
      case Other(next) => forall t :: f(t) == next(t)
    }
  }

  datatype LimitMode = LimitModeReschedule | LimitModeWait

  datatype Config = Config(
    schedule: Schedule,
    singletonMode: Option<LimitMode>,
    intervalFromCompletion: bool,
    startImmediately: bool,
    startAtGrace: nat,
    stopTime: Time,
    limitRunsTo: Option<nat>)

  /** A timer of the clock: its identity and the instant it was armed for. */
  datatype Timer = NoTimer | Timer(tid: nat, at: Time)

  datatype Job = Job(
    config: Config,
    startTime: Time,
    nextScheduled: seq<Time>,
    timer: Timer,
    lastRun: Time,
    lastRunStartedAt: Time,
    lastRunCompletedAt: Time,
    runCount: nat)
  {
    predicate StopTimeReached(now: Time) {
      config.stopTime != ZERO && config.stopTime < now
    }

    predicate PastStop(t: Time) {
      config.stopTime != ZERO && t >= config.stopTime
    }
  }

  // ---- The two guarded loops ----

  /** advancePastNow. */
  function AdvancePastNow(f: Time -> Time, next: Time, now: Time): Option<Time>
    decreases now - next
  {
    if next >= now then Some(next)
    else
      var n := f(next);
      if n == ZERO || n <= next then None else AdvancePastNow(f, n, now)
  }

  /** advanceNextPastDuplicates. */
  function AdvancePastDuplicates(f: Time -> Time, listed: seq<Time>, next: Time): Option<Time>
    requires Sorted(listed)
    decreases if listed == [] then 0 else listed[|listed| - 1] - next
  {
    if next !in listed then Some(next)
    else
      var n := f(next);
      if n == ZERO || n <= next then None else AdvancePastDuplicates(f, listed, n)
  }

  /** The k-th value of iterating `f` from `t`. */
  ghost function Orbit(f: Time -> Time, t: Time, k: nat): Time {
    if k == 0 then t else f(Orbit(f, t, k - 1))
  }

  /** The orbit moves strictly forward through its first `k` steps and never shows zero there. */
  ghost predicate Climbs(f: Time -> Time, t: Time, k: nat) {
    forall i :: 0 < i <= k ==> Orbit(f, t, i) != ZERO && Orbit(f, t, i) > Orbit(f, t, i - 1)
  }

  ghost predicate Stuck(f: Time -> Time, t: Time) {
    f(t) == ZERO || f(t) <= t
  }

  ghost function NotBefore(now: Time): Time -> bool {
    t => t >= now
  }

  ghost function Unlisted(listed: seq<Time>): Time -> bool {
    t => t !in listed
  }

  /** Step `k` is where a guarded loop leaves off: the first element to pass `stop`, or the first one stuck. */
  ghost predicate LeavesOff(f: Time -> Time, t: Time, stop: Time -> bool, k: nat, r: Option<Time>) {
    && Climbs(f, t, k)
    && (forall i :: 0 <= i < k ==> !stop(Orbit(f, t, i)))
    && match r
       case Some(v) => v == Orbit(f, t, k) && stop(v)
       case None => !stop(Orbit(f, t, k)) && Stuck(f, Orbit(f, t, k))
  }

  lemma {:induction false} OrbitShift(f: Time -> Time, t: Time, k: nat)
    ensures Orbit(f, f(t), k) == Orbit(f, t, k + 1)
  {
    if k > 0 {
      OrbitShift(f, t, k - 1);
    }
  }

  lemma LeavesOffLater(f: Time -> Time, t: Time, stop: Time -> bool, k: nat, r: Option<Time>)
    requires LeavesOff(f, f(t), stop, k, r) && !stop(t) && !Stuck(f, t)
    ensures LeavesOff(f, t, stop, k + 1, r)
  {
    forall i | 0 <= i <= k ensures Orbit(f, f(t), i) == Orbit(f, t, i + 1) {
      OrbitShift(f, t, i);
    }
    forall i | 0 < i <= k + 1 ensures Orbit(f, t, i) != ZERO && Orbit(f, t, i) > Orbit(f, t, i - 1) {
      assert i > 1 ==> Orbit(f, f(t), i - 1) == Orbit(f, t, i) && Orbit(f, f(t), i - 2) == Orbit(f, t, i - 1);
    }
    forall i | 0 <= i < k + 1 ensures !stop(Orbit(f, t, i)) {
      assert i > 0 ==> Orbit(f, f(t), i - 1) == Orbit(f, t, i);
    }
  }

  /** Whatever `next` does, the loop ends at the first orbit element not before now, or gets stuck first. */
  lemma {:induction false} AdvancePastNowOrbit(f: Time -> Time, next: Time, now: Time) returns (k: nat)
    ensures LeavesOff(f, next, NotBefore(now), k, AdvancePastNow(f, next, now))
    decreases now - next
  {
    k := 0;
    if next < now && !Stuck(f, next) {
      k := AdvancePastNowOrbit(f, f(next), now);
      LeavesOffLater(f, next, NotBefore(now), k, AdvancePastNow(f, next, now));
      k := k + 1;
    }
  }

  /** Where the loop leaves off is determined by the orbit alone. */
  lemma LeavesOffUnique(f: Time -> Time, t: Time, stop: Time -> bool, k: nat, r: Option<Time>, k': nat,
                        r': Option<Time>)
    requires LeavesOff(f, t, stop, k, r) && LeavesOff(f, t, stop, k', r')
    ensures k == k' && r == r'
  {
    if k < k' {
      NotPassed(f, t, stop, k, r, k');
    }
    if k' < k {
      NotPassed(f, t, stop, k', r', k);
    }
  }

  lemma NotPassed(f: Time -> Time, t: Time, stop: Time -> bool, k: nat, r: Option<Time>, k': nat)
    requires LeavesOff(f, t, stop, k, r) && Climbs(f, t, k') && k < k'
    ensures stop(Orbit(f, t, k))
  {
    assert Orbit(f, t, k + 1) != ZERO && Orbit(f, t, k + 1) > Orbit(f, t, k + 1 - 1);
    assert Orbit(f, t, k + 1) == f(Orbit(f, t, k));
  }

  /** For any next function the loop's answer is where its orbit leaves off, and nothing else is. */
  lemma AdvanceIsLeavingOff(f: Time -> Time, next: Time, now: Time, r: Option<Time>)
    ensures r == AdvancePastNow(f, next, now) <==> exists k: nat :: LeavesOff(f, next, NotBefore(now), k, r)
  {
    var k := AdvancePastNowOrbit(f, next, now);
    if k' : nat :| LeavesOff(f, next, NotBefore(now), k', r) {
      LeavesOffUnique(f, next, NotBefore(now), k, AdvancePastNow(f, next, now), k', r);
    }
  }

  lemma {:induction false} AdvancePastDuplicatesOrbit(f: Time -> Time, listed: seq<Time>, next: Time) returns (k: nat)
    requires Sorted(listed)
    ensures LeavesOff(f, next, Unlisted(listed), k, AdvancePastDuplicates(f, listed, next))
    decreases if listed == [] then 0 else listed[|listed| - 1] - next
  {
    k := 0;
    if next in listed && !Stuck(f, next) {
      k := AdvancePastDuplicatesOrbit(f, listed, f(next));
      LeavesOffLater(f, next, Unlisted(listed), k, AdvancePastDuplicates(f, listed, next));
      k := k + 1;
    }
  }

  /** For a fixed duration the loop is rounding up to a whole number of intervals. */
  lemma {:induction false} AdvanceDurationClosedForm(f: Time -> Time, d: int, next: Time, now: Time)
    requires d > 0 && (forall t :: f(t) == t + d) && ZERO < next < now
    ensures AdvancePastNow(f, next, now) == Some(next + (now - next + d - 1) / d * d)
    decreases now - next
  {
    if next + d >= now {
      Grids.DivModUnique(now - next + d - 1, 1, now - next - 1, d);
    } else {
      AdvanceDurationClosedForm(f, d, next + d, now);
      OneMoreInterval(now - next - 1, d);
    }
  }

  lemma OneMoreInterval(x: int, d: int)
    requires d > 0
    ensures (x + d) / d * d == x / d * d + d
  {
    var q := x / d;
    assert (q + 1) * d == q * d + d;
    Grids.DivModUnique(x + d, q + 1, x % d, d);
  }

  // ---- Handlers, as functions of the job ----

  /** Where the reschedule handler starts from. */
  function ScheduleFrom(j: Job, now: Time): Time {
    if j.config.intervalFromCompletion then
      if j.lastRun != ZERO then j.lastRun
      else if j.startTime != ZERO then j.startTime
      else now
    else
      var last := if |j.nextScheduled| > 0 then j.nextScheduled[|j.nextScheduled| - 1] else ZERO;
      if last != ZERO then last else j.startTime
  }

  datatype Rescheduled = Remove | Exhausted | Rearm(next: Time)

  /** What selectExecJobsOutForRescheduling decides for a registered job. */
  function Reschedule(j: Job, f: Time -> Time, now: Time): Rescheduled
    requires Sorted(j.nextScheduled)
  {
    if j.StopTimeReached(now) then Remove
    else
      var next := f(ScheduleFrom(j, now));
      if next == ZERO then Exhausted
      else match AdvancePastNow(f, next, now)
           case None => Remove
           case Some(upcoming) =>
             match AdvancePastDuplicates(f, j.nextScheduled, upcoming)
             case None => Remove
             case Some(unlisted) => if j.PastStop(unlisted) then Remove else Rearm(unlisted)
  }

  /** The job once a timer for `next` is armed. */
  function Rearmed(j: Job, next: Time, tid: nat): Job {
    j.(nextScheduled := Inserted(j.nextScheduled, LowerBound(j.nextScheduled, next), next), timer := Timer(tid, next))
  }

  function Pruned(j: Job, now: Time): Job {
    j.(nextScheduled := Upcoming(j.nextScheduled, now))
  }

  /** selectExecJobsOutCompleted. */
  function Completed(j: Job, skipped: bool, now: Time): Job {
    var p := Pruned(j, now);
    if skipped then p
    else if j.config.limitRunsTo.Some? then
      var counted := p.(runCount := j.runCount + 1);
      if counted.runCount >= j.config.limitRunsTo.value then counted else counted.(lastRun := now)
    else p.(lastRun := now)
  }

  /** Only the entries after now stay, in their order. */
  ghost predicate Prunes(j: Job, now: Time, listed: seq<Time>) {
    Ascending(listed) && forall t :: t in listed <==> t in j.nextScheduled && t > now
  }

  /** A run that was not skipped counts under a limit, and is the last run unless the runs are used up. */
  ghost predicate NotesCompletion(j: Job, skipped: bool, now: Time, j': Job) {
    && Prunes(j, now, j'.nextScheduled)
    && (skipped ==> j' == j.(nextScheduled := j'.nextScheduled))
    && (!skipped && j.config.limitRunsTo.None? ==> j' == j.(nextScheduled := j'.nextScheduled, lastRun := now))
    && (!skipped && j.config.limitRunsTo.Some? ==>
          j' == j.(nextScheduled := j'.nextScheduled, runCount := j.runCount + 1,
          lastRun := if j.runCount + 1 < j.config.limitRunsTo.value then now else j.lastRun))
  }

  lemma CompletionNoted(j: Job, skipped: bool, now: Time)
    requires Ascending(j.nextScheduled)
    ensures Prunes(j, now, Pruned(j, now).nextScheduled) && NotesCompletion(j, skipped, now, Completed(j, skipped, now))
  {
    UpcomingIsSuffix(j.nextScheduled, now);
    hide Ascending;
  }

  /** selectJobTimingUpdate. */
  function Timed(j: Job, startedAt: Time, completedAt: Time): Job {
    j.(lastRunStartedAt := if startedAt != ZERO then startedAt else j.lastRunStartedAt,
    lastRunCompletedAt := if completedAt != ZERO then completedAt else j.lastRunCompletedAt)
  }

  predicate LimitReached(j: Job) {
    j.config.limitRunsTo.Some? && j.runCount >= j.config.limitRunsTo.value
  }

  datatype FirstRun = Drop | Fire(at: Time) | Arm(at: Time)
  {
    /** The instant to arm a timer for, if any. */
    function Armed(): Option<Time> {
      if Arm? then Some(at) else None
    }
  }

  /** What prepareFirstRun decides. */
  function PrepareFirstRun(j: Job, f: Time -> Time, now: Time): FirstRun {
    if j.config.startImmediately then Fire(now)
    else
      var next := if j.startTime == ZERO then f(now) else j.startTime;
      if next == ZERO then Drop
      else if next < now && j.config.startAtGrace > 0 && now - next <= j.config.startAtGrace then
        if j.PastStop(now) then Drop else Fire(now)
      else match AdvancePastNow(f, next, now)
           case None => Drop
           case Some(at) => if j.PastStop(at) then Drop else Arm(at)
  }

  /** A late first run is resolved by where the orbit leaves off, unless the grace covers it. */
  lemma LateFirstRun(j: Job, f: Time -> Time, next: Time, now: Time, action: FirstRun)
    requires !j.config.startImmediately && next == IntendedFirstRun(j, f, now) && next != ZERO && next < now
    requires (action.Fire? <==> now - next <= j.config.startAtGrace) && (action.Fire? ==> action.at == now)
    requires !action.Fire? ==> exists k: nat :: LeavesOff(f, next, NotBefore(now), k, action.Armed())
    ensures PrepareFirstRun(j, f, now) == if !action.Drop? && j.PastStop(action.at) then Drop else action
  {
    AdvanceIsLeavingOff(f, next, now, action.Armed());
    hide LeavesOff;
  }

  /** The job after a first run was dispatched or armed. */
  function Begun(j: Job, first: FirstRun, tid: nat): Job
    requires !first.Drop?
  {
    j.(startTime := first.at,
    nextScheduled := Inserted(j.nextScheduled, LowerBound(j.nextScheduled, first.at), first.at),
    timer := if first.Arm? then Timer(tid, first.at) else j.timer)
  }

  /** The intended first run: the configured start, or the schedule's first answer. */
  ghost function IntendedFirstRun(j: Job, f: Time -> Time, now: Time): Time {
    if j.startTime != ZERO then j.startTime else f(now)
  }

  /**
    First-run resolution: exactly one of drop, immediate dispatch and one armed timer, told by the
    lateness of the intended run, the stop time, and where the schedule's orbit passes `now`.
  */
  lemma FirstRunResolution(j: Job, f: Time -> Time, now: Time) returns (k: nat, r: Option<Time>)
    requires now > ZERO
    ensures LeavesOff(f, IntendedFirstRun(j, f, now), NotBefore(now), k, r)
    ensures var first := PrepareFirstRun(j, f, now);
            var base := IntendedFirstRun(j, f, now);
            var graced := base != ZERO && 0 < now - base <= j.config.startAtGrace;
            && (first.Fire? <==> j.config.startImmediately || (graced && !j.PastStop(now)))
            && (first.Arm? <==> !j.config.startImmediately && base != ZERO && !graced && r.Some?
                                && !j.PastStop(r.value))
            && (first.Fire? ==> first.at == now)
            && (first.Arm? ==> first.at == r.value >= now)
  {
    k := AdvancePastNowOrbit(f, IntendedFirstRun(j, f, now), now);
    r := AdvancePastNow(f, IntendedFirstRun(j, f, now), now);
  }

  lemma {:induction false} AdvanceIsForward(f: Time -> Time, next: Time, now: Time)
    ensures AdvancePastNow(f, next, now).Some? ==> AdvancePastNow(f, next, now).value >= next
    ensures AdvancePastNow(f, next, now).Some? ==> AdvancePastNow(f, next, now).value >= now
    decreases now - next
  {
    if next < now && !Stuck(f, next) {
      AdvanceIsForward(f, f(next), now);
    }
  }

  /** A rescheduled instant is not yet listed, not in the past and before any stop time. */
  lemma RescheduleIsNew(j: Job, f: Time -> Time, now: Time)
    requires Sorted(j.nextScheduled)
    ensures var r := Reschedule(j, f, now);
            r.Rearm? ==> r.next !in j.nextScheduled && r.next >= now && !j.PastStop(r.next)
  {
    var next := f(ScheduleFrom(j, now));
    AdvanceIsForward(f, next, now);
    var upcoming := AdvancePastNow(f, next, now);
    if upcoming.Some? {
      var k := AdvancePastDuplicatesOrbit(f, j.nextScheduled, upcoming.value);
      DuplicatesIsForward(f, j.nextScheduled, upcoming.value);
    }
  }

  lemma {:induction false} DuplicatesIsForward(f: Time -> Time, listed: seq<Time>, next: Time)
    requires Sorted(listed)
    ensures AdvancePastDuplicates(f, listed, next).Some? ==> AdvancePastDuplicates(f, listed, next).value >= next
    decreases if listed == [] then 0 else listed[|listed| - 1] - next
  {
    if next in listed && !Stuck(f, next) {
      DuplicatesIsForward(f, listed, f(next));
    }
  }

  // ---- Which instant a reschedule arms ----

  /** The instant to go on from: the last one that is not zero time, in the order given. */
  ghost predicate GoesOnFrom(j: Job, now: Time, from: Time) {
    if j.config.intervalFromCompletion then
      || (j.lastRun != ZERO && from == j.lastRun)
      || (j.lastRun == ZERO && j.startTime != ZERO && from == j.startTime)
      || (j.lastRun == ZERO && j.startTime == ZERO && from == now)
    else
      || (from != ZERO && Latest(j.nextScheduled, from))
      || ((j.nextScheduled == [] || Latest(j.nextScheduled, ZERO)) && from == j.startTime)
  }

  ghost predicate Latest(listed: seq<Time>, t: Time) {
    t in listed && forall u :: u in listed ==> u <= t
  }

  ghost function Armable(listed: seq<Time>, now: Time): Time -> bool {
    t => t >= now && t !in listed
  }

  /** One orbit is followed through both loops: it ends at the first element neither past nor listed. */
  ghost predicate Arms(j: Job, f: Time -> Time, now: Time, first: Time, r: Option<Time>) {
    exists k: nat :: LeavesOff(f, first, Armable(j.nextScheduled, now), k, r)
  }

  lemma {:induction false} OrbitOfOrbit(f: Time -> Time, t: Time, k: nat, l: nat)
    ensures Orbit(f, Orbit(f, t, k), l) == Orbit(f, t, k + l)
  {
    if l > 0 {
      OrbitOfOrbit(f, t, k, l - 1);
    }
  }

  lemma {:induction false} ClimbsBeyond(f: Time -> Time, t: Time, k: nat)
    requires Climbs(f, t, k)
    ensures Orbit(f, t, k) >= t
  {
    if k > 0 {
      ClimbsBeyond(f, t, k - 1);
    }
  }

  /** Reaching now and then an unlisted instant is reaching an instant that is both. */
  lemma LoopsJoin(f: Time -> Time, first: Time, listed: seq<Time>, now: Time, k: nat, l: nat, r: Option<Time>)
    requires LeavesOff(f, first, NotBefore(now), k, Some(Orbit(f, first, k)))
    requires LeavesOff(f, Orbit(f, first, k), Unlisted(listed), l, r)
    ensures LeavesOff(f, first, Armable(listed, now), k + l, r)
  {
    var reached := Orbit(f, first, k);
    forall i: nat | i <= l ensures Orbit(f, reached, i) == Orbit(f, first, k + i) && Orbit(f, reached, i) >= now {
      OrbitOfOrbit(f, first, k, i);
      ClimbsBeyond(f, reached, i);
    }
    forall i | 0 < i <= k + l ensures Orbit(f, first, i) != ZERO && Orbit(f, first, i) > Orbit(f, first, i - 1) {
      if i > k {
        assert Orbit(f, reached, i - k) == Orbit(f, first, i) && Orbit(f, reached, i - k - 1) == Orbit(f, first, i - 1);
      }
    }
    forall i | 0 <= i < k + l ensures !Armable(listed, now)(Orbit(f, first, i)) {
      if i >= k {
        assert Orbit(f, reached, i - k) == Orbit(f, first, i);
      }
    }
  }

  lemma LoopsLeaveOff(j: Job, f: Time -> Time, now: Time, first: Time)
    requires Sorted(j.nextScheduled)
    ensures var upcoming := AdvancePastNow(f, first, now);
            Arms(j, f, now, first,
                 if upcoming.None? then None else AdvancePastDuplicates(f, j.nextScheduled, upcoming.value))
  {
    var k := AdvancePastNowOrbit(f, first, now);
    var upcoming := AdvancePastNow(f, first, now);
    if upcoming.Some? {
      var l := AdvancePastDuplicatesOrbit(f, j.nextScheduled, upcoming.value);
      LoopsJoin(f, first, j.nextScheduled, now, k, l, AdvancePastDuplicates(f, j.nextScheduled, upcoming.value));
    } else {
      assert LeavesOff(f, first, Armable(j.nextScheduled, now), k, None);
    }
  }

  lemma ArmsUnique(j: Job, f: Time -> Time, now: Time, first: Time, r: Option<Time>, r': Option<Time>)
    requires Arms(j, f, now, first, r) && Arms(j, f, now, first, r')
    ensures r == r'
  {
    var k: nat :| LeavesOff(f, first, Armable(j.nextScheduled, now), k, r);
    var k': nat :| LeavesOff(f, first, Armable(j.nextScheduled, now), k', r');
    LeavesOffUnique(f, first, Armable(j.nextScheduled, now), k, r, k', r');
  }

  lemma GoesOnFromIs(j: Job, now: Time, from: Time)
    requires Sorted(j.nextScheduled) && GoesOnFrom(j, now, from)
    ensures from == ScheduleFrom(j, now)
  {
    if !j.config.intervalFromCompletion && j.nextScheduled != [] {
      var last := j.nextScheduled[|j.nextScheduled| - 1];
      assert last in j.nextScheduled;
    }
  }

  /**
    The reschedule decision in full.  The orbit starts at the schedule's first answer.  Its first element that
    is neither past nor listed is armed if it comes before the stop time; a zero first answer exhausts the
    job; a stop time reached, an orbit stuck before such an element, or one at the stop time removes it.
  */
  lemma RescheduleExactly(j: Job, f: Time -> Time, now: Time, from: Time)
    requires Sorted(j.nextScheduled) && GoesOnFrom(j, now, from)
    ensures var r, stopped := Reschedule(j, f, now), j.config.stopTime != ZERO && now > j.config.stopTime;
            && (r.Exhausted? <==> !stopped && f(from) == ZERO)
            && (forall t :: r == Rearm(t) <==>
                            && !stopped && f(from) != ZERO && Arms(j, f, now, f(from), Some(t))
                            && (j.config.stopTime != ZERO ==> t < j.config.stopTime))
            && (r.Remove? <==>
                || stopped
                || (f(from) != ZERO && Arms(j, f, now, f(from), None))
                || (f(from) != ZERO
                    && exists t :: Arms(j, f, now, f(from), Some(t)) && j.config.stopTime != ZERO
                                   && t >= j.config.stopTime))
  {
    GoesOnFromIs(j, now, from);
    LoopsLeaveOff(j, f, now, f(from));
    var r := AdvancePastNow(f, f(from), now);
    var armed := if r.None? then None else AdvancePastDuplicates(f, j.nextScheduled, r.value);
    hide Arms, GoesOnFrom, ScheduleFrom;
    forall other | Arms(j, f, now, f(from), other) ensures other == armed {
      ArmsUnique(j, f, now, f(from), other, armed);
    }
  }

  /** There is always such an instant to go on from, and only one. */
  lemma GoesOnSomewhere(j: Job, now: Time)
    requires Sorted(j.nextScheduled)
    ensures GoesOnFrom(j, now, ScheduleFrom(j, now))
  {
    if !j.config.intervalFromCompletion && j.nextScheduled != [] {
      var last := j.nextScheduled[|j.nextScheduled| - 1];
      assert Latest(j.nextScheduled, last);
    }
  }
}
