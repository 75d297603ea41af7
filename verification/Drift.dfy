/** Consequences of the handlers for one job over any sequence of events: no drift, and NextRuns. */
module Drift {
  import opened Times
  import opened Jobs
  import Grids

  /** Everything the scheduler can do to a registered job, in any order and at any times. */
  datatype Event =
    | Reschedule(f: Time -> Time, now: Time, tid: nat)
    | Complete(skipped: bool, now: Time)
    | Prune(now: Time)
    | Timing(startedAt: Time, completedAt: Time)
    | Start(f: Time -> Time, now: Time, tid: nat)

  /** None when the event removes the job. */
  function Step(j: Job, e: Event): Option<Job>
    requires Sorted(j.nextScheduled)
  {
    match e
    case Reschedule(f, now, tid) =>
      (match Jobs.Reschedule(j, f, now)
       case Remove => None
       case Exhausted => Some(j)
       case Rearm(next) => Some(Rearmed(j, next, tid)))
    case Complete(skipped, now) => Some(Completed(j, skipped, now))
    case Prune(now) => Some(Pruned(j, now))
    case Timing(startedAt, completedAt) => Some(Timed(j, startedAt, completedAt))
    case Start(f, now, tid) =>
      var cleared := j.(nextScheduled := []);
      var first := PrepareFirstRun(cleared, f, now);
      if first.Drop? then None else Some(Begun(cleared, first, tid))
  }

  ghost predicate Faithful(j: Job, e: Event) {
    match e
    case Reschedule(f, _, _) => j.config.schedule.Answers(f)
    case Start(f, _, _) => j.config.schedule.Answers(f)
    case _ => true
  }

  /** A run of the job: jobs[i + 1] is jobs[i] after events[i]. */
  ghost predicate Run(jobs: seq<Job>, events: seq<Event>) {
    && |jobs| == |events| + 1
    && Ascending(jobs[0].nextScheduled)
    && forall i :: 0 <= i < |events| ==> Faithful(jobs[i], events[i]) && Steps(jobs[i], events[i], jobs[i + 1])
  }

  ghost predicate Steps(j: Job, e: Event, j': Job) {
    Sorted(j.nextScheduled) ==> Step(j, e) == Some(j')
  }

  /** No event disturbs the order of the listed instants, so sorting them again changes nothing. */
  lemma StepKeepsAscending(j: Job, e: Event)
    requires Ascending(j.nextScheduled)
    ensures Step(j, e).Some? ==> Ascending(Step(j, e).value.nextScheduled)
  {
    match e
    case Reschedule(f, now, tid) =>
      var r := Jobs.Reschedule(j, f, now);
      if r.Rearm? {
        RescheduleIsNew(j, f, now);
        InsertedAscending(j.nextScheduled, r.next);
      }
    case Complete(_, now) => UpcomingIsSuffix(j.nextScheduled, now);
    case Prune(now) => UpcomingIsSuffix(j.nextScheduled, now);
    case Timing(_, _) =>
    case Start(_, _, _) =>
  }

  predicate FixedRate(j: Job) {
    j.config.schedule.Duration? && j.config.schedule.duration > 0 && !j.config.intervalFromCompletion
  }

  /** Every listed instant is a whole number of intervals from the start time. */
  ghost predicate OnBeat(j: Job) {
    FixedRate(j) ==> forall t :: t in j.nextScheduled ==>
                                   t % j.config.schedule.duration == j.startTime % j.config.schedule.duration
  }

  /** The first run was dispatched at the current instant: start-immediately, or a grace fire. */
  predicate FiresNow(j: Job, e: Event) {
    e.Start? && PrepareFirstRun(j.(nextScheduled := []), e.f, e.now).Fire?
  }

  lemma {:induction false} AdvanceKeepsBeat(f: Time -> Time, d: int, next: Time, now: Time)
    requires d > 0 && forall t :: f(t) == t + d
    ensures AdvancePastNow(f, next, now).Some? ==> AdvancePastNow(f, next, now).value % d == next % d
    decreases now - next
  {
    if next < now && f(next) != ZERO {
      AdvanceKeepsBeat(f, d, next + d, now);
      Grids.AddMultiple(next, 1, d);
    }
  }

  lemma {:induction false} DuplicatesKeepBeat(f: Time -> Time, d: int, listed: seq<Time>, next: Time)
    requires d > 0 && (forall t :: f(t) == t + d) && Sorted(listed)
    ensures AdvancePastDuplicates(f, listed, next).Some? ==>
              AdvancePastDuplicates(f, listed, next).value % d == next % d
    decreases if listed == [] then 0 else listed[|listed| - 1] - next
  {
    if next in listed && f(next) != ZERO {
      DuplicatesKeepBeat(f, d, listed, next + d);
      Grids.AddMultiple(next, 1, d);
    }
  }

  lemma RescheduleKeepsBeat(j: Job, f: Time -> Time, now: Time)
    requires Sorted(j.nextScheduled) && FixedRate(j) && OnBeat(j) && j.config.schedule.Answers(f)
    ensures var r := Jobs.Reschedule(j, f, now);
            r.Rearm? ==> r.next % j.config.schedule.duration == j.startTime % j.config.schedule.duration
  {
    var d := j.config.schedule.duration;
    var from := ScheduleFrom(j, now);
    var next := f(from);
    assert j.nextScheduled != [] ==> j.nextScheduled[|j.nextScheduled| - 1] in j.nextScheduled;
    Grids.AddMultiple(from, 1, d);
    AdvanceKeepsBeat(f, d, next, now);
    var upcoming := AdvancePastNow(f, next, now);
    if upcoming.Some? {
      DuplicatesKeepBeat(f, d, j.nextScheduled, upcoming.value);
    }
  }

  /** One event: the beat is kept, and the start time leaves it only when a first run fires at once. */
  lemma StepKeepsBeat(j: Job, e: Event)
    requires Sorted(j.nextScheduled) && Faithful(j, e) && OnBeat(j) && Step(j, e).Some?
    ensures OnBeat(Step(j, e).value) && Step(j, e).value.config == j.config
    ensures FixedRate(j) && !FiresNow(j, e) && (e.Start? ==> j.startTime != ZERO) ==>
              Step(j, e).value.startTime % j.config.schedule.duration == j.startTime % j.config.schedule.duration
  {
    if e.Reschedule? && FixedRate(j) {
      RescheduleKeepsBeat(j, e.f, e.now);
      var r := Jobs.Reschedule(j, e.f, e.now);
      if r.Rearm? {
        InsertedElements(j.nextScheduled, LowerBound(j.nextScheduled, r.next), r.next);
      }
    } else if e.Start? && FixedRate(j) {
      var base := IntendedFirstRun(j, e.f, e.now);
      AdvanceKeepsBeat(e.f, j.config.schedule.duration, base, e.now);
    }
  }

  /**
    No drift: through late wake-ups, prunes and restarts every entry stays a whole number of
    intervals from the current start time, and without an immediate first run the start time itself
    stays on its original beat.
  */
  lemma {:induction false} NoDrift(jobs: seq<Job>, events: seq<Event>)
    requires Run(jobs, events) && OnBeat(jobs[0])
    ensures forall i :: 0 <= i < |jobs| ==>
                          OnBeat(jobs[i]) && jobs[i].config == jobs[0].config && Ascending(jobs[i].nextScheduled)
    ensures FixedRate(jobs[0]) && jobs[0].startTime > ZERO
            && (forall i :: 0 <= i < |events| ==> !FiresNow(jobs[i], events[i]))
            ==> forall i :: 0 <= i < |jobs| ==>
                              jobs[i].startTime > ZERO
                              && jobs[i].startTime % jobs[0].config.schedule.duration ==
                                 jobs[0].startTime % jobs[0].config.schedule.duration
  {
    if events != [] {
      var n := |events| - 1;
      assert Run(jobs[..n + 1], events[..n]);
      NoDrift(jobs[..n + 1], events[..n]);
      assert forall i :: 0 <= i < n ==> events[..n][i] == events[i];
      assert forall i :: 0 <= i <= n ==> jobs[..n + 1][i] == jobs[i];
      assert Steps(jobs[n], events[n], jobs[n + 1]);
      StepKeepsAscending(jobs[n], events[n]);
      StepKeepsBeat(jobs[n], events[n]);
      if events[n].Start? && jobs[n].startTime > ZERO && !FiresNow(jobs[n], events[n]) {
        StartStaysPositive(jobs[n], events[n]);
      }
    }
  }

  lemma StartStaysPositive(j: Job, e: Event)
    requires e.Start? && j.startTime > ZERO && !FiresNow(j, e) && Sorted(j.nextScheduled) && Step(j, e).Some?
    ensures Step(j, e).value.startTime > ZERO
  {
    AdvanceIsForward(e.f, j.startTime, e.now);
  }

  // ---- Job.NextRuns ----

  /** Continue a non-empty list with the schedule's answers until it has `count` entries or must stop. */
  function Continued(j: Job, f: Time -> Time, out: seq<Time>, count: nat): seq<Time>
    requires out != []
    decreases count - |out|
  {
    if |out| >= count then out
    else
      var next := f(out[|out| - 1]);
      if next == ZERO || j.PastStop(next) then out else Continued(j, f, out + [next], count)
  }

  function NextRunsOf(j: Job, f: Time -> Time, count: nat): seq<Time> {
    if j.nextScheduled == [] then []
    else if count <= |j.nextScheduled| then j.nextScheduled[..count]
    else Continued(j, f, j.nextScheduled, count)
  }

  /** A negative count is not refused: unless nothing is listed it is a slice bound out of range. */
  method NextRuns(j: Job, f: Time -> Time, count: int) returns (runs: Option<seq<Time>>)
    ensures runs.None? <==> count < 0 && j.nextScheduled != []
    ensures runs.Some? ==> runs.value == NextRunsOf(j, f, if count < 0 then 0 else count)
  {
    var listed := |j.nextScheduled|;
    if listed == 0 {
      return Some([]);
    } else if count <= listed {
      return if count < 0 then None else Some(j.nextScheduled[..count]);
    }
    var out := new Time[count];
    for i := 0 to count
      invariant i <= listed ==> out[..i] == j.nextScheduled[..i]
      invariant i > listed ==> out[..i] != []
                               && Continued(j, f, out[..i], count) == Continued(j, f, j.nextScheduled, count)
    {
      if i < listed {
        out[i] := j.nextScheduled[i];
        continue;
      }
      assert i == listed ==> out[..i] == j.nextScheduled;
      var next := f(out[i - 1]);
      ghost var before := out[..i];
      assert before[|before| - 1] == out[i - 1];
      if next == ZERO {
        return Some(out[..i]);
      }
      if j.config.stopTime != ZERO && next >= j.config.stopTime {
        return Some(out[..i]);
      }
      out[i] := next;
      assert out[..i + 1] == before + [next];
    }
    return Some(out[..]);
  }

  ghost predicate MovesForward(f: Time -> Time) {
    forall t :: f(t) == ZERO || f(t) > t
  }

  /** What a continued list looks like, entry by entry, and when it may end early. */
  ghost predicate Continues(j: Job, f: Time -> Time, out: seq<Time>, count: nat, r: seq<Time>)
    requires out != []
  {
    && out <= r && |r| <= (if |out| >= count then |out| else count)
    && (forall i :: |out| <= i < |r| ==> r[i] == f(r[i - 1]) && r[i] != ZERO && !j.PastStop(r[i]))
    && (|r| < count ==> f(r[|r| - 1]) == ZERO || j.PastStop(f(r[|r| - 1])))
  }

  lemma {:induction false} ContinuedContinues(j: Job, f: Time -> Time, out: seq<Time>, count: nat)
    requires out != []
    ensures Continues(j, f, out, count, Continued(j, f, out, count))
    ensures Ascending(out) && MovesForward(f) ==> Ascending(Continued(j, f, out, count))
    decreases count - |out|
  {
    if |out| < count {
      var next := f(out[|out| - 1]);
      if next != ZERO && !j.PastStop(next) {
        ContinuedContinues(j, f, out + [next], count);
        var r := Continued(j, f, out + [next], count);
        assert r[|out|] == (out + [next])[|out|] && r[|out| - 1] == (out + [next])[|out| - 1];
        assert out <= out + [next];
        if Ascending(out) && MovesForward(f) {
          AppendAscending(out, next);
        }
      }
    }
  }

  /** Sound: listed entries first, then strictly ascending answers before the stop time, as many as there are. */
  lemma NextRunsSound(j: Job, f: Time -> Time, count: nat)
    requires Ascending(j.nextScheduled) && MovesForward(f)
    ensures var runs := NextRunsOf(j, f, count);
            && Ascending(runs) && |runs| <= count
            && (j.nextScheduled == [] ==> runs == [])
            && (j.nextScheduled != [] && count <= |j.nextScheduled| ==> runs == j.nextScheduled[..count])
            && (j.nextScheduled != [] && count > |j.nextScheduled| ==> Continues(j, f, j.nextScheduled, count, runs))
  {
    if j.nextScheduled != [] && count > |j.nextScheduled| {
      ContinuedContinues(j, f, j.nextScheduled, count);
    }
  }

  lemma {:induction false} ContinuedPrefix(j: Job, f: Time -> Time, out: seq<Time>, n: nat, m: nat)
    requires out != [] && n <= m
    ensures Continued(j, f, out, n) <= Continued(j, f, out, m)
    decreases m - |out|
  {
    ContinuedContinues(j, f, out, m);
    if |out| < n {
      var next := f(out[|out| - 1]);
      if next != ZERO && !j.PastStop(next) {
        ContinuedPrefix(j, f, out + [next], n, m);
      }
    }
  }

  /** Asking for more runs never changes the ones already told. */
  lemma NextRunsPrefixStable(j: Job, f: Time -> Time, n: nat, m: nat)
    requires n <= m
    ensures NextRunsOf(j, f, n) <= NextRunsOf(j, f, m)
  {
    if j.nextScheduled != [] && m > |j.nextScheduled| {
      ContinuedPrefix(j, f, j.nextScheduled, n, m);
      ContinuedContinues(j, f, j.nextScheduled, m);
    }
  }
}
