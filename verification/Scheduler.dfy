/** The scheduler goroutine's state and each handler's effect on it. */
module Worlds {
  import opened Times
  import opened Jobs

  type JobId = nat

  /** How far a run inside runJob has got. */
  datatype Stage =
    | Checking      // contexts and stop time
    | Locking       // elector or locker
    | LockFailed    // owes a reschedule
    | ReportLock    // then a prune
    | Asking        // the before-function that may skip the run
    | Refusing      // it did: owes a reschedule
    | ReportSkip    // then a skipped completion
    | Ready         // owes a reschedule before running
    | ReportFirst   // completion reported before running
    | Announcing    // start timing
    | Working       // the job's function is running
    | Finishing     // end timing
    | ReportLast    // completion reported after running
    | Closing       // owes a reschedule after running

  /** Where an activation of a job is. */
  datatype Pc =
    | Armed(at: Time)  // a timer that has not fired
    | Sending          // blocked on jobsIn
    | Dispatched       // the executor's goroutine for it
    | Turned           // a limiter was full: reschedule and end
    | Offering         // limit-wait mode: reschedule, then queue
    | Accepted         // about to enter the limit-mode queue
    | Queued           // in the limit-mode queue
    | Handing          // about to enter the singleton runner's queue
    | Handed           // its copy is queued; this one still reschedules
    | SingleQueued     // in the singleton runner's queue
    | Clashed          // a limit-mode runner found the singleton running
    | Run(stage: Stage)

  /** `act` names the timer, dispatch or RunNow it stems from; `owes` is jobIn.shouldSendOut. */
  datatype Token = Token(id: JobId, act: nat, owes: bool, pc: Pc)

  datatype World = World(now: Time, jobs: map<JobId, Job>, tokens: map<nat, Token>, nextId: nat)
  {
    /** Lists are strictly ordered and every identity in use was handed out. */
    ghost predicate Valid() {
      && (forall id :: id in jobs ==> Ascending(jobs[id].nextScheduled))
      && (forall id :: id in jobs && jobs[id].timer.Timer? ==> jobs[id].timer.tid < nextId)
      && (forall tid :: tid in tokens ==> tid < nextId)
    }
  }

  /** time.Timer.Stop: without effect once the timer has fired. */
  function StopTimer(tokens: map<nat, Token>, timer: Timer): map<nat, Token> {
    if timer.Timer? && timer.tid in tokens && tokens[timer.tid].pc.Armed? then tokens - {timer.tid} else tokens
  }

  function Removed(w: World, id: JobId): World {
    if id !in w.jobs then w
    else w.(jobs := w.jobs - {id}, tokens := StopTimer(w.tokens, w.jobs[id].timer))
  }

  function OnReschedule(w: World, id: JobId, f: Time -> Time): World
    requires w.Valid()
  {
    if id !in w.jobs then w
    else
      var j := w.jobs[id];
      match Reschedule(j, f, w.now)
      case Remove => Removed(w, id)
      case Exhausted => w
      case Rearm(next) => WithTimer(w, id, next)
  }

  /** The job's old timer is stopped, a new one is armed for `next`, and `next` is listed. */
  function WithTimer(w: World, id: JobId, next: Time): World
    requires id in w.jobs
  {
    var j := w.jobs[id];
    w.(jobs := w.jobs[id := Rearmed(j, next, w.nextId)],
    tokens := StopTimer(w.tokens, j.timer)[w.nextId := Token(id, w.nextId, true, Armed(next))],
    nextId := w.nextId + 1)
  }

  /** The waiting timer of a job is stopped; one that has fired is out of reach. */
  ghost predicate TimerStopped(w: World, j: Job, tokens: map<nat, Token>) {
    forall q :: if q in w.tokens && !(j.timer.Timer? && q == j.timer.tid && w.tokens[q].pc.Armed?)
                then q in tokens && tokens[q] == w.tokens[q] else q !in tokens
  }

  /** `t` joins the job's list and the new timer waits for it; nothing else changes. */
  ghost predicate Rearms(w: World, id: JobId, t: Time, w': World)
    requires id in w.jobs
  {
    && id in w'.jobs && w'.nextId == w.nextId + 1 && w.nextId in w'.tokens
    && (var j, j' := w.jobs[id], w'.jobs[id];
        && j' == j.(nextScheduled := j'.nextScheduled, timer := Timer(w.nextId, t))
        && Ascending(j'.nextScheduled)
        && (forall u :: u in j'.nextScheduled <==> u in j.nextScheduled || u == t)
        && TimerStopped(w, j, w'.tokens - {w.nextId}))
    && w'.tokens[w.nextId] == Token(id, w.nextId, true, Armed(t))
    && w' == w.(jobs := w.jobs[id := w'.jobs[id]], tokens := w'.tokens, nextId := w'.nextId)
  }

  ghost predicate Drops(w: World, id: JobId, w': World)
    requires id in w.jobs
  {
    w' == w.(jobs := w.jobs - {id}, tokens := w'.tokens) && TimerStopped(w, w.jobs[id], w'.tokens)
  }

  /** What the reschedule handler owes its job, told by the schedule's orbit from its first answer. */
  ghost predicate Reschedules(w: World, id: JobId, f: Time -> Time, from: Time, w': World)
    requires id in w.jobs
  {
    var j := w.jobs[id];
    var stopTime := j.config.stopTime;
    if stopTime != ZERO && w.now > stopTime then Drops(w, id, w')
    else if f(from) == ZERO then w' == w
    else
      && (Arms(j, f, w.now, f(from), None) ==> Drops(w, id, w'))
      && forall t :: Arms(j, f, w.now, f(from), Some(t)) ==>
                       if stopTime == ZERO || t < stopTime then Rearms(w, id, t, w') else Drops(w, id, w')
  }

  lemma RearmsTimer(w: World, id: JobId, t: Time)
    requires w.Valid() && id in w.jobs && t !in w.jobs[id].nextScheduled
    ensures Rearms(w, id, t, WithTimer(w, id, t))
  {
    var j := w.jobs[id];
    InsertedAscending(j.nextScheduled, t);
    InsertedElements(j.nextScheduled, LowerBound(j.nextScheduled, t), t);
    hide Inserted, LowerBound, Ascending;
  }

  lemma RemovedDrops(w: World, id: JobId)
    requires id in w.jobs
    ensures Drops(w, id, Removed(w, id))
  {
  }

  lemma OnRescheduleExactly(w: World, id: JobId, f: Time -> Time, from: Time)
    requires w.Valid() && id in w.jobs && GoesOnFrom(w.jobs[id], w.now, from)
    ensures Reschedules(w, id, f, from, OnReschedule(w, id, f))
  {
    var j := w.jobs[id];
    assert Sorted(j.nextScheduled);
    RescheduleExactly(j, f, w.now, from);
    LoopsLeaveOff(j, f, w.now, f(from));
    RemovedDrops(w, id);
    RescheduleIsNew(j, f, w.now);
    hide Arms, Reschedule, GoesOnFrom, Drops, Rearms, Removed, WithTimer, AdvancePastNow, AdvancePastDuplicates;
    forall t, t' | Arms(j, f, w.now, f(from), Some(t)) && Arms(j, f, w.now, f(from), t') ensures t' == Some(t) {
      ArmsUnique(j, f, w.now, f(from), Some(t), t');
    }
    if Reschedule(j, f, w.now).Rearm? {
      RearmsTimer(w, id, Reschedule(j, f, w.now).next);
    }
  }

  function OnPrune(w: World, id: JobId): World {
    if id !in w.jobs then w else w.(jobs := w.jobs[id := Pruned(w.jobs[id], w.now)])
  }

  function OnCompleted(w: World, id: JobId, skipped: bool): World {
    if id !in w.jobs then w else w.(jobs := w.jobs[id := Completed(w.jobs[id], skipped, w.now)])
  }

  function OnTiming(w: World, id: JobId, startedAt: Time, completedAt: Time): World {
    if id !in w.jobs then w else w.(jobs := w.jobs[id := Timed(w.jobs[id], startedAt, completedAt)])
  }

  /** Prunes and completions touch one job's list, last run and run count, nothing else. */
  lemma PruneFrame(w: World, id: JobId)
    ensures var w' := OnPrune(w, id);
            && w' == w.(jobs := w'.jobs) && w'.jobs.Keys == w.jobs.Keys
            && forall x :: x in w.jobs ==> w'.jobs[x].config == w.jobs[x].config && w'.jobs[x].timer == w.jobs[x].timer
  {
  }

  lemma CompletedFrame(w: World, id: JobId, skipped: bool)
    ensures var w' := OnCompleted(w, id, skipped);
            && w' == w.(jobs := w'.jobs) && w'.jobs.Keys == w.jobs.Keys
            && forall x :: x in w.jobs ==> w'.jobs[x].config == w.jobs[x].config && w'.jobs[x].timer == w.jobs[x].timer
  {
  }

  /** Where the first activation of a job starts out: a timer, or a dispatch on its way. */
  function FirstPc(first: FirstRun): Pc {
    if first.Arm? then Pc.Armed(first.at) else Sending
  }

  /** The first run of a job that joins a running scheduler. */
  function OnBegin(w: World, id: JobId, j: Job, f: Time -> Time): World {
    match PrepareFirstRun(j, f, w.now)
    case Drop => w.(jobs := w.jobs - {id}, tokens := StopTimer(w.tokens, j.timer))
    case first =>
      w.(jobs := w.jobs[id := Begun(j, first, w.nextId)],
      tokens := w.tokens[w.nextId := Token(id, w.nextId, true, FirstPc(first))],
      nextId := w.nextId + 1)
  }

  function OnRunNow(w: World, id: JobId): World {
    if id !in w.jobs then w
    else w.(tokens := w.tokens[w.nextId := Token(id, w.nextId, false, Sending)], nextId := w.nextId + 1)
  }
}

module Schedulers {
  import opened Times
  import opened Jobs
  import opened Worlds

  class Scheduler {
    var now: Time
    var started: bool
    var jobs: map<JobId, Job>
    /** Timers and goroutines on their way; handlers add to it and stop timers in it. */
    var tokens: map<nat, Token>
    var nextId: nat

    ghost predicate Valid()
      reads this
    {
      View().Valid() && now > ZERO
    }

    ghost function View(): World
      reads this
    {
      World(now, jobs, tokens, nextId)
    }

    constructor (clock: Time)
      requires clock > ZERO
      ensures Valid() && !started && View() == World(clock, map[], map[], 0)
    {
      now, started, jobs, tokens, nextId := clock, false, map[], map[], 0;
    }

    method AdvancePastNow(f: Time -> Time, next: Time) returns (r: Time, ok: bool)
      ensures (if ok then Some(r) else None) == Jobs.AdvancePastNow(f, next, now)
    {
      var at := next;
      while at < now
        invariant Jobs.AdvancePastNow(f, next, now) == Jobs.AdvancePastNow(f, at, now)
        decreases now - at
      {
        var n := f(at);
        if n == ZERO || n <= at {
          return ZERO, false;
        }
        at := n;
      }
      return at, true;
    }

    method AdvanceNextPastDuplicates(f: Time -> Time, listed: seq<Time>, next: Time) returns (r: Time, ok: bool)
      requires Sorted(listed)
      ensures (if ok then Some(r) else None) == AdvancePastDuplicates(f, listed, next)
    {
      var at := next;
      var contained := NextScheduledContains(listed, at);
      while contained
        invariant contained <==> at in listed
        invariant AdvancePastDuplicates(f, listed, next) == AdvancePastDuplicates(f, listed, at)
        decreases if listed == [] then 0 else listed[|listed| - 1] - at, contained
      {
        var n := f(at);
        if n == ZERO || n <= at {
          return ZERO, false;
        }
        at := n;
        contained := NextScheduledContains(listed, at);
      }
      return at, true;
    }

    method StopTimerOf(timer: Timer)
      modifies this`tokens
      ensures tokens == StopTimer(old(tokens), timer)
    {
      if timer.Timer? && timer.tid in tokens && tokens[timer.tid].pc.Armed? {
        tokens := tokens - {timer.tid};
      }
    }

    method SelectRemoveJob(id: JobId)
      requires Valid()
      modifies this`jobs, this`tokens
      ensures Valid() && View() == Removed(old(View()), id)
    {
      if id !in jobs {
        return;
      }
      StopTimerOf(jobs[id].timer);
      jobs := jobs - {id};
    }

    /** Where the reschedule handler starts from; it sorts the list first, which is idle. */
    method FindScheduleFrom(j: Job) returns (scheduleFrom: Time)
      requires Ascending(j.nextScheduled)
      ensures scheduleFrom == ScheduleFrom(j, now)
    {
      scheduleFrom := ZERO;
      if j.config.intervalFromCompletion {
        scheduleFrom := j.lastRun;
        if scheduleFrom == ZERO {
          scheduleFrom := j.startTime;
          if scheduleFrom == ZERO {
            scheduleFrom := now;
          }
        }
      } else {
        if |j.nextScheduled| > 0 {
          scheduleFrom := FurthestOut(j.nextScheduled);
        }
        if scheduleFrom == ZERO {
          scheduleFrom := j.startTime;
        }
      }
    }

    method FurthestOut(times: seq<Time>) returns (t: Time)
      requires Ascending(times) && times != []
      ensures t == times[|times| - 1]
    {
      hide *;
      SortingAgainIsIdle(times);
      var sorted := SortInts(times);
      t := sorted[|sorted| - 1];
    }

    method SelectExecJobsOutForRescheduling(id: JobId, f: Time -> Time)
      requires Valid()
      modifies this`jobs, this`tokens, this`nextId
      ensures Valid() && View() == OnReschedule(old(View()), id, f)
      ensures forall from :: id in old(jobs) && GoesOnFrom(old(jobs)[id], now, from) ==>
                               Reschedules(old(View()), id, f, from, View())
    {
      hide StopTimer, Inserted, LowerBound, GoesOnFrom, Reschedules;
      forall from | id in jobs && GoesOnFrom(jobs[id], now, from)
        ensures Reschedules(View(), id, f, from, OnReschedule(View(), id, f))
      {
        OnRescheduleExactly(View(), id, f, from);
      }
      if id !in jobs {
        return;
      }
      var j := jobs[id];
      if j.StopTimeReached(now) {
        SelectRemoveJob(id);
        return;
      }
      var scheduleFrom := FindScheduleFrom(j);
      var next := f(scheduleFrom);
      if next == ZERO {
        return;
      }
      var ok: bool;
      if next < now {
        next, ok := AdvancePastNow(f, next);
        if !ok {
          SelectRemoveJob(id);
          return;
        }
      }
      var contained := NextScheduledContains(j.nextScheduled, next);
      if contained {
        next, ok := AdvanceNextPastDuplicates(f, j.nextScheduled, next);
        if !ok {
          SelectRemoveJob(id);
          return;
        }
      }
      if j.config.stopTime != ZERO && next >= j.config.stopTime {
        SelectRemoveJob(id);
        return;
      }
      assert Reschedule(j, f, now) == Rearm(next);
      RescheduleIsNew(j, f, now);
      ArmTimer(id, j, next);
    }

    /** The tail of the reschedule handler: replace the old timer and list the new instant. */
    method ArmTimer(id: JobId, job: Job, next: Time)
      requires Valid() && id in jobs && jobs[id] == job && next !in job.nextScheduled
      modifies this`jobs, this`tokens, this`nextId
      ensures Valid()
      ensures View() == WithTimer(old(View()), id, next)
    {
      var j := job;
      InsertedAscending(j.nextScheduled, next);
      StopTimerOf(j.timer);
      var scheduled := InsertNextScheduled(j.nextScheduled, next);
      j := j.(nextScheduled := scheduled);
      j := j.(timer := Timer(nextId, next));
      tokens := tokens[nextId := Token(id, nextId, true, Armed(next))];
      nextId := nextId + 1;
      jobs := jobs[id := j];
    }

    method UpdateNextScheduled(id: JobId)
      requires Valid()
      modifies this`jobs
      ensures Valid() && View() == OnPrune(old(View()), id)
      ensures id in jobs ==>
                Prunes(old(jobs)[id], now, jobs[id].nextScheduled)
                && jobs[id] == old(jobs)[id].(nextScheduled := jobs[id].nextScheduled)
    {
      if id !in jobs {
        return;
      }
      var j := jobs[id];
      var kept := PruneStaleScheduled(j.nextScheduled, now);
      UpcomingIsSuffix(j.nextScheduled, now);
      CompletionNoted(j, true, now);
      jobs := jobs[id := j.(nextScheduled := kept)];
    }

    method SelectExecJobsOutCompleted(id: JobId, skipped: bool)
      requires Valid()
      modifies this`jobs
      ensures Valid() && View() == OnCompleted(old(View()), id, skipped)
      ensures id in jobs ==> NotesCompletion(old(jobs)[id], skipped, now, jobs[id])
    {
      if id !in jobs {
        return;
      }
      var j := jobs[id];
      CompletionNoted(j, skipped, now);
      hide NotesCompletion;
      UpcomingIsSuffix(j.nextScheduled, now);
      var kept := PruneStaleScheduled(j.nextScheduled, now);
      j := j.(nextScheduled := kept);
      if skipped {
        jobs := jobs[id := j];
        return;
      }
      if j.config.limitRunsTo.Some? {
        j := j.(runCount := j.runCount + 1);
        if j.runCount >= j.config.limitRunsTo.value {
          jobs := jobs[id := j];
          return;
        }
      }
      j := j.(lastRun := now);
      jobs := jobs[id := j];
    }

    /** Asks for the job's removal only for a finished run of a job that has used up its runs. */
    method SelectJobTimingUpdate(id: JobId, startedAt: Time, completedAt: Time) returns (remove: bool)
      requires Valid()
      modifies this`jobs
      ensures Valid() && View() == OnTiming(old(View()), id, startedAt, completedAt)
      ensures remove <==> id in jobs && completedAt != ZERO && LimitReached(jobs[id])
      ensures id in jobs ==>
                var j, j' := old(jobs)[id], jobs[id];
                && j' == j.(lastRunStartedAt := j'.lastRunStartedAt, lastRunCompletedAt := j'.lastRunCompletedAt)
                && (if startedAt == ZERO then j'.lastRunStartedAt == j.lastRunStartedAt
                    else j'.lastRunStartedAt == startedAt)
                && (if completedAt == ZERO then j'.lastRunCompletedAt == j.lastRunCompletedAt
                    else j'.lastRunCompletedAt == completedAt)
    {
      if id !in jobs {
        return false;
      }
      var j := jobs[id];
      if startedAt != ZERO {
        j := j.(lastRunStartedAt := startedAt);
      }
      if completedAt != ZERO {
        j := j.(lastRunCompletedAt := completedAt);
      }
      jobs := jobs[id := j];
      remove := completedAt != ZERO && j.config.limitRunsTo.Some? && j.runCount >= j.config.limitRunsTo.value;
    }

    /**
      Fires at once within the grace; otherwise arms the first orbit element not before now, or drops a stuck
      schedule.
    */
    method FirstRunOrGrace(j: Job, f: Time -> Time, next: Time) returns (first: FirstRun)
      ensures first.Fire? <==> 0 < now - next <= j.config.startAtGrace
      ensures first.Fire? ==> first.at == now
      ensures !first.Fire? ==>
                exists k: nat :: LeavesOff(f, next, NotBefore(now), k, first.Armed())
    {
      AdvanceIsLeavingOff(f, next, now, Jobs.AdvancePastNow(f, next, now));
      if next >= now {
        first := Arm(next);
        assert first.Armed() == Jobs.AdvancePastNow(f, next, now);
        return;
      }
      if j.config.startAtGrace > 0 && now - next <= j.config.startAtGrace {
        return Fire(now);
      }
      var advanced, ok := AdvancePastNow(f, next);
      first := if ok then Arm(advanced) else Drop;
      assert first.Armed() == Jobs.AdvancePastNow(f, next, now);
    }

    method DispatchJobRun(id: JobId)
      modifies this`tokens, this`nextId
      ensures tokens == old(tokens)[old(nextId) := Token(id, old(nextId), true, Sending)] && nextId == old(nextId) + 1
    {
      tokens := tokens[nextId := Token(id, nextId, true, Sending)];
      nextId := nextId + 1;
    }

    /** prepareFirstRun: the returned job is still to be stored, or removed when `drop`. */
    method PrepareFirstRun(id: JobId, j: Job, f: Time -> Time) returns (updated: Job, drop: bool)
      requires now > ZERO && j.nextScheduled == []
      modifies this`tokens, this`nextId
      ensures var first := Jobs.PrepareFirstRun(j, f, now);
              && drop == first.Drop?
              && (drop ==> updated == j && tokens == old(tokens) && nextId == old(nextId))
              && (!drop ==>
                    && updated == Begun(j, first, old(nextId))
                    && updated == j.(startTime := first.at, nextScheduled := [first.at],
                                  timer := if first.Arm? then Timer(old(nextId), first.at) else j.timer)
                    && tokens == old(tokens)[old(nextId) := Token(id, old(nextId), true, FirstPc(first))]
                    && nextId == old(nextId) + 1)
    {
      assert forall t :: Inserted(j.nextScheduled, LowerBound(j.nextScheduled, t), t) == [t];
      hide LeavesOff, Inserted, LowerBound;
      updated := j;
      var next := j.startTime;
      var scheduled: seq<Time>;
      if j.config.startImmediately {
        next := now;
        DispatchJobRun(id);
      } else {
        if next == ZERO {
          next := f(now);
          if next == ZERO {
            return j, true;
          }
        }
        if next < now {
          var action := FirstRunOrGrace(j, f, next);
          LateFirstRun(j, f, next, now, action);
          hide Jobs.PrepareFirstRun;
          match action {
            case Drop => return j, true;
            case Fire(at) =>
              if j.config.stopTime != ZERO && at >= j.config.stopTime {
                return j, true;
              }
              DispatchJobRun(id);
              scheduled := InsertNextScheduled(j.nextScheduled, at);
              return j.(startTime := at, nextScheduled := scheduled), false;
            case Arm(at) => next := at;
          }
        }
        if j.config.stopTime != ZERO && next >= j.config.stopTime {
          return j, true;
        }
        updated := j.(timer := Timer(nextId, next));
        tokens := tokens[nextId := Token(id, nextId, true, Armed(next))];
        nextId := nextId + 1;
      }
      scheduled := InsertNextScheduled(j.nextScheduled, next);
      updated := updated.(startTime := next, nextScheduled := scheduled);
      drop := false;
    }

    method SelectNewJob(id: JobId, job: Job, f: Time -> Time)
      requires Valid() && id !in jobs && job.nextScheduled == [] && job.timer.NoTimer?
      modifies this`jobs, this`tokens, this`nextId
      ensures Valid()
      ensures View() == if started then OnBegin(old(View()), id, job, f) else old(View()).(jobs := old(jobs)[id := job])
    {
      var j := job;
      if started {
        var drop;
        j, drop := PrepareFirstRun(id, j, f);
        if drop {
          jobs := jobs[id := j];
          SelectRemoveJob(id);
          assert jobs == old(jobs) - {id};
          return;
        }
      }
      jobs := jobs[id := j];
    }

    method SelectRunJobRequest(id: JobId) returns (found: bool)
      requires Valid()
      modifies this`tokens, this`nextId
      ensures Valid() && View() == OnRunNow(old(View()), id) && (found <==> id in jobs)
    {
      if id !in jobs {
        return false;
      }
      tokens := tokens[nextId := Token(id, nextId, false, Sending)];
      nextId := nextId + 1;
      return true;
    }

    /** selectStart: `answers` gives each job's schedule answers. */
    method SelectStart(answers: JobId -> Time -> Time)
      requires Valid()
      modifies this
      ensures Valid() && started && Resolved(old(View()), {}, View(), answers)
    {
      hide Resolved, OnBegin;
      ghost var before := View();
      started := true;
      var todo := jobs.Keys;
      NothingResolved(before, View(), answers);
      while todo != {}
        invariant now > ZERO && started && View().Valid() && Resolved(before, todo, View(), answers)
                  && todo <= jobs.Keys
        decreases |todo|
      {
        var id :| id in todo;
        assert todo - {id} + {id} == todo;
        todo := todo - {id};
        OneMoreResolved(before, todo, id, View(), answers);
        StartJob(id, answers(id));
      }
    }

    /** One iteration of selectStart: runs listed before a stop no longer apply. */
    method StartJob(id: JobId, f: Time -> Time)
      requires Valid() && id in jobs
      modifies this`jobs, this`tokens, this`nextId
      ensures Valid() && View() == OnBegin(old(View()), id, old(jobs)[id].(nextScheduled := []), f)
    {
      var j := jobs[id].(nextScheduled := []);
      var updated, drop := PrepareFirstRun(id, j, f);
      if drop {
        SelectRemoveJob(id);
      } else {
        jobs := jobs[id := updated];
      }
    }
  }

  /** How the first run of a job is resolved at start-up, whatever was listed before. */
  function AtStart(b: World, id: JobId, answers: JobId -> Time -> Time): FirstRun
    requires id in b.jobs
  {
    Jobs.PrepareFirstRun(b.jobs[id].(nextScheduled := []), answers(id), b.now)
  }

  /** The job got its one timer or dispatch, `tid`, and lists exactly that instant. */
  ghost predicate Placed(b: World, id: JobId, tid: nat, w: World, answers: JobId -> Time -> Time)
    requires id in b.jobs
  {
    var first := AtStart(b, id, answers);
    && id in w.jobs && !first.Drop? && w.jobs[id] == Begun(b.jobs[id].(nextScheduled := []), first, tid)
    && w.jobs[id].nextScheduled == [first.at]
    && b.nextId <= tid < w.nextId && tid in w.tokens
    && w.tokens[tid] == Token(id, tid, true, FirstPc(first))
  }

  /**
    Start-up from `b` has come to `w`, with `todo` still to do: jobs whose first run is dropped are gone,
    the others have one new timer or dispatch each, and nothing else is new.
  */
  ghost predicate Resolved(b: World, todo: set<JobId>, w: World, answers: JobId -> Time -> Time) {
    && b.Valid() && w.now == b.now && todo <= w.jobs.Keys <= b.jobs.Keys
    && (forall id :: id in todo ==> w.jobs[id] == b.jobs[id])
    && (forall id :: id in b.jobs.Keys - todo ==> (id in w.jobs <==> !AtStart(b, id, answers).Drop?))
    && (forall id :: id in w.jobs.Keys - todo ==> exists tid :: Placed(b, id, tid, w, answers))
    && w.nextId == b.nextId + |w.jobs.Keys - todo|
    && (forall tid :: tid in w.tokens && tid < b.nextId ==> tid in b.tokens && w.tokens[tid] == b.tokens[tid])
  }

  lemma NothingResolved(b: World, w: World, answers: JobId -> Time -> Time)
    requires b.Valid() && w == b
    ensures Resolved(b, w.jobs.Keys, w, answers)
  {
    assert w.jobs.Keys - w.jobs.Keys == {};
  }

  /** What resolving a first run leaves alone, and what it adds. */
  ghost predicate Begins(w: World, id: JobId, j: Job, first: FirstRun, w': World) {
    && w'.now == w.now
    && (forall x :: x in w'.jobs && x != id ==> x in w.jobs && w'.jobs[x] == w.jobs[x])
    && (forall x :: x in w.jobs && x != id ==> x in w'.jobs)
    && (id in w'.jobs <==> !first.Drop?) && w'.nextId == w.nextId + (if first.Drop? then 0 else 1)
    && (forall tid :: tid in w'.tokens && tid < w.nextId ==> tid in w.tokens && w'.tokens[tid] == w.tokens[tid])
    && (forall tid :: tid in w.tokens ==>
                        (tid in w'.tokens && w'.tokens[tid] == w.tokens[tid]) || (j.timer.Timer? && j.timer.tid == tid))
    && (!first.Drop? ==>
          && w'.jobs[id] == Begun(j, first, w.nextId) && w'.jobs[id].nextScheduled == [first.at]
          && w.nextId in w'.tokens && w'.tokens[w.nextId] ==
                                      Token(id, w.nextId, true, FirstPc(first)))
  }

  lemma OnBeginBegins(w: World, id: JobId, j: Job, f: Time -> Time)
    requires w.Valid() && j.nextScheduled == []
    ensures Begins(w, id, j, Jobs.PrepareFirstRun(j, f, w.now), OnBegin(w, id, j, f))
  {
    hide PrepareFirstRun;
  }

  lemma OneMoreResolved(b: World, todo: set<JobId>, id: JobId, w: World, answers: JobId -> Time -> Time)
    requires id !in todo && w.Valid() && Resolved(b, todo + {id}, w, answers)
    ensures id in w.jobs
    ensures var w' := OnBegin(w, id, w.jobs[id].(nextScheduled := []), answers(id));
            Resolved(b, todo, w', answers) && todo <= w'.jobs.Keys
  {
    assert id in todo + {id};
    OnBeginBegins(w, id, w.jobs[id].(nextScheduled := []), answers(id));
    var w' := OnBegin(w, id, w.jobs[id].(nextScheduled := []), answers(id));
    assert w.jobs[id] == b.jobs[id];
    hide OnBegin, PrepareFirstRun, Resolved, Begins;
    ResolvedJobs(b, todo, id, w, w', answers);
    ResolvedTokens(b, todo, id, w, w', answers);
    ResolvedFrom(b, todo, w, w', answers);
  }

  ghost predicate OneResolved(b: World, todo: set<JobId>, id: JobId, w: World, w': World,
                              answers: JobId -> Time -> Time) {
    && id !in todo && Resolved(b, todo + {id}, w, answers) && id in w.jobs && id in b.jobs && w.jobs[id] == b.jobs[id]
    && Begins(w, id, b.jobs[id].(nextScheduled := []), AtStart(b, id, answers), w')
  }

  lemma ResolvedJobs(b: World, todo: set<JobId>, id: JobId, w: World, w': World, answers: JobId -> Time -> Time)
    requires OneResolved(b, todo, id, w, w', answers)
    ensures todo <= w'.jobs.Keys <= b.jobs.Keys && (forall x :: x in todo ==> w'.jobs[x] == b.jobs[x])
    ensures forall x :: x in b.jobs.Keys - todo ==> (x in w'.jobs <==> !AtStart(b, x, answers).Drop?)
    ensures w'.now == b.now && w'.nextId == b.nextId + |w'.jobs.Keys - todo|
  {
    hide AtStart, Placed;
    DoneKeys(w.jobs.Keys, w'.jobs.Keys, todo, id);
    forall x | x in b.jobs.Keys - todo ensures x in w'.jobs <==> !AtStart(b, x, answers).Drop? {
      assert x != id ==> x in b.jobs.Keys - (todo + {id});
    }
  }

  lemma DoneKeys(keys: set<JobId>, keys': set<JobId>, todo: set<JobId>, id: JobId)
    requires id in keys && id !in todo && forall x :: x != id ==> (x in keys <==> x in keys')
    ensures |keys' - todo| == |keys - (todo + {id})| + if id in keys' then 1 else 0
  {
    var done := keys - (todo + {id});
    assert keys' - todo == if id in keys' then done + {id} else done;
  }

  lemma ResolvedTokens(b: World, todo: set<JobId>, id: JobId, w: World, w': World, answers: JobId -> Time -> Time)
    requires OneResolved(b, todo, id, w, w', answers)
    ensures forall x :: x in w'.jobs.Keys - todo ==> x in b.jobs && exists tid :: Placed(b, x, tid, w', answers)
    ensures forall tid :: tid in w'.tokens && tid < b.nextId ==> tid in b.tokens && w'.tokens[tid] == b.tokens[tid]
  {
    hide AtStart;
    forall x | x in w'.jobs.Keys - todo ensures x in b.jobs && exists tid :: Placed(b, x, tid, w', answers) {
      if x == id {
        assert Placed(b, id, w.nextId, w', answers);
      } else {
        assert x in w.jobs.Keys - (todo + {id});
        var tid :| Placed(b, x, tid, w, answers);
        assert Placed(b, x, tid, w', answers);
      }
    }
  }

  lemma ResolvedFrom(b: World, todo: set<JobId>, w: World, w': World, answers: JobId -> Time -> Time)
    requires b.Valid() && w'.now == b.now && todo <= w'.jobs.Keys <= b.jobs.Keys
    requires (forall x :: x in todo ==> w'.jobs[x] == b.jobs[x])
    requires forall x :: x in b.jobs.Keys - todo ==> (x in w'.jobs <==> !AtStart(b, x, answers).Drop?)
    requires w'.nextId == b.nextId + |w'.jobs.Keys - todo|
    requires forall x :: x in w'.jobs.Keys - todo ==> x in b.jobs && exists tid :: Placed(b, x, tid, w', answers)
    requires forall tid :: tid in w'.tokens && tid < b.nextId ==> tid in b.tokens && w'.tokens[tid] == b.tokens[tid]
    ensures Resolved(b, todo, w', answers)
  {
  }

  /** Sorting an ascending list gives it back: the sort in the reschedule handler never changes anything. */
  lemma {:induction false} SortingAgainIsIdle(s: seq<int>)
    requires Ascending(s)
    ensures SortInts(s) == s
  {
    if s != [] {
      SortingAgainIsIdle(s[1..]);
      assert LowerBound(s[1..], s[0]) == 0;
    }
  }
}
