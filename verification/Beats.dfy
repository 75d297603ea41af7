/** The handlers act on each job as the steps of Drift, so that nothing drifts in any execution. */
module Beats {
  import opened Times
  import opened Jobs
  import opened Worlds
  import opened Protocol
  import Drift
  import Spacing

  function JobAt(w: World, id: JobId): Option<Job> {
    if id in w.jobs then Some(w.jobs[id]) else None
  }

  // ---- Each handler is a step of its own job and leaves the others alone ----

  ghost predicate OnlyJob(w: World, w': World, id: JobId) {
    forall x :: x != id ==> JobAt(w', x) == JobAt(w, x)
  }

  lemma RescheduleIsStep(w: World, id: JobId, f: Time -> Time)
    requires w.Valid()
    ensures OnlyJob(w, OnReschedule(w, id, f), id)
    ensures id in w.jobs ==>
              JobAt(OnReschedule(w, id, f), id) == Drift.Step(w.jobs[id], Drift.Reschedule(f, w.now, w.nextId))
  {
    hide Reschedule, StopTimer, Rearmed;
  }

  lemma PruneIsStep(w: World, id: JobId)
    requires w.Valid()
    ensures OnlyJob(w, OnPrune(w, id), id)
    ensures id in w.jobs ==> JobAt(OnPrune(w, id), id) == Drift.Step(w.jobs[id], Drift.Prune(w.now))
  {
    hide Pruned;
  }

  lemma CompletedIsStep(w: World, id: JobId, skipped: bool)
    requires w.Valid()
    ensures OnlyJob(w, OnCompleted(w, id, skipped), id)
    ensures id in w.jobs ==>
              JobAt(OnCompleted(w, id, skipped), id) == Drift.Step(w.jobs[id], Drift.Complete(skipped, w.now))
  {
    hide Completed;
  }

  lemma TimingIsStep(w: World, id: JobId, startedAt: Time, completedAt: Time)
    requires w.Valid()
    ensures OnlyJob(w, OnTiming(w, id, startedAt, completedAt), id)
    ensures id in w.jobs ==>
              JobAt(OnTiming(w, id, startedAt, completedAt), id) ==
              Drift.Step(w.jobs[id], Drift.Timing(startedAt, completedAt))
  {
    hide Timed;
  }

  /** Start-up, and joining a running scheduler with a list still empty, are a start. */
  lemma BeginIsStep(w: World, id: JobId, j: Job, f: Time -> Time)
    requires Sorted(j.nextScheduled)
    ensures var w' := OnBegin(w, id, j.(nextScheduled := []), f);
            OnlyJob(w, w', id) && JobAt(w', id) == Drift.Step(j, Drift.Start(f, w.now, w.nextId))
    ensures j.nextScheduled == [] ==> j.(nextScheduled := []) == j
  {
    hide PrepareFirstRun, Begun, StopTimer;
  }

  // ---- Events of the protocol ----

  /** What the event means for a registered job, if anything but perhaps its removal. */
  function Meaning(s: State, e: Event, id: JobId): Option<Drift.Event> {
    match e
    case SendOut(p, f) =>
      if p in s.w.tokens && s.w.tokens[p].id == id then Some(Drift.Reschedule(f, s.w.now, s.w.nextId)) else None
    case Report(p, delivered) =>
      if p in s.w.tokens && s.w.tokens[p].id == id && delivered then
        Some(if s.w.tokens[p].pc == Run(ReportLock) then Drift.Prune(s.w.now)
             else Drift.Complete(s.w.tokens[p].pc == Run(ReportSkip), s.w.now))
      else None
    case HandleTiming(m) => if m.id == id then Some(Drift.Timing(m.startedAt, m.completedAt)) else None
    case _ => None
  }

  /** The job is left alone or removed, or takes the step the event means. */
  ghost predicate Follows(s: State, e: Event, id: JobId, s': State)
    requires id in s.w.jobs && Sorted(s.w.jobs[id].nextScheduled)
  {
    match Meaning(s, e, id)
    case None => id in s'.w.jobs ==> s'.w.jobs[id] == s.w.jobs[id]
    case Some(d) => Drift.Faithful(s.w.jobs[id], d) && JobAt(s'.w, id) == Drift.Step(s.w.jobs[id], d)
  }

  lemma ListsSorted(s: State, id: JobId)
    requires s.w.Valid() && id in s.w.jobs
    ensures Ascending(s.w.jobs[id].nextScheduled) && Sorted(s.w.jobs[id].nextScheduled)
  {
  }

  lemma EventFollows(s: State, e: Event, id: JobId)
    requires Base(s) && Enabled(s, e) && id in s.w.jobs
    ensures Sorted(s.w.jobs[id].nextScheduled) && Follows(s, e, id, Apply(s, e))
  {
    ListsSorted(s, id);
    hide *;
    if e.SendOut? || e.Report? || e.HandleTiming? {
      MessageFollows(s, e, id);
    } else {
      QuietFollows(s, e, id);
    }
  }

  lemma MessageFollows(s: State, e: Event, id: JobId)
    requires Base(s) && Enabled(s, e) && id in s.w.jobs && Sorted(s.w.jobs[id].nextScheduled)
    requires e.SendOut? || e.Report? || e.HandleTiming?
    ensures Follows(s, e, id, Apply(s, e))
  {
    hide *;
    if e.SendOut? {
      SendApplies(s, e);
      SendFollows(s, e.p, e.f, id);
    } else if e.Report? {
      ReportApplies(s, e);
      ReportFollows(s, e.p, e.delivered, id);
    } else {
      TimingFollows(s, e.m, id);
    }
  }

  lemma QuietFollows(s: State, e: Event, id: JobId)
    requires Base(s) && Enabled(s, e) && id in s.w.jobs && Sorted(s.w.jobs[id].nextScheduled)
    requires !(e.SendOut? || e.Report? || e.HandleTiming?)
    ensures Follows(s, e, id, Apply(s, e))
  {
    hide Drift.Step, Moved, Registered, Removed, OnRunNow, Follows, Base, Enabled, Apply, Sorted;
    if Moves(e) {
      MoveApplies(s, e);
      MoveFollows(s, e, id);
    } else if e.Register? {
      RegisterApplies(s, e);
      RegisterFollows(s, e.id, e.job, e.f, id);
    } else {
      OtherFollows(s, e, id);
    }
  }

  lemma SendFollows(s: State, p: nat, f: Time -> Time, id: JobId)
    requires Base(s) && Enabled(s, SendOut(p, f)) && id in s.w.jobs && Sorted(s.w.jobs[id].nextScheduled)
    ensures Follows(s, SendOut(p, f), id, Sent(s, p, f))
  {
    var t := s.w.tokens[p];
    var w := Put(s, p, t.(owes := false), AfterSend(t.pc)).w;
    PutIsValid(s, p, t.(owes := false), AfterSend(t.pc));
    RescheduleIsStep(w, t.id, f);
    hide Drift.Step, OnReschedule, Answer, AfterSend, Base;
    assert JobAt(Sent(s, p, f).w, id) == JobAt(OnReschedule(w, t.id, f), id);
  }

  lemma ReportFollows(s: State, p: nat, delivered: bool, id: JobId)
    requires Base(s) && Enabled(s, Report(p, delivered)) && id in s.w.jobs && Sorted(s.w.jobs[id].nextScheduled)
    ensures Follows(s, Report(p, delivered), id, Reported(s, p, delivered))
  {
    var t := s.w.tokens[p];
    var w := Put(s, p, t, AfterReport(t.pc)).w;
    PutIsValid(s, p, t, AfterReport(t.pc));
    PruneIsStep(w, t.id);
    CompletedIsStep(w, t.id, t.pc == Run(ReportSkip));
    hide Drift.Step, OnPrune, OnCompleted, AfterReport, Base, World.Valid, Enabled, Sorted, Put;
    ReportedWorld(s, p, delivered);
    hide Reported;
  }

  lemma PutIsValid(s: State, p: nat, t: Token, pc: Option<Pc>)
    requires s.w.Valid() && p in s.w.tokens
    ensures var w := Put(s, p, t, pc).w;
            w.Valid() && w.jobs == s.w.jobs && w.now == s.w.now && w.nextId == s.w.nextId
  {
    hide Ascending;
  }

  lemma ReportedWorld(s: State, p: nat, delivered: bool)
    requires p in s.w.tokens && Reports(s.w.tokens[p].pc)
    ensures var t := s.w.tokens[p];
            var w := Put(s, p, t, AfterReport(t.pc)).w;
            Reported(s, p, delivered).w ==
            if !delivered then w
            else if t.pc == Run(ReportLock) then OnPrune(w, t.id)
            else OnCompleted(w, t.id, t.pc == Run(ReportSkip))
  {
    hide OnPrune, OnCompleted, AfterReport;
  }

  lemma TimingFollows(s: State, m: Protocol.Timing, id: JobId)
    requires Base(s) && Enabled(s, HandleTiming(m)) && id in s.w.jobs && Sorted(s.w.jobs[id].nextScheduled)
    ensures Follows(s, HandleTiming(m), id, Apply(s, HandleTiming(m)))
  {
    TimingIsStep(s.w, m.id, m.startedAt, m.completedAt);
    hide Drift.Step, OnTiming, Base;
  }

  lemma MoveFollows(s: State, e: Event, id: JobId)
    requires Moves(e) && e.p in s.w.tokens && s.w.tokens[e.p].id in s.configs
    requires id in s.w.jobs && Sorted(s.w.jobs[id].nextScheduled)
    ensures Follows(s, e, id, Moved(s, e.p, e))
  {
    hide NextPc, NextOwes, Forks;
  }

  lemma RegisterFollows(s: State, x: JobId, j: Job, f: Time -> Time, id: JobId)
    requires Enabled(s, Register(x, j, f)) && id in s.w.jobs && Sorted(s.w.jobs[id].nextScheduled)
    ensures Follows(s, Register(x, j, f), id, Registered(s, x, j, f))
  {
    BeginIsStep(s.w, x, j, f);
    hide Drift.Step, OnBegin, PrepareFirstRun;
  }

  lemma OtherFollows(s: State, e: Event, id: JobId)
    requires Base(s) && Enabled(s, e) && id in s.w.jobs && Sorted(s.w.jobs[id].nextScheduled)
    requires e.Tick? || e.Cancel? || e.Remove? || e.RunNow? || e.LoseTiming? || e.Reap?
    ensures Follows(s, e, id, Apply(s, e))
  {
    hide StopTimer;
  }

  // ---- No drift in any execution ----

  ghost predicate AllOnBeat(s: State) {
    forall id :: id in s.w.jobs ==> Drift.OnBeat(s.w.jobs[id])
  }

  /** A registered job stays on its beat and keeps its configuration and start time. */
  lemma FollowerOnBeat(s: State, e: Event, id: JobId)
    requires Base(s) && Enabled(s, e) && id in s.w.jobs && id in Apply(s, e).w.jobs
    ensures var j, j' := s.w.jobs[id], Apply(s, e).w.jobs[id];
            && (Drift.OnBeat(j) ==> Drift.OnBeat(j')) && j'.config == j.config && j'.startTime == j.startTime
  {
    EventFollows(s, e, id);
    hide Apply, Drift.OnBeat, Drift.Step, Drift.Faithful;
    var d := Meaning(s, e, id);
    if d.Some? {
      StepKeepsStart(s.w.jobs[id], d.value);
      if Drift.OnBeat(s.w.jobs[id]) {
        Drift.StepKeepsBeat(s.w.jobs[id], d.value);
      }
    }
  }

  lemma StepKeepsStart(j: Job, d: Drift.Event)
    requires Sorted(j.nextScheduled) && !d.Start? && Drift.Step(j, d).Some?
    ensures Drift.Step(j, d).value.startTime == j.startTime && Drift.Step(j, d).value.config == j.config
  {
    hide Reschedule;
  }

  /** A job appears by registration only, and then on its beat. */
  lemma NewcomerOnBeat(s: State, e: Event, id: JobId)
    requires Safe(s) && Enabled(s, e) && id !in s.w.jobs && id in Apply(s, e).w.jobs
    ensures id !in s.configs && Drift.OnBeat(Apply(s, e).w.jobs[id])
  {
    hide TimersOwned, OneChain, SentOnce, PokesQuiet, ArmedInOrder;
    OnlyRegistered(s, e, id);
    RegisterApplies(s, e);
    BeginIsStep(s.w, id, e.job, e.f);
    var d := Drift.Start(e.f, s.w.now, s.w.nextId);
    hide Apply, OnBegin, Drift.Step, Base;
    Drift.StepKeepsBeat(e.job, d);
  }

  lemma OnlyRegistered(s: State, e: Event, id: JobId)
    requires Safe(s) && Enabled(s, e) && id !in s.w.jobs && id in Apply(s, e).w.jobs
    ensures e.Register? && e.id == id
  {
    hide TimersOwned, OneChain, SentOnce, PokesQuiet, ArmedInOrder, Apply, Moved, Sent, Reported, Shrinks, Poked;
    if e.SendOut? {
      SendApplies(s, e);
      OthersAfterSent(s, e.p, e.f);
    } else if e.Report? {
      ReportApplies(s, e);
      ReportedFrame(s, e.p, e.delivered);
    } else if Moves(e) {
      MoveApplies(s, e);
      MoverIs(s, e);
      MovedFrame(s, e.p, e);
    } else if e.Register? {
      RegisterApplies(s, e);
      BeginIsStep(s.w, e.id, e.job, e.f);
      RegisteredJobs(s, e.id, e.job, e.f);
    } else if e.RunNow? {
      RunNowPokes(s, e.id);
      PokedJobs(s, e.id);
    } else {
      EventShrinks(s, e);
      ShrinksJobs(s, Apply(s, e), id);
    }
  }

  lemma RegisteredJobs(s: State, id: JobId, j: Job, f: Time -> Time)
    ensures Registered(s, id, j, f).w == OnBegin(s.w, id, j, f)
  {
  }

  lemma PokedJobs(s: State, id: JobId)
    ensures Poked(s, id).w.jobs == s.w.jobs
  {
  }

  lemma ShrinksJobs(s: State, s': State, id: JobId)
    requires Shrinks(s, s') && id in s'.w.jobs
    ensures id in s.w.jobs
  {
  }

  lemma AllStayOnBeat(s: State, e: Event)
    requires Safe(s) && Enabled(s, e) && AllOnBeat(s)
    ensures AllOnBeat(Apply(s, e))
  {
    hide Apply, Drift.OnBeat, TimersOwned, OneChain, SentOnce, PokesQuiet, ArmedInOrder, Enabled;
    forall id | id in Apply(s, e).w.jobs ensures Drift.OnBeat(Apply(s, e).w.jobs[id]) {
      if id in s.w.jobs {
        FollowerOnBeat(s, e, id);
      } else {
        NewcomerOnBeat(s, e, id);
      }
    }
  }

  /** A job that was once registered is still the same one, if it is there. */
  ghost predicate SameJob(s: State, s': State, id: JobId) {
    && id in s'.configs
    && (id in s'.w.jobs ==>
          && id in s.w.jobs && s'.w.jobs[id].startTime == s.w.jobs[id].startTime
          && s'.w.jobs[id].config == s.w.jobs[id].config)
  }

  lemma StaysSame(s: State, e: Event, id: JobId)
    requires Safe(s) && Enabled(s, e) && id in s.configs
    ensures SameJob(s, Apply(s, e), id)
  {
    hide Apply, Drift.OnBeat, TimersOwned, OneChain, SentOnce, PokesQuiet, ArmedInOrder, Enabled;
    Spacing.HistoryKept(s, e);
    if id in Apply(s, e).w.jobs {
      if id !in s.w.jobs {
        NewcomerOnBeat(s, e, id);
      }
      FollowerOnBeat(s, e, id);
    }
  }

  lemma {:induction false} BeatsAlways(states: seq<State>, events: seq<Event>, i: nat)
    requires Execution(states, events) && i < |states|
    ensures AllOnBeat(states[i])
  {
    hide Enabled, Apply, AllOnBeat;
    if i == 0 {
      EmptyOnBeat(states[0]);
    } else {
      StepOf(states, events, i - 1);
      BeatsAlways(states, events, i - 1);
      AllStayOnBeat(states[i - 1], events[i - 1]);
    }
  }

  lemma EmptyOnBeat(s: State)
    requires s.w.jobs == map[]
    ensures AllOnBeat(s)
  {
  }

  lemma StepOf(states: seq<State>, events: seq<Event>, i: nat)
    requires Execution(states, events) && i < |events|
    ensures Safe(states[i]) && Enabled(states[i], events[i]) && states[i + 1] == Apply(states[i], events[i])
  {
    InvAlways(states, events);
    assert Inv(states[i]) && Next(states[i], events[i], states[i + 1]);
    hide Enabled, Apply, Base;
  }

  lemma {:induction false} SameThroughout(states: seq<State>, events: seq<Event>, i: nat, k: nat, id: JobId)
    requires Execution(states, events) && i <= k < |states| && id in states[i].configs
    ensures SameJob(states[i], states[k], id)
    decreases k - i
  {
    hide Enabled, Apply, Next;
    if i < k {
      StepOf(states, events, k - 1);
      SameThroughout(states, events, i, k - 1, id);
      StaysSame(states[k - 1], events[k - 1], id);
    }
  }

  /**
    No drift in any execution: whatever the other jobs, the executor and the clock do, every listed instant
    of a job with a fixed duration is a whole number of intervals from the start time that its registration
    fixed, for as long as the job is registered.
  */
  lemma NoDriftInExecution(states: seq<State>, events: seq<Event>, i: nat, k: nat, id: JobId)
    requires Execution(states, events) && i <= k < |states| && id in states[i].configs && id in states[k].w.jobs
    ensures id in states[i].w.jobs
    ensures var j, j' := states[i].w.jobs[id], states[k].w.jobs[id];
            && j'.config == j.config && j'.startTime == j.startTime && Ascending(j'.nextScheduled)
            && (Drift.FixedRate(j) ==>
                  forall t :: t in j'.nextScheduled ==>
                                t % j.config.schedule.duration == j.startTime % j.config.schedule.duration)
  {
    SameThroughout(states, events, i, k, id);
    BeatsAlways(states, events, k);
    InvAlways(states, events);
    assert Inv(states[k]);
    ListsSorted(states[k], id);
    hide Execution, TimersOwned, OneChain, SentOnce, PokesQuiet, ArmedInOrder, Ascending;
  }
}
