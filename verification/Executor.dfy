/**
  What one goroutine of the executor does for one activation, in order, against the program points
  of module Protocol.
*/
module Executors {
  import opened Times
  import opened Jobs
  import opened Worlds
  import opened Protocol
  import LimitModes

  /**
    The messages a goroutine sends and the calls it makes.  Started and Ended are timing updates,
    which a cancelled executor may still lose (Protocol.LoseTiming).
  */
  datatype Effect =
    | Rescheduled
    | NextRunUpdate
    | Completed(skipped: bool)
    | Started
    | Ran
    | Ended
    | HandedOver(shouldSendOut: bool)

  /** What the goroutine meets: limiter room, a clash, a lock, a before-function, and a cancelled receiver or not. */
  datatype Outcomes = Outcomes(room: bool, clash: bool, lockOk: bool, beforeOk: bool, delivered: Pc -> bool)

  /** Distance to the end of an activation. */
  function Rank(pc: Pc): nat {
    match pc
    case Dispatched => 20
    case Offering => 19
    case Accepted => 18
    case Handing => 18
    case Queued => 18
    case SingleQueued => 18
    case Run(stage) =>
      (match stage
       case Checking => 14
       case Locking => 13
       case LockFailed => 12
       case ReportLock => 11
       case Asking => 10
       case Refusing => 9
       case ReportSkip => 8
       case Ready => 7
       case ReportFirst => 6
       case Announcing => 5
       case Working => 4
       case Finishing => 3
       case ReportLast => 2
       case Closing => 1)
    case _ => 17
  }

  /** Program points where this goroutine leaves off: another one continues. */
  predicate Leaves(pc: Pc) {
    pc.Armed? || pc.Sending? || pc.Queued? || pc.SingleQueued?
  }

  function EventAt(pc: Pc, o: Outcomes): (e: Event)
    requires !Leaves(pc) && !Sends(pc) && !Reports(pc)
    ensures Moves(e) && !e.Take? && !e.HoldBack?
  {
    if pc == Dispatched then Route(0, o.room)
    else if pc == Accepted || pc == Handing then Enqueue(0)
    else if pc == Run(Checking) then Check(0)
    else if pc == Run(Locking) then Lock(0, o.lockOk)
    else if pc == Run(Asking) then Ask(0, o.beforeOk)
    else if pc == Run(Announcing) then Announce(0)
    else if pc == Run(Working) then Return(0)
    else Finish(0)
  }

  function EffectOf(t: Token, e: Event): seq<Effect> {
    match e
    case Enqueue(_) => [HandedOver(t.owes)]
    case Announce(_) => [Started]
    case Return(_) => [Ran]
    case Finish(_) => [Ended]
    case _ => []
  }

  function ReportOf(pc: Pc): Effect {
    if pc == Run(ReportLock) then NextRunUpdate else Completed(pc == Run(ReportSkip))
  }

  /** Everything the protocol lets a goroutine do from `t` on, up to the checks of a run. */
  function Follow(s: State, t: Token, o: Outcomes): seq<Effect>
    requires t.id in s.configs
    decreases Rank(t.pc), 1
  {
    if Leaves(t.pc) then []
    else if Sends(t.pc) then
      var sent := t.owes && o.delivered(t.pc);
      (if sent then [Rescheduled] else []) + Continue(s, t, t.owes && !sent, AfterSend(t.pc), o)
    else if Reports(t.pc) then
      (if o.delivered(t.pc) then [ReportOf(t.pc)] else []) + Continue(s, t, t.owes, AfterReport(t.pc), o)
    else
      var e := EventAt(t.pc, o);
      EffectOf(t, e) + Continue(s, t, NextOwes(s, t, e), PcAfter(s, t, o), o)
  }

  /** Where the goroutine's own moves lead. */
  function PcAfter(s: State, t: Token, o: Outcomes): (pc: Option<Pc>)
    requires t.id in s.configs && !Leaves(t.pc) && !Sends(t.pc) && !Reports(t.pc)
    ensures pc.Some? ==> Leaves(pc.value) || Rank(pc.value) < Rank(t.pc)
  {
    NextPc(s, t, EventAt(t.pc, o))
  }

  /** A run looks at its contexts and stop time anew, so it is followed from there in a state of its own. */
  predicate Pauses(pc: Pc) {
    Leaves(pc) || pc == Run(Checking)
  }

  function Continue(s: State, t: Token, owes: bool, pc: Option<Pc>, o: Outcomes): seq<Effect>
    requires t.id in s.configs && (pc.Some? ==> Leaves(pc.value) || Rank(pc.value) < Rank(t.pc))
    decreases Rank(t.pc), 0
  {
    if pc.None? || Pauses(pc.value) then [] else Follow(s, t.(owes := owes, pc := pc.value), o)
  }

  /** What a runner does with a job it takes from its queue. */
  function Serve(s: State, t: Token, o: Outcomes): seq<Effect>
    requires t.id in s.configs && (t.pc.Queued? || t.pc.SingleQueued?)
  {
    var e := Take(0, o.clash);
    Continue(s, t, NextOwes(s, t, e), NextPc(s, t, e), o)
  }

  /** The run that the goroutine's first move leads to, if it does, with its checks in the later state. */
  function ThenRun(s: State, later: State, t: Token, e: Event, o: Outcomes): seq<Effect>
    requires Moves(e) && t.id in s.configs && t.id in later.configs
  {
    if NextPc(s, t, e) == Some(Run(Checking)) then
      Follow(later, t.(owes := NextOwes(s, t, e), pc := Run(Checking)), o)
    else []
  }

  /** A dispatch goroutine from its fetch of the job in `s`; the job may be gone or cancelled by `later`. */
  function Dispatching(s: State, later: State, t: Token, o: Outcomes): seq<Effect>
    requires t.id in s.configs && t.id in later.configs && t.pc == Dispatched
  {
    Follow(s, t, o) + ThenRun(s, later, t, Route(0, o.room), o)
  }

  /** A runner's turn, likewise. */
  function Serving(s: State, later: State, t: Token, o: Outcomes): seq<Effect>
    requires t.id in s.configs && t.id in later.configs && (t.pc.Queued? || t.pc.SingleQueued?)
  {
    Serve(s, t, o) + ThenRun(s, later, t, Take(0, o.clash), o)
  }

  /** One program point. */
  lemma Unfold(s: State, t: Token, o: Outcomes)
    requires t.id in s.configs && !Leaves(t.pc)
    ensures Follow(s, t, o) ==
            if Sends(t.pc) then
              Opt(t.owes && o.delivered(t.pc), Rescheduled)
              + Continue(s, t, t.owes && !o.delivered(t.pc), AfterSend(t.pc), o)
            else if Reports(t.pc) then
              Opt(o.delivered(t.pc), ReportOf(t.pc)) + Continue(s, t, t.owes, AfterReport(t.pc), o)
            else
              EffectOf(t, EventAt(t.pc, o)) + Continue(s, t, NextOwes(s, t, EventAt(t.pc, o)), PcAfter(s, t, o), o)
  {
  }

  function Opt(b: bool, e: Effect): seq<Effect> {
    if b then [e] else []
  }

  function NextStage(s: State, t: Token, o: Outcomes): Option<Stage>
    requires t.id in s.configs && t.pc.Run?
  {
    match t.pc.stage
    case Checking => if Active(s, t.id) then Some(Locking) else None
    case Locking => Some(if o.lockOk then Asking else LockFailed)
    case Asking =>
      Some(if !o.beforeOk then Refusing else if s.configs[t.id].intervalFromCompletion then Announcing else Ready)
    case Announcing => Some(Working)
    case Working => Some(Finishing)
    case _ => if s.configs[t.id].intervalFromCompletion then Some(ReportLast) else None
  }

  function Said(stage: Stage): seq<Effect> {
    match stage
    case Announcing => [Started]
    case Working => [Ran]
    case Finishing => [Ended]
    case _ => []
  }

  /** Program points of a run that send no message to the scheduler's unbuffered channels. */
  lemma Moving(s: State, t: Token, o: Outcomes)
    requires t.id in s.configs
    requires t.pc in {Run(Checking), Run(Locking), Run(Asking), Run(Announcing), Run(Working), Run(Finishing)}
    ensures Follow(s, t, o) ==
            Said(t.pc.stage) +
            match NextStage(s, t, o)
            case None => []
            case Some(stage) => Follow(s, t.(pc := Run(stage)), o)
  {
    hide Follow, NextPc, NextOwes, EventAt, NextStage;
    Unfold(s, t, o);
    MovesOn(s, t, o);
  }

  lemma MovesOn(s: State, t: Token, o: Outcomes)
    requires t.id in s.configs
    requires t.pc in {Run(Checking), Run(Locking), Run(Asking), Run(Announcing), Run(Working), Run(Finishing)}
    ensures var e := EventAt(t.pc, o);
            && NextOwes(s, t, e) == t.owes && NextPc(s, t, e).Some? == NextStage(s, t, o).Some?
            && (NextPc(s, t, e).Some? ==> NextPc(s, t, e).value == Run(NextStage(s, t, o).value))
            && EffectOf(t, e) == Said(t.pc.stage)
  {
  }

  /** The messages of a run that got past its contexts and stop time. */
  function RunEffects(late: bool, owes: bool, o: Outcomes): seq<Effect> {
    if !o.lockOk then Opt(owes && o.delivered(Run(LockFailed)), Rescheduled)
                      + Opt(o.delivered(Run(ReportLock)), NextRunUpdate)
    else if !o.beforeOk then Opt(owes && o.delivered(Run(Refusing)), Rescheduled)
                             + Opt(o.delivered(Run(ReportSkip)), Completed(true))
    else if late then [Started, Ran, Ended] + Opt(o.delivered(Run(ReportLast)), Completed(false))
                      + Opt(owes && o.delivered(Run(Closing)), Rescheduled)
    else Opt(owes && o.delivered(Run(Ready)), Rescheduled) + Opt(o.delivered(Run(ReportFirst)), Completed(false))
         + [Started, Ran, Ended]
  }

  /** The job has not ended by any of the three ways that runJob checks first. */
  predicate Active(s: State, id: JobId) {
    !s.cancelled && id in s.w.jobs && !s.w.jobs[id].StopTimeReached(s.w.now)
  }

  lemma RunFollows(s: State, t: Token, o: Outcomes)
    requires t.id in s.configs && t.pc == Run(Checking)
    ensures Follow(s, t, o) == if Active(s, t.id) then RunEffects(s.configs[t.id].intervalFromCompletion, t.owes, o)
                               else []
  {
    hide Follow;
    Moving(s, t, o);
    if Active(s, t.id) {
      Moving(s, t.(pc := Run(Locking)), o);
      if !o.lockOk {
        NotRun(s, t.(pc := Run(LockFailed)), o);
      } else {
        Moving(s, t.(pc := Run(Asking)), o);
        if !o.beforeOk {
          NotRun(s, t.(pc := Run(Refusing)), o);
        } else if s.configs[t.id].intervalFromCompletion {
          RunLate(s, t.(pc := Run(Announcing)), o);
        } else {
          RunEarly(s, t.(pc := Run(Ready)), o);
        }
      }
    }
    hide Follow;
  }

  lemma NotRun(s: State, t: Token, o: Outcomes)
    requires t.id in s.configs && (t.pc == Run(LockFailed) || t.pc == Run(Refusing))
    ensures Follow(s, t, o) ==
            Opt(t.owes && o.delivered(t.pc), Rescheduled) +
            if t.pc == Run(LockFailed) then Opt(o.delivered(Run(ReportLock)), NextRunUpdate)
            else Opt(o.delivered(Run(ReportSkip)), Completed(true))
  {
    hide Follow, NextPc, NextOwes, EventAt, Rank, PcAfter, EffectOf;
    Unfold(s, t, o);
    var owes := t.owes && !o.delivered(t.pc);
    Unfold(s, t.(owes := owes, pc := AfterSend(t.pc).value), o);
  }

  lemma RunItself(s: State, t: Token, o: Outcomes)
    requires t.id in s.configs && t.pc == Run(Announcing)
    ensures Follow(s, t, o) ==
            [Started, Ran, Ended] + if s.configs[t.id].intervalFromCompletion then
              Follow(s, t.(pc := Run(ReportLast)), o) else []
  {
    hide Follow;
    Moving(s, t, o);
    Moving(s, t.(pc := Run(Working)), o);
    Moving(s, t.(pc := Run(Finishing)), o);
  }

  lemma RunLate(s: State, t: Token, o: Outcomes)
    requires t.id in s.configs && t.pc == Run(Announcing) && s.configs[t.id].intervalFromCompletion
    ensures Follow(s, t, o) ==
            [Started, Ran, Ended] + Opt(o.delivered(Run(ReportLast)), Completed(false))
            + Opt(t.owes && o.delivered(Run(Closing)), Rescheduled)
  {
    hide Follow, Opt;
    RunItself(s, t, o);
    LateTail(s, t.(pc := Run(ReportLast)), o);
  }

  /** A run with interval from completion reports first and reschedules last. */
  lemma LateTail(s: State, t: Token, o: Outcomes)
    requires t.id in s.configs && t.pc == Run(ReportLast)
    ensures Follow(s, t, o) ==
            Opt(o.delivered(Run(ReportLast)), Completed(false)) + Opt(t.owes && o.delivered(Run(Closing)), Rescheduled)
  {
    hide Follow, NextPc, NextOwes, EventAt, Rank, PcAfter, EffectOf;
    Unfold(s, t, o);
    Unfold(s, t.(pc := Run(Closing)), o);
  }

  lemma RunEarly(s: State, t: Token, o: Outcomes)
    requires t.id in s.configs && t.pc == Run(Ready) && !s.configs[t.id].intervalFromCompletion
    ensures Follow(s, t, o) ==
            Opt(t.owes && o.delivered(Run(Ready)), Rescheduled) + Opt(o.delivered(Run(ReportFirst)), Completed(false))
            + [Started, Ran, Ended]
  {
    hide Follow, NextPc, NextOwes, EventAt, Rank, PcAfter, EffectOf, Opt;
    Unfold(s, t, o);
    EarlyTail(s, t.(owes := t.owes && !o.delivered(t.pc), pc := Run(ReportFirst)), o);
  }

  /** A run of any other job reports before it starts. */
  lemma EarlyTail(s: State, t: Token, o: Outcomes)
    requires t.id in s.configs && t.pc == Run(ReportFirst) && !s.configs[t.id].intervalFromCompletion
    ensures Follow(s, t, o) == Opt(o.delivered(Run(ReportFirst)), Completed(false)) + [Started, Ran, Ended]
  {
    hide Follow, NextPc, NextOwes, EventAt, Rank, PcAfter, EffectOf, Opt;
    Unfold(s, t, o);
    RunItself(s, t.(pc := Run(Announcing)), o);
  }

  /** What the dispatch goroutine does in each mode, short of the run of an ordinary job. */
  function DispatchEffects(limitMode: Option<LimitMode>, config: Config, owes: bool, o: Outcomes): seq<Effect> {
    if limitMode.Some? then
      if limitMode.value.LimitModeWait? then
        if owes && o.delivered(Offering) then [Rescheduled, HandedOver(false)] else [HandedOver(owes)]
      else if o.room then [HandedOver(owes)]
      else Opt(owes && o.delivered(Turned), Rescheduled)
    else if config.singletonMode.Some? && config.singletonMode.value.LimitModeReschedule? && !o.room then
      Opt(owes && o.delivered(Turned), Rescheduled)
    else if config.intervalFromCompletion || !owes || !o.delivered(Handed) then [HandedOver(owes)]
    else [HandedOver(owes), Rescheduled]
  }

  lemma DispatchFollows(s: State, later: State, t: Token, o: Outcomes)
    requires t.id in s.configs && t.id in later.configs && t.pc == Dispatched
    ensures Dispatching(s, later, t, o) ==
            if s.limitMode.Some? || (t.id in s.w.jobs && s.configs[t.id].singletonMode.Some?) then
              DispatchEffects(s.limitMode, s.configs[t.id], t.owes, o)
            else if t.id in s.w.jobs && !s.cancelled then Follow(later, t.(pc := Run(Checking)), o)
            else []
  {
    RouteFollows(s, later, t, o);
    var next := Routed(s, t.id, s.configs[t.id], o.room);
    if next.Some? && !next.value.Run? {
      EnterFollows(s, t.(pc := next.value), o);
    }
    hide Follow, Dispatching, Rank;
  }

  /** The first step of the dispatch goroutine. */
  lemma RouteFollows(s: State, later: State, t: Token, o: Outcomes)
    requires t.id in s.configs && t.id in later.configs && t.pc == Dispatched
    ensures Dispatching(s, later, t, o) ==
            match Routed(s, t.id, s.configs[t.id], o.room)
            case None => []
            case Some(pc) => if pc == Run(Checking) then Follow(later, t.(pc := pc), o) else Follow(s, t.(pc := pc), o)
  {
    Unfold(s, t, o);
    hide Follow;
  }

  /** From the decision of the dispatch goroutine to its end. */
  lemma EnterFollows(s: State, t: Token, o: Outcomes)
    requires t.id in s.configs && t.pc in {Turned, Offering, Accepted, Handing}
    ensures var config := s.configs[t.id];
            Follow(s, t, o) ==
            match t.pc
            case Turned => Opt(t.owes && o.delivered(Turned), Rescheduled)
            case Offering => if t.owes && o.delivered(Offering) then [Rescheduled, HandedOver(false)]
            else [HandedOver(t.owes)]
            case Accepted => [HandedOver(t.owes)]
            case _ => if config.intervalFromCompletion || !t.owes || !o.delivered(Handed) then [HandedOver(t.owes)]
            else [HandedOver(t.owes), Rescheduled]
  {
    Unfold(s, t, o);
    if t.pc.Offering? {
      Unfold(s, t.(owes := t.owes && !o.delivered(Offering), pc := Accepted), o);
    } else if t.pc.Handing? {
      Unfold(s, t.(pc := Handed), o);
    }
    hide Follow;
  }

  /** A limit-mode runner's turn. */
  lemma QueuedFollows(s: State, later: State, t: Token, o: Outcomes)
    requires t.id in s.configs && t.id in later.configs && t.pc.Queued?
    ensures Serving(s, later, t, o) ==
            if t.id !in s.w.jobs then []
            else if s.configs[t.id].singletonMode.Some? && o.clash then
              Opt(t.owes && o.delivered(Clashed), Rescheduled)
            else Follow(later, t.(pc := Run(Checking)), o)
  {
    if t.id in s.w.jobs && s.configs[t.id].singletonMode.Some? && o.clash {
      ClashFollows(s, t.(pc := Clashed), o);
    }
    hide Follow, Opt;
  }

  lemma ClashFollows(s: State, t: Token, o: Outcomes)
    requires t.id in s.configs && t.pc.Clashed?
    ensures Follow(s, t, o) == Opt(t.owes && o.delivered(Clashed), Rescheduled)
  {
    Unfold(s, t, o);
    hide Follow;
  }

  /** A singleton runner's turn. */
  lemma SingleQueuedFollows(s: State, later: State, t: Token, o: Outcomes)
    requires t.id in s.configs && t.id in later.configs && t.pc.SingleQueued?
    ensures Serving(s, later, t, o) ==
            if t.id !in s.w.jobs then []
            else Follow(later, t.(owes := t.owes && s.configs[t.id].intervalFromCompletion, pc := Run(Checking)), o)
  {
    hide Follow;
  }

  // ---- jobIn and the methods that act on it ----

  class JobIn {
    const id: JobId
    var shouldSendOut: bool

    constructor (id: JobId, shouldSendOut: bool)
      ensures this.id == id && this.shouldSendOut == shouldSendOut
    {
      this.id, this.shouldSendOut := id, shouldSendOut;
    }
  }

  class Executor {
    const limitMode: Option<LimitMode>
    var log: seq<Effect>

    constructor (limitMode: Option<LimitMode>)
      ensures this.limitMode == limitMode && log == []
    {
      this.limitMode, log := limitMode, [];
    }

    /** An undelivered message, after cancellation, leaves the flag as it was. */
    method SendOutForRescheduling(jIn: JobIn, delivered: bool)
      modifies this`log, jIn`shouldSendOut
      ensures log == old(log) + (if old(jIn.shouldSendOut) && delivered then [Rescheduled] else [])
      ensures jIn.shouldSendOut == (old(jIn.shouldSendOut) && !delivered)
    {
      if jIn.shouldSendOut {
        if !delivered {
          return;
        }
        log := log + [Rescheduled];
      }
      jIn.shouldSendOut := false;
    }

    method Send(effect: Effect, delivered: bool)
      modifies this`log
      ensures log == old(log) + if delivered then [effect] else []
    {
      if delivered {
        log := log + [effect];
      }
    }

    /** runJob: `j` is the scheduler's copy of the job, `gone` says that a context is done. */
    method RunJob(ghost s: State, j: Job, now: Time, gone: bool, ghost act: nat, id: JobId, shouldSendOut: bool,
                  o: Outcomes)
      requires Fetched(s, id, j, now, gone)
      modifies this`log
      ensures log == old(log) + Follow(s, Token(id, act, shouldSendOut, Run(Checking)), o)
    {
      hide Follow;
      RunFollows(s, Token(id, act, shouldSendOut, Run(Checking)), o);
      if gone {
        return;
      }
      if j.StopTimeReached(now) {
        return;
      }
      var jIn := new JobIn(id, shouldSendOut);
      if !o.lockOk {
        SendOutForRescheduling(jIn, o.delivered(Run(LockFailed)));
        Send(NextRunUpdate, o.delivered(Run(ReportLock)));
        return;
      }
      if !o.beforeOk {
        SendOutForRescheduling(jIn, o.delivered(Run(Refusing)));
        Send(Completed(true), o.delivered(Run(ReportSkip)));
        return;
      }
      RunTask(j.config.intervalFromCompletion, jIn, o);
    }

    /** The tail of runJob, once nothing speaks against running. */
    method RunTask(intervalFromCompletion: bool, jIn: JobIn, o: Outcomes)
      modifies this`log, jIn`shouldSendOut
      ensures log == old(log) + RunEffects(intervalFromCompletion, old(jIn.shouldSendOut),
                                           o.(lockOk := true, beforeOk := true))
    {
      if !intervalFromCompletion {
        SendOutForRescheduling(jIn, o.delivered(Run(Ready)));
        Send(Completed(false), o.delivered(Run(ReportFirst)));
      }
      assert old(log) <= log;
      log := log + [Started, Ran, Ended];
      if intervalFromCompletion {
        Send(Completed(false), o.delivered(Run(ReportLast)));
        SendOutForRescheduling(jIn, o.delivered(Run(Closing)));
      }
    }

    ghost predicate Fetched(s: State, id: JobId, j: Job, now: Time, gone: bool) {
      && id in s.configs && s.configs[id] == j.config && now == s.w.now
      && (gone <==> s.cancelled || id !in s.w.jobs)
      && (id in s.w.jobs ==> s.w.jobs[id].config == j.config)
    }

    /**
      The goroutine spun off for one jobIn: `found` is the scheduler's answer in state `s`, awaited outside
      limit mode; a run checks its contexts, `gone`, and the clock in state `later`.
    */
    method Dispatch(ghost s: State, found: bool, j: Job, cancelled: bool, ghost later: State, now: Time, gone: bool,
                    ghost act: nat, id: JobId, shouldSendOut: bool, o: Outcomes)
      requires s.limitMode == limitMode && cancelled == s.cancelled && found == (id in s.w.jobs)
      requires id in s.configs && s.configs[id] == j.config && Fetched(later, id, j, now, gone)
      modifies this`log
      ensures log == old(log) + Dispatching(s, later, Token(id, act, shouldSendOut, Dispatched), o)
    {
      hide Follow, Continue, PcAfter, Rank, RunEffects, NextPc, NextOwes, Dispatching;
      DispatchFollows(s, later, Token(id, act, shouldSendOut, Dispatched), o);
      var jIn := new JobIn(id, shouldSendOut);
      if limitMode.Some? {
        if limitMode.value == LimitModeReschedule {
          if o.room {
            Send(HandedOver(jIn.shouldSendOut), true);
          } else {
            SendOutForRescheduling(jIn, o.delivered(Turned));
          }
        } else {
          SendOutForRescheduling(jIn, o.delivered(Offering));
          Send(HandedOver(jIn.shouldSendOut), true);
        }
      } else {
        if !found {
          return;
        }
        if j.config.singletonMode.Some? {
          if j.config.singletonMode.value == LimitModeReschedule && !o.room {
            SendOutForRescheduling(jIn, o.delivered(Turned));
          } else {
            Send(HandedOver(jIn.shouldSendOut), true);
            if !j.config.intervalFromCompletion {
              SendOutForRescheduling(jIn, o.delivered(Handed));
            }
          }
        } else {
          if cancelled {
            return;
          }
          RunJob(later, j, now, gone, act, id, jIn.shouldSendOut, o);
        }
      }
    }

    /** One turn of a limit-mode runner that took this job. */
    method ServeLimitMode(ghost s: State, found: bool, j: Job, ghost later: State, now: Time, gone: bool,
                          ghost act: nat, id: JobId, shouldSendOut: bool, o: Outcomes)
      requires found == (id in s.w.jobs) && id in s.configs && s.configs[id] == j.config
      requires Fetched(later, id, j, now, gone)
      modifies this`log
      ensures log == old(log) + Serving(s, later, Token(id, act, shouldSendOut, Queued), o)
    {
      hide Follow, Serving;
      QueuedFollows(s, later, Token(id, act, shouldSendOut, Queued), o);
      if found {
        if j.config.singletonMode.Some? && o.clash {
          var jIn := new JobIn(id, shouldSendOut);
          SendOutForRescheduling(jIn, o.delivered(Clashed));
        } else {
          RunJob(later, j, now, gone, act, id, shouldSendOut, o);
        }
      }
    }

    /** One turn of a singleton job's own runner. */
    method ServeSingleton(ghost s: State, found: bool, j: Job, ghost later: State, now: Time, gone: bool,
                          ghost act: nat, id: JobId, shouldSendOut: bool, o: Outcomes)
      requires found == (id in s.w.jobs) && id in s.configs && s.configs[id] == j.config
      requires Fetched(later, id, j, now, gone)
      modifies this`log
      ensures log == old(log) + Serving(s, later, Token(id, act, shouldSendOut, SingleQueued), o)
    {
      hide Follow, Serving;
      SingleQueuedFollows(s, later, Token(id, act, shouldSendOut, SingleQueued), o);
      if found {
        var jIn := new JobIn(id, shouldSendOut);
        if !j.config.intervalFromCompletion {
          jIn.shouldSendOut := false;
        }
        RunJob(later, j, now, gone, act, id, jIn.shouldSendOut, o);
      }
    }
  }

  // ---- What each mode makes of a dispatch ----

  predicate HandsOver(log: seq<Effect>) {
    HandedOver(true) in log || HandedOver(false) in log
  }

  /**
    Under a concurrency limit: in reschedule mode the activation is handed over if and only if there is room,
    with its flag, and otherwise only rescheduled; in wait mode it is always handed over, once, after the
    reschedule and then without the flag.
  */
  lemma LimitModeDispatches(s: State, later: State, t: Token, o: Outcomes)
    requires t.id in s.configs && t.id in later.configs && t.pc == Dispatched && s.limitMode.Some?
    ensures var log := Dispatching(s, later, t, o);
            match s.limitMode.value
            case LimitModeReschedule =>
              log == if o.room then [HandedOver(t.owes)]
              else if t.owes && o.delivered(Turned) then [Rescheduled] else []
            case LimitModeWait =>
              log == if t.owes && o.delivered(Offering) then [Rescheduled, HandedOver(false)] else [HandedOver(t.owes)]
  {
    hide Follow, Dispatching;
    DispatchFollows(s, later, t, o);
  }

  /**
    A singleton job: a busy runner still queues it in wait mode and turns it away in reschedule mode; the
    reschedule follows the handing over, or is left to the runner with interval from completion.
  */
  lemma SingletonDispatches(s: State, later: State, t: Token, o: Outcomes)
    requires t.id in s.configs && t.id in later.configs && t.pc == Dispatched && s.limitMode.None?
    requires t.id in s.w.jobs && s.configs[t.id].singletonMode.Some?
    ensures var log, config := Dispatching(s, later, t, o), s.configs[t.id];
            var handed := [HandedOver(t.owes)]
                          + Opt(t.owes && !config.intervalFromCompletion && o.delivered(Handed), Rescheduled);
            match config.singletonMode.value
            case LimitModeReschedule =>
              log == if o.room then handed else if t.owes && o.delivered(Turned) then [Rescheduled] else []
            case LimitModeWait => log == handed
  {
    hide Follow, Dispatching;
    DispatchFollows(s, later, t, o);
  }

  /** Any other job is run by the goroutine itself, unless the job is gone or the executor cancelled. */
  lemma OrdinaryDispatches(s: State, later: State, t: Token, o: Outcomes)
    requires t.id in s.configs && t.id in later.configs && t.pc == Dispatched && s.limitMode.None?
    requires t.id in s.w.jobs ==> s.configs[t.id].singletonMode.None?
    ensures Dispatching(s, later, t, o) ==
            if t.id in s.w.jobs && !s.cancelled then Follow(later, t.(pc := Run(Checking)), o) else []
  {
    hide Follow, Dispatching;
    DispatchFollows(s, later, t, o);
  }

  /** The limiter that decides about this activation: the scheduler's, or the one of the job's own runner. */
  ghost predicate Decides(pool: LimitModes.Pool, s: State, id: JobId)
    requires id in s.configs
  {
    if s.limitMode.Some? then s.limitMode == Some(pool.mode) && !pool.perJob
    else id in s.w.jobs && s.configs[id].singletonMode == Some(pool.mode) && pool.perJob
  }

  /**
    With the room that its limiter has, an activation is handed over if and only if the mode is to wait or
    some slot is not accounted for by a dispatch, the queue or a runner at work; and then, and only then, the
    limiter has it on offer.
  */
  lemma DispatchMeetsLimiter(s: State, later: State, t: Token, o: Outcomes, pool: LimitModes.Pool)
    requires t.id in s.configs && t.id in later.configs && t.pc == Dispatched && Decides(pool, s, t.id)
    requires LimitModes.Inv(pool) && pool.started && o.room == LimitModes.Accepts(pool)
    ensures var log, pool' := Dispatching(s, later, t, o), LimitModes.Apply(pool, LimitModes.Dispatch(t.id));
            && (HandsOver(log) <==>
                || pool.mode.LimitModeWait?
                || |pool.offers| + |pool.queue| + LimitModes.Count(pool.runners, LimitModes.Handling) < pool.limit)
            && pool'.offers == if HandsOver(log) then pool.offers + [t.id] else pool.offers
  {
    hide Follow, Dispatching, LimitModes.ClaimsExact, LimitModes.Delivered;
    if s.limitMode.Some? {
      LimitModeDispatches(s, later, t, o);
    } else {
      SingletonDispatches(s, later, t, o);
    }
  }

  // ---- What a whole activation amounts to ----

  function Count(log: seq<Effect>, e: Effect): nat {
    multiset(log)[e]
  }

  /** Whatever happens on the way, a goroutine sends at most the one reschedule message its flag stands for. */
  lemma {:induction false} SendsAtMostOnce(s: State, t: Token, o: Outcomes)
    requires t.id in s.configs
    ensures Count(Follow(s, t, o), Rescheduled) <= if t.owes then 1 else 0
    decreases Rank(t.pc)
  {
    if !Leaves(t.pc) {
      var head, owes, pc := FirstOf(s, t, o);
      if pc.Some? && !Pauses(pc.value) {
        SendsAtMostOnce(s, t.(owes := owes, pc := pc.value), o);
      }
    }
  }

  /** So does a whole goroutine, though the job may change between its fetch and the checks of its run. */
  lemma GoroutineSendsAtMostOnce(s: State, later: State, t: Token, o: Outcomes)
    requires t.id in s.configs && t.id in later.configs
    ensures t.pc == Dispatched ==> Count(Dispatching(s, later, t, o), Rescheduled) <= if t.owes then 1 else 0
    ensures t.pc.Queued? || t.pc.SingleQueued? ==>
              Count(Serving(s, later, t, o), Rescheduled) <= if t.owes then 1 else 0
  {
    hide Follow, Dispatching, Serving;
    SendsAtMostOnce(later, t.(pc := Run(Checking)), o);
    if t.pc == Dispatched {
      DispatchFollows(s, later, t, o);
    } else if t.pc.Queued? {
      QueuedFollows(s, later, t, o);
    } else if t.pc.SingleQueued? {
      SingleQueuedFollows(s, later, t, o);
      SendsAtMostOnce(later, t.(owes := t.owes && s.configs[t.id].intervalFromCompletion, pc := Run(Checking)), o);
    }
  }

  lemma NextStep(s: State, t: Token, o: Outcomes)
    requires t.id in s.configs && !Leaves(t.pc) && !Sends(t.pc) && !Reports(t.pc)
    ensures var e := EventAt(t.pc, o);
            && (NextPc(s, t, e).Some? ==> Leaves(NextPc(s, t, e).value) || Rank(NextPc(s, t, e).value) < Rank(t.pc))
            && NextOwes(s, t, e) == t.owes && Count(EffectOf(t, e), Rescheduled) == 0
            && Follow(s, t, o) == EffectOf(t, e) + Continue(s, t, NextOwes(s, t, e), NextPc(s, t, e), o)
  {
    Unfold(s, t, o);
    hide Follow;
  }

  /** The first program point and the rest. */
  lemma FirstOf(s: State, t: Token, o: Outcomes) returns (head: seq<Effect>, owes: bool, pc: Option<Pc>)
    requires t.id in s.configs && !Leaves(t.pc)
    ensures pc.Some? ==> Leaves(pc.value) || Rank(pc.value) < Rank(t.pc)
    ensures Follow(s, t, o) == head + Continue(s, t, owes, pc, o)
    ensures Count(head, Rescheduled) == (if t.owes && !owes && Sends(t.pc) then 1 else 0)
    ensures owes ==> t.owes
  {
    if Sends(t.pc) {
      hide NextPc, NextOwes, EventAt;
      var sent := t.owes && o.delivered(t.pc);
      head, owes, pc := if sent then [Rescheduled] else [], t.owes && !sent, AfterSend(t.pc);
    } else if Reports(t.pc) {
      hide NextPc, NextOwes, EventAt;
      head, owes, pc := if o.delivered(t.pc) then [ReportOf(t.pc)] else [], t.owes, AfterReport(t.pc);
    } else {
      var e := EventAt(t.pc, o);
      NextStep(s, t, o);
      hide Follow, NextPc, NextOwes, EventAt;
      head, owes, pc := EffectOf(t, e), NextOwes(s, t, e), NextPc(s, t, e);
    }
  }

  /** The stop time is over. */
  predicate StopPassed(j: Job, now: Time) {
    j.config.stopTime != ZERO && now > j.config.stopTime
  }

  /**
    The order of a run's messages, of which cancellation may lose any.  An ordinary job is rescheduled and
    reported before it runs, a job with interval from completion afterwards; a run without the lock
    or refused by the before-function never runs and is never counted, yet is rescheduled.  One made by
    RunNow does the same without rescheduling.
  */
  lemma RunTrace(s: State, t: Token, o: Outcomes)
    requires t.id in s.configs && t.pc == Run(Checking)
    ensures Follow(s, t, o) ==
            if s.cancelled || t.id !in s.w.jobs || StopPassed(s.w.jobs[t.id], s.w.now) then []
            else if !o.lockOk then
              Opt(t.owes && o.delivered(Run(LockFailed)), Rescheduled)
              + Opt(o.delivered(Run(ReportLock)), NextRunUpdate)
            else if !o.beforeOk then
              Opt(t.owes && o.delivered(Run(Refusing)), Rescheduled)
              + Opt(o.delivered(Run(ReportSkip)), Completed(true))
            else if s.configs[t.id].intervalFromCompletion then
              [Started, Ran, Ended] + Opt(o.delivered(Run(ReportLast)), Completed(false))
              + Opt(t.owes && o.delivered(Run(Closing)), Rescheduled)
            else
              Opt(t.owes && o.delivered(Run(Ready)), Rescheduled) + Opt(o.delivered(Run(ReportFirst)), Completed(false))
              + [Started, Ran, Ended]
  {
    RunFollows(s, t, o);
    hide Follow;
  }

  /**
    The dispatch goroutine's effects, then those of the runner that takes what it queued: `s` is the state
    of the dispatch, `taken` that of the runner's fetch, `checked` that of the run's checks.
  */
  function EndToEnd(s: State, taken: State, checked: State, t: Token, o: Outcomes, o': Outcomes): seq<Effect>
    requires t.id in s.configs && taken.configs == s.configs && checked.configs == s.configs && t.pc == Dispatched
  {
    var log := Dispatching(s, checked, t, o);
    if HandedOver(true) in log then log + Serving(taken, checked, t.(pc := QueueOf(s)), o')
    else if HandedOver(false) in log then log + Serving(taken, checked, t.(owes := false, pc := QueueOf(s)), o')
    else log
  }

  function QueueOf(s: State): Pc {
    if s.limitMode.Some? then Queued else SingleQueued
  }

  /**
    From dispatch to the end of its runner's turn one activation sends exactly one reschedule message,
    in every mode, when every message is delivered and the job is neither cancelled, gone nor past its
    stop time at the dispatch, at the runner's fetch or at the checks of the run.
  */
  lemma OneRescheduleEndToEnd(s: State, taken: State, checked: State, t: Token, o: Outcomes, o': Outcomes)
    requires t.id in s.configs && taken.configs == s.configs && checked.configs == s.configs
    requires t.pc == Dispatched && t.owes && forall pc :: o.delivered(pc) && o'.delivered(pc)
    requires Active(s, t.id) && t.id in taken.w.jobs && Active(checked, t.id)
    ensures Count(EndToEnd(s, taken, checked, t, o, o'), Rescheduled) == 1
  {
    hide Follow, Serving, Dispatching;
    DispatchFollows(s, checked, t, o);
    if s.limitMode.None? && s.configs[t.id].singletonMode.None? {
      OrdinaryRun(checked, t.(pc := Run(Checking)), o);
    } else {
      ServedWithFlag(s, taken, checked, t, o');
      ServedWithoutFlag(s, taken, checked, t, o');
      var log := Dispatching(s, checked, t, o);
      if HandedOver(true) in log {
        assert log == if s.limitMode.Some? || s.configs[t.id].intervalFromCompletion then [HandedOver(true)]
                      else [HandedOver(true), Rescheduled];
      } else if HandedOver(false) in log {
        assert log == [Rescheduled, HandedOver(false)];
      }
    }
  }

  /** The run of an ordinary job hands nothing over. */
  lemma OrdinaryRun(s: State, t: Token, o: Outcomes)
    requires t.id in s.configs && t.pc == Run(Checking) && t.owes && Active(s, t.id) && forall pc :: o.delivered(pc)
    ensures KeptToItself(Follow(s, t, o))
  {
    hide Follow, KeptToItself, Rank;
    RunTrace(s, t, o);
    TraceOf(Follow(s, t, o));
  }

  /** One reschedule message and nothing handed over. */
  predicate KeptToItself(log: seq<Effect>) {
    Count(log, Rescheduled) == 1 && HandedOver(true) !in log && HandedOver(false) !in log
  }

  lemma TraceOf(log: seq<Effect>)
    requires || log == [Rescheduled, NextRunUpdate]
             || log == [Rescheduled, Completed(true)]
             || log == [Started, Ran, Ended, Completed(false), Rescheduled]
             || log == [Rescheduled, Completed(false), Started, Ran, Ended]
    ensures KeptToItself(log)
  {
    ShortTraces();
    LateTrace();
    EarlyTrace();
    hide KeptToItself;
  }

  lemma ShortTraces()
    ensures KeptToItself([Rescheduled, NextRunUpdate]) && KeptToItself([Rescheduled, Completed(true)])
  {
  }

  lemma LateTrace()
    ensures KeptToItself([Started, Ran, Ended, Completed(false), Rescheduled])
  {
  }

  lemma EarlyTrace()
    ensures KeptToItself([Rescheduled, Completed(false), Started, Ran, Ended])
  {
  }

  /** A runner reschedules what is handed over with its flag set, unless its dispatcher does. */
  lemma ServedWithFlag(s: State, taken: State, checked: State, t: Token, o: Outcomes)
    requires t.id in s.configs && taken.configs == s.configs && checked.configs == s.configs && t.owes
    requires t.id in taken.w.jobs && Active(checked, t.id) && forall pc :: o.delivered(pc)
    ensures Count(Serving(taken, checked, t.(pc := QueueOf(s)), o), Rescheduled) ==
            if s.limitMode.Some? || s.configs[t.id].intervalFromCompletion then 1 else 0
  {
    hide Follow;
    if s.limitMode.Some? {
      LimitModeServes(taken, checked, t.(pc := Queued), o);
    } else {
      SingletonServes(taken, checked, t.(pc := SingleQueued), o);
    }
    hide Serving;
  }

  lemma LimitModeServes(s: State, later: State, t: Token, o: Outcomes)
    requires t.id in s.configs && t.id in later.configs && t.id in s.w.jobs && Active(later, t.id)
    requires t.owes && t.pc.Queued? && forall pc :: o.delivered(pc)
    ensures Count(Serving(s, later, t, o), Rescheduled) == 1
  {
    hide Follow, Serving;
    QueuedFollows(s, later, t, o);
    OrdinaryRun(later, t.(pc := Run(Checking)), o);
  }

  lemma SingletonServes(s: State, later: State, t: Token, o: Outcomes)
    requires t.id in s.configs && t.id in later.configs && t.id in s.w.jobs && Active(later, t.id)
    requires t.owes && t.pc.SingleQueued? && forall pc :: o.delivered(pc)
    ensures Count(Serving(s, later, t, o), Rescheduled) == if s.configs[t.id].intervalFromCompletion then 1 else 0
  {
    hide Follow, Serving;
    SingleQueuedFollows(s, later, t, o);
    if s.configs[t.id].intervalFromCompletion {
      OrdinaryRun(later, t.(pc := Run(Checking)), o);
    } else {
      SendsAtMostOnce(later, t.(owes := false, pc := Run(Checking)), o);
    }
  }

  lemma ServedWithoutFlag(s: State, taken: State, checked: State, t: Token, o: Outcomes)
    requires t.id in s.configs && taken.configs == s.configs && checked.configs == s.configs
    ensures Count(Serving(taken, checked, t.(owes := false, pc := QueueOf(s)), o), Rescheduled) == 0
  {
    GoroutineSendsAtMostOnce(taken, checked, t.(owes := false, pc := QueueOf(s)), o);
    hide Serving;
  }
}
