/**
  The protocol between the scheduler and the executor over one start-to-stop epoch.

  One event is one handler of the scheduler or one program point of an executor goroutine, and
  events interleave freely.  A send on an unbuffered channel and the handler that receives it are
  one event.  Whether a limiter has room, a lock is granted or a before-function agrees is left
  open, so the results hold for every outcome; module LimitModes models the limiters themselves.
*/
module Protocol {
  import opened Times
  import opened Jobs
  import opened Worlds

  /** A buffered report of when a run started or completed; `act` records whose it is and decides nothing. */
  datatype Timing = Timing(id: JobId, act: nat, startedAt: Time, completedAt: Time)

  datatype State = State(
    w: World,
    limitMode: Option<LimitMode>,       // WithLimitConcurrentJobs
    cancelled: bool,                    // the executor's context
    timings: multiset<Timing>,          // jobTimingUpdateCh
    reaping: multiset<JobId>,           // removals asked for by the run limit
    // what happened so far
    configs: map<JobId, Config>,        // every registration of the epoch
    armed: map<JobId, Time>,            // the instant last armed or dispatched
    exhausted: set<JobId>,              // jobs whose schedule answered zero
    sent: seq<nat>,                     // activations that sent a reschedule message, in order
    pokes: set<nat>,                    // activations made by RunNow
    poked: set<JobId>,
    ended: map<JobId, Time>,            // when the job's function last returned
    counted: seq<(nat, JobId)>,         // non-skipped completions handled: activation and job
    initial: map<JobId, nat>,           // run counts at registration
    finished: set<JobId>)               // jobs with a handled end-of-run report

  datatype Event =
    | Tick(to: Time)
    | Cancel
    | Register(id: JobId, job: Job, f: Time -> Time)
    | Remove(id: JobId)
    | RunNow(id: JobId)
    | HandleTiming(m: Timing)
    | LoseTiming(m: Timing)    // its sender gave up: the executor is cancelled
    | Reap(id: JobId)
    | Fire(p: nat)
    | Receive(p: nat)
    | Route(p: nat, room: bool)
    | Enqueue(p: nat)
    | Take(p: nat, clash: bool)
    | Quit(p: nat)
    | Check(p: nat)
    | Lock(p: nat, ok: bool)
    | Ask(p: nat, ok: bool)
    | SendOut(p: nat, f: Time -> Time)
    | HoldBack(p: nat)
    | Report(p: nat, delivered: bool)
    | Announce(p: nat)
    | Return(p: nat)
    | Finish(p: nat)

  /** Program points that call sendOutForRescheduling (or the equivalent select) next. */
  predicate Sends(pc: Pc) {
    match pc
    case Turned => true
    case Offering => true
    case Handed => true
    case Clashed => true
    case Run(stage) => stage in {LockFailed, Refusing, Ready, Closing}
    case _ => false
  }

  /** Where control goes after that call; None ends the goroutine's work on the activation. */
  function AfterSend(pc: Pc): Option<Pc> {
    match pc
    case Offering => Some(Accepted)
    case Run(stage) =>
      (match stage
       case LockFailed => Some(Run(ReportLock))
       case Refusing => Some(Run(ReportSkip))
       case Ready => Some(Run(ReportFirst))
       case _ => None)
    case _ => None
  }

  predicate Reports(pc: Pc) {
    pc.Run? && pc.stage in {ReportLock, ReportSkip, ReportFirst, ReportLast}
  }

  function AfterReport(pc: Pc): Option<Pc> {
    if pc == Run(ReportFirst) then Some(Run(Announcing))
    else if pc == Run(ReportLast) then Some(Run(Closing))
    else None
  }

  function Put(s: State, p: nat, t: Token, pc: Option<Pc>): State {
    s.(w := s.w.(tokens := if pc.None? then s.w.tokens - {p} else s.w.tokens[p := t.(pc := pc.value)]))
  }

  ghost predicate At(s: State, p: nat, pc: Pc) {
    p in s.w.tokens && s.w.tokens[p].pc == pc
  }

  ghost predicate Live(s: State, id: JobId) {
    id in s.w.jobs
  }

  ghost predicate Enabled(s: State, e: Event) {
    match e
    case Tick(to) => to >= s.w.now
    case Cancel => true
    case Register(id, j, f) =>
      id !in s.configs && id !in s.w.jobs && j.nextScheduled == [] && j.config.schedule.Answers(f)
      && (j.timer.Timer? ==> j.timer.tid < s.w.nextId && j.timer.tid !in s.w.tokens)
    case Remove(id) => true
    case RunNow(id) => Live(s, id)
    case HandleTiming(m) => m in s.timings
    case LoseTiming(m) => m in s.timings && s.cancelled
    case Reap(id) => id in s.reaping
    case Fire(p) => p in s.w.tokens && s.w.tokens[p].pc.Armed? && s.w.tokens[p].pc.at <= s.w.now
    case Receive(p) => At(s, p, Sending) && !s.cancelled
    case Route(p, _) => At(s, p, Dispatched)
    case Enqueue(p) => At(s, p, Accepted) || At(s, p, Handing)
    case Take(p, _) => At(s, p, Queued) || At(s, p, SingleQueued)
    case Quit(p) => s.cancelled && (At(s, p, Dispatched) || At(s, p, Queued) || At(s, p, SingleQueued))
    case Check(p) => At(s, p, Run(Checking))
    case Lock(p, _) => At(s, p, Run(Locking))
    case Ask(p, _) => At(s, p, Run(Asking))
    case SendOut(p, f) =>
      p in s.w.tokens && Sends(s.w.tokens[p].pc) && s.w.tokens[p].owes
      && (Live(s, s.w.tokens[p].id) ==> s.w.jobs[s.w.tokens[p].id].config.schedule.Answers(f))
    case HoldBack(p) =>
      p in s.w.tokens && Sends(s.w.tokens[p].pc)
      && (!s.w.tokens[p].owes || s.cancelled || (s.w.tokens[p].pc.Clashed? && !Live(s, s.w.tokens[p].id)))
    case Report(p, delivered) => p in s.w.tokens && Reports(s.w.tokens[p].pc) && (delivered || s.cancelled)
    case Announce(p) => At(s, p, Run(Announcing))
    case Return(p) => At(s, p, Run(Working))
    case Finish(p) => At(s, p, Run(Finishing))
  }

  /** The dispatch goroutine: limit mode first, then the job's own singleton mode. */
  function Routed(s: State, id: JobId, config: Config, room: bool): Option<Pc> {
    if s.limitMode.Some? then
      if s.limitMode.value.LimitModeWait? then Some(Offering)
      else Some(if room then Accepted else Turned)
    else if id !in s.w.jobs then None
    else if config.singletonMode.Some? then
      if config.singletonMode.value.LimitModeWait? || room then Some(Handing) else Some(Turned)
    else if s.cancelled then None
    else Some(Run(Checking))
  }

  /** Where a move takes a token; None ends it. */
  function NextPc(s: State, t: Token, e: Event): Option<Pc>
    requires Moves(e) && t.id in s.configs
  {
    var config := s.configs[t.id];
    match e
    case Fire(_) => Some(Sending)
    case Receive(_) => Some(Dispatched)
    case Route(_, room) => Routed(s, t.id, config, room)
    case Enqueue(_) =>
      // the dispatcher of an ordinary singleton stays behind to reschedule
      Some(if t.pc == Accepted then Queued else if config.intervalFromCompletion then SingleQueued else Handed)
    case Take(_, clash) =>
      // a runner fetches the job and either starts it, finds it running elsewhere, or finds it gone
      if t.id !in s.w.jobs then None
      else Some(if t.pc == Queued && config.singletonMode.Some? && clash then Clashed else Run(Checking))
    case Quit(_) => None
    case Check(_) =>
      if s.cancelled || t.id !in s.w.jobs || s.w.jobs[t.id].StopTimeReached(s.w.now) then None else Some(Run(Locking))
    case Lock(_, ok) => Some(Run(if ok then Asking else LockFailed))
    case Ask(_, ok) => Some(Run(if !ok then Refusing else if config.intervalFromCompletion then Announcing else Ready))
    case HoldBack(_) => AfterSend(t.pc)
    case Announce(_) => Some(Run(Working))
    case Return(_) => Some(Run(Finishing))
    case Finish(_) => if config.intervalFromCompletion then Some(Run(ReportLast)) else None
  }

  /** The singleton runner clears the flag unless rescheduling waits for completion. */
  function NextOwes(s: State, t: Token, e: Event): bool
    requires t.id in s.configs
  {
    t.owes && !(e.Take? && t.pc == SingleQueued && !s.configs[t.id].intervalFromCompletion)
  }

  /** The token that a move leaves in place of `t`, if any. */
  function Heir(s: State, t: Token, e: Event): Option<Token>
    requires Moves(e) && t.id in s.configs
  {
    var pc := NextPc(s, t, e);
    if pc.Some? then Some(t.(owes := NextOwes(s, t, e), pc := pc.value)) else None
  }

  /** Entering a singleton runner's queue leaves a copy there. */
  predicate Forks(s: State, t: Token, e: Event)
    requires t.id in s.configs
  {
    e.Enqueue? && t.pc == Handing && !s.configs[t.id].intervalFromCompletion
  }

  function Moved(s: State, p: nat, e: Event): State
    requires Moves(e) && p in s.w.tokens && s.w.tokens[p].id in s.configs
  {
    var t := s.w.tokens[p];
    var put := Put(s, p, t.(owes := NextOwes(s, t, e)), NextPc(s, t, e));
    var forked := put.w.(tokens := put.w.tokens[s.w.nextId := t.(pc := SingleQueued)], nextId := s.w.nextId + 1);
    var timed := if e.Announce? then multiset{Timing(t.id, t.act, s.w.now, ZERO)}
                 else if e.Finish? then multiset{Timing(t.id, t.act, ZERO, s.w.now)}
                 else multiset{};
    put.(w := if Forks(s, t, e) then forked else put.w,
    timings := s.timings + timed,
    ended := if e.Return? then s.ended[t.id := s.w.now] else s.ended)
  }

  /** The sender moves on, and the scheduler handles its reschedule message. */
  function Sent(s: State, p: nat, f: Time -> Time): State
    requires s.w.Valid() && p in s.w.tokens
  {
    var t := s.w.tokens[p];
    var r := Answer(s, t.id, f);
    var moved := Put(s, p, t.(owes := false), AfterSend(t.pc));
    moved.(
    w := OnReschedule(moved.w, t.id, f),
    sent := s.sent + [t.act],
    armed := if r.Rearm? then s.armed[t.id := r.next] else s.armed,
    exhausted := if r.Exhausted? then s.exhausted + {t.id} else s.exhausted)
  }

  /** The reschedule handler's decision; an unregistered job counts as removed. */
  function Answer(s: State, id: JobId, f: Time -> Time): Rescheduled
    requires s.w.Valid()
  {
    if id in s.w.jobs then Reschedule(s.w.jobs[id], f, s.w.now) else Jobs.Remove
  }

  function Reported(s: State, p: nat, delivered: bool): State
    requires p in s.w.tokens && Reports(s.w.tokens[p].pc)
  {
    var t := s.w.tokens[p];
    var moved := Put(s, p, t, AfterReport(t.pc));
    if !delivered then moved
    else if t.pc == Run(ReportLock) then moved.(w := OnPrune(moved.w, t.id))
    else
      var skipped := t.pc == Run(ReportSkip);
      moved.(
      w := OnCompleted(moved.w, t.id, skipped),
      counted := if skipped || t.id !in s.w.jobs then s.counted else s.counted + [(t.act, t.id)])
  }

  function Registered(s: State, id: JobId, j: Job, f: Time -> Time): State {
    var first := PrepareFirstRun(j, f, s.w.now);
    s.(w := OnBegin(s.w, id, j, f),
    configs := s.configs[id := j.config],
    initial := s.initial[id := j.runCount],
    armed := if first.Drop? then s.armed else s.armed[id := first.at])
  }

  function TimingHandled(s: State, m: Timing): State {
    var w := OnTiming(s.w, m.id, m.startedAt, m.completedAt);
    var remove := m.id in w.jobs && m.completedAt != ZERO && LimitReached(w.jobs[m.id]);
    s.(w := w, timings := s.timings - multiset{m},
    reaping := if remove then s.reaping + multiset{m.id} else s.reaping,
    finished := if m.completedAt != ZERO then s.finished + {m.id} else s.finished)
  }

  /** Events that only move one activation along, or leave a copy of it in a queue. */
  predicate Moves(e: Event) {
    !(e.Tick? || e.Cancel? || e.Register? || e.Remove? || e.RunNow? || e.HandleTiming? || e.LoseTiming? || e.Reap?
      || e.SendOut? || e.Report?)
  }

  function Apply(s: State, e: Event): State
    requires s.w.Valid() && Enabled(s, e) && forall p :: p in s.w.tokens ==> s.w.tokens[p].id in s.configs
  {
    if Moves(e) then Moved(s, e.p, e)
    else match e
         case Tick(to) => s.(w := s.w.(now := to))
         case Cancel => s.(cancelled := true)
         case Register(id, j, f) => Registered(s, id, j, f)
         case Remove(id) => s.(w := Removed(s.w, id))
         case RunNow(id) => s.(w := OnRunNow(s.w, id), pokes := s.pokes + {s.w.nextId}, poked := s.poked + {id})
         case HandleTiming(m) => TimingHandled(s, m)
         case LoseTiming(m) => s.(timings := s.timings - multiset{m})
         case Reap(id) => s.(w := Removed(s.w, id), reaping := s.reaping - multiset{id})
         case SendOut(p, f) => Sent(s, p, f)
         case Report(p, delivered) => Reported(s, p, delivered)
  }

  // ---- Invariants ----

  /**
    The token's flag will still be acted on. A singleton runner clears it unless rescheduling waits for
    completion.
  */
  ghost predicate Owing(s: State, p: nat) {
    && p in s.w.tokens && s.w.tokens[p].owes && s.w.tokens[p].id in s.configs
    && !(s.w.tokens[p].pc.SingleQueued? && !s.configs[s.w.tokens[p].id].intervalFromCompletion)
  }

  ghost predicate Base(s: State) {
    && s.w.Valid() && s.w.now > ZERO
    && (forall id :: id in s.w.jobs ==> id in s.configs && s.w.jobs[id].config == s.configs[id])
    && s.armed.Keys <= s.configs.Keys
    && (forall p :: p in s.w.tokens ==> s.w.tokens[p].id in s.configs && s.w.tokens[p].act < s.w.nextId)
    && (forall p, q :: p in s.w.tokens && q in s.w.tokens && s.w.tokens[p].act == s.w.tokens[q].act ==>
                         s.w.tokens[p].id == s.w.tokens[q].id)
  }

  /** An armed timer is the current timer of a registered job, and of no other. */
  ghost predicate TimersOwned(s: State) {
    && (forall p :: p in s.w.tokens && s.w.tokens[p].pc.Armed? ==>
                      && s.w.tokens[p].owes && s.w.tokens[p].id in s.w.jobs
                      && s.w.jobs[s.w.tokens[p].id].timer == Timer(p, s.w.tokens[p].pc.at))
    && (forall id :: id in s.w.jobs && s.w.jobs[id].timer.Timer? && s.w.jobs[id].timer.tid in s.w.tokens ==>
                       s.w.tokens[s.w.jobs[id].timer.tid].id == id)
  }

  /** One chain per job: at most one timer or goroutine of a job still leads to a reschedule. */
  ghost predicate OneChain(s: State) {
    forall p, q :: Owing(s, p) && Owing(s, q) && s.w.tokens[p].id == s.w.tokens[q].id ==> p == q
  }

  ghost predicate Distinct(s: seq<nat>) {
    forall i, j :: 0 <= i < j < |s| ==> s[i] != s[j]
  }

  /** Nobody who still owes a message has sent one, and no activation sent two. */
  ghost predicate SentOnce(s: State) {
    && Distinct(s.sent)
    && (forall i :: 0 <= i < |s.sent| ==> s.sent[i] < s.w.nextId)
    && (forall p :: Owing(s, p) ==> s.w.tokens[p].act !in s.sent)
  }

  /** RunNow activations never owe or send a reschedule. */
  ghost predicate PokesQuiet(s: State) {
    && (forall a :: a in s.pokes ==> a < s.w.nextId && a !in s.sent)
    && (forall p :: p in s.w.tokens && s.w.tokens[p].act in s.pokes ==> !s.w.tokens[p].owes)
  }

  /**
    Nothing is listed beyond the instant last armed, a waiting timer is armed for exactly that
    instant and before any stop time, and once it has fired that instant is not in the future.
  */
  ghost predicate ArmedInOrder(s: State) {
    && (forall id :: id in s.w.jobs ==>
                       id in s.armed && forall t :: t in s.w.jobs[id].nextScheduled ==> t <= s.armed[id])
    && (forall p :: Owing(s, p) && s.w.tokens[p].id in s.armed ==>
                      if s.w.tokens[p].pc.Armed? then
                        s.w.tokens[p].pc.at == s.armed[s.w.tokens[p].id]
                        && BeforeStop(s.configs[s.w.tokens[p].id], s.w.tokens[p].pc.at)
                      else s.armed[s.w.tokens[p].id] <= s.w.now)
  }

  predicate BeforeStop(config: Config, t: Time) {
    config.stopTime == ZERO || t < config.stopTime
  }

  /** The chain of a registered job breaks only by cancellation, exhaustion or its stop time. */
  ghost predicate Unbroken(s: State) {
    forall id :: id in s.w.jobs && !s.cancelled && id !in s.exhausted && !s.w.jobs[id].StopTimeReached(s.w.now) ==>
                   exists p :: Owing(s, p) && s.w.tokens[p].id == id
  }

  /** Token `q` of the later state carries on (part of) what token `p` stood for. */
  ghost predicate Inherits(s: State, p: nat, s': State, q: nat)
    requires p in s.w.tokens
  {
    q in s'.w.tokens ==>
      && s'.w.tokens[q].id == s.w.tokens[p].id && s'.w.tokens[q].act == s.w.tokens[p].act
      && !s'.w.tokens[q].pc.Armed? && (s'.w.tokens[q].owes ==> s.w.tokens[p].owes)
      && (Owing(s', q) ==> Owing(s, p))
  }

  /** All a move may do: replace token `p`, perhaps splitting it, with at most one heir still owing. */
  ghost predicate TokenStep(s: State, p: nat, s': State) {
    && p in s.w.tokens
    && s' == s.(w := s.w.(tokens := s'.w.tokens, nextId := s'.w.nextId), timings := s'.timings, ended := s'.ended)
    && (s'.w.nextId == s.w.nextId || s'.w.nextId == s.w.nextId + 1)
    && (forall q :: q in s.w.tokens && q != p ==> q in s'.w.tokens && s'.w.tokens[q] == s.w.tokens[q])
    && (forall q :: q in s'.w.tokens && q != p ==> q in s.w.tokens || (q == s.w.nextId && s'.w.nextId > q))
    && Inherits(s, p, s', p) && Inherits(s, p, s', s.w.nextId)
    && !(Owing(s', p) && Owing(s', s.w.nextId))
  }

  lemma MovedIsTokenStep(s: State, p: nat, e: Event)
    requires Moves(e) && p in s.w.tokens && s.w.tokens[p].id in s.configs && s.w.nextId !in s.w.tokens
    requires NextPc(s, s.w.tokens[p], e).Some? ==> !NextPc(s, s.w.tokens[p], e).value.Armed?
    requires s.w.tokens[p].pc.SingleQueued? ==> e.Take? || e.Quit?
    requires e.Quit? ==> NextPc(s, s.w.tokens[p], e).None?
    ensures TokenStep(s, p, Moved(s, p, e))
  {
    MovedFrame(s, p, e);
    MovedInherits(s, p, e);
    hide Moved, Inherits, NextPc, Owing;
  }

  /** Apart from its token a move changes timings and the note of a return, and may hand out an identity. */
  lemma MovedFrame(s: State, p: nat, e: Event)
    requires Moves(e) && p in s.w.tokens && s.w.tokens[p].id in s.configs && s.w.nextId !in s.w.tokens
    ensures var s' := Moved(s, p, e);
            && s' == s.(w := s.w.(tokens := s'.w.tokens, nextId := s'.w.nextId), timings := s'.timings,
                     ended := s'.ended)
            && (s'.w.nextId == s.w.nextId || s'.w.nextId == s.w.nextId + 1)
            && (forall q :: q in s.w.tokens && q != p ==> q in s'.w.tokens && s'.w.tokens[q] == s.w.tokens[q])
            && (forall q :: q in s'.w.tokens && q != p ==> q in s.w.tokens || (q == s.w.nextId && s'.w.nextId > q))
  {
    hide NextPc, NextOwes, Forks;
  }

  lemma MovedInherits(s: State, p: nat, e: Event)
    requires Moves(e) && p in s.w.tokens && s.w.tokens[p].id in s.configs && s.w.nextId !in s.w.tokens
    requires NextPc(s, s.w.tokens[p], e).Some? ==> !NextPc(s, s.w.tokens[p], e).value.Armed?
    requires s.w.tokens[p].pc.SingleQueued? ==> e.Take? || e.Quit?
    requires e.Quit? ==> NextPc(s, s.w.tokens[p], e).None?
    ensures var s' := Moved(s, p, e);
            Inherits(s, p, s', p) && Inherits(s, p, s', s.w.nextId) && !(Owing(s', p) && Owing(s', s.w.nextId))
  {
    hide NextPc;
  }

  lemma NextPcNotArmed(s: State, t: Token, e: Event)
    requires Moves(e) && t.id in s.configs
    ensures NextPc(s, t, e).Some? ==> !NextPc(s, t, e).value.Armed?
  {
  }

  // ---- Which function an event applies, and what its being enabled says about its token ----

  lemma MoveApplies(s: State, e: Event)
    requires Base(s) && Enabled(s, e) && Moves(e)
    ensures e.p in s.w.tokens && s.w.tokens[e.p].id in s.configs && Apply(s, e) == Moved(s, e.p, e)
  {
    hide Moved;
  }

  lemma SendApplies(s: State, e: Event)
    requires Base(s) && Enabled(s, e) && e.SendOut?
    ensures e.p in s.w.tokens && s.w.tokens[e.p].id in s.configs && Sends(s.w.tokens[e.p].pc) && s.w.tokens[e.p].owes
    ensures Apply(s, e) == Sent(s, e.p, e.f)
  {
    hide Sent;
  }

  lemma ReportApplies(s: State, e: Event)
    requires Base(s) && Enabled(s, e) && e.Report?
    ensures e.p in s.w.tokens && s.w.tokens[e.p].id in s.configs && Reports(s.w.tokens[e.p].pc)
    ensures Apply(s, e) == Reported(s, e.p, e.delivered)
  {
    hide Reported;
  }

  lemma RegisterApplies(s: State, e: Event)
    requires Base(s) && Enabled(s, e) && e.Register?
    ensures e.id !in s.configs && e.id !in s.w.jobs && Apply(s, e) == Registered(s, e.id, e.job, e.f)
  {
    hide Registered;
  }

  lemma RunNowPokes(s: State, id: JobId)
    requires Base(s) && id in s.w.jobs
    ensures Apply(s, RunNow(id)) == Poked(s, id)
  {
  }

  /** What an enabled move says about the token it moves. */
  lemma MoverIs(s: State, e: Event)
    requires Base(s) && Enabled(s, e) && Moves(e)
    ensures e.p in s.w.tokens && s.w.tokens[e.p].id in s.configs && s.w.nextId !in s.w.tokens
    ensures var t := s.w.tokens[e.p];
            && (t.pc.Armed? ==> t.pc.at <= s.w.now)
            && (e.HoldBack? && t.owes ==> s.cancelled || (t.pc.Clashed? && t.id !in s.w.jobs))
            && (e.Quit? ==> s.cancelled) && (t.pc.SingleQueued? ==> e.Take? || e.Quit?)
            && (e.Announce? ==> t.pc == Run(Announcing))
            && (e.Return? ==> t.pc == Run(Working))
            && (e.Finish? ==> t.pc == Run(Finishing))
  {
  }

  lemma MovesAreTokenSteps(s: State, e: Event)
    requires Base(s) && Enabled(s, e) && Moves(e)
    ensures TokenStep(s, e.p, Apply(s, e))
  {
    hide TokenStep, Moved;
    NextPcNotArmed(s, s.w.tokens[e.p], e);
    MovedIsTokenStep(s, e.p, e);
  }

  lemma TokenStepKeepsChain(s: State, p: nat, s': State)
    requires Base(s) && TimersOwned(s) && OneChain(s) && TokenStep(s, p, s')
    ensures Base(s') && TimersOwned(s') && OneChain(s')
  {
    TokenStepKeepsBase(s, p, s');
    TokenStepKeepsTimers(s, p, s');
    TokenStepOwing(s, p, s');
    hide Base, TimersOwned, TokenStep, Owing;
  }

  lemma TokenStepKeepsBase(s: State, p: nat, s': State)
    requires Base(s) && TokenStep(s, p, s')
    ensures Base(s')
  {
    hide Owing;
  }

  lemma TokenStepKeepsTimers(s: State, p: nat, s': State)
    requires Base(s) && TimersOwned(s) && TokenStep(s, p, s')
    ensures TimersOwned(s')
  {
    hide Owing;
  }

  lemma TokenStepOwing(s: State, p: nat, s': State)
    requires TokenStep(s, p, s')
    ensures forall q :: Owing(s', q) ==> Owing(s, if q == s.w.nextId then p else q)
    ensures forall q :: Owing(s', q) ==> s'.w.tokens[q].id == s.w.tokens[if q == s.w.nextId then p else q].id
    ensures !(Owing(s', p) && Owing(s', s.w.nextId))
  {
    hide Base;
  }

  lemma TokenStepKeepsHistory(s: State, p: nat, s': State)
    requires Base(s) && SentOnce(s) && PokesQuiet(s) && TokenStep(s, p, s')
    ensures SentOnce(s') && PokesQuiet(s')
  {
    forall q | Owing(s', q) ensures s'.w.tokens[q].act !in s'.sent {
      assert Owing(s, if q == s.w.nextId then p else q);
    }
  }

  lemma TokenStepKeepsOrder(s: State, p: nat, s': State)
    requires Base(s) && ArmedInOrder(s) && TokenStep(s, p, s')
    requires s.w.tokens[p].pc.Armed? ==> s.w.tokens[p].pc.at <= s.w.now
    ensures ArmedInOrder(s')
  {
    forall q | Owing(s', q) && q != p && q != s.w.nextId ensures Owing(s, q) {
    }
  }

  /** Handlers that list nothing new: jobs may disappear with their waiting timers, lists may shrink. */
  ghost predicate Shrinks(s: State, s': State) {
    && s' == s.(w := s'.w, cancelled := s'.cancelled, timings := s'.timings, reaping := s'.reaping,
             finished := s'.finished,
             counted := s'.counted, exhausted := s'.exhausted)
    && (s.cancelled ==> s'.cancelled) && s.exhausted <= s'.exhausted
    && s'.w.nextId == s.w.nextId && s'.w.now >= s.w.now
    && (forall q :: q in s'.w.tokens ==> q in s.w.tokens && s'.w.tokens[q] == s.w.tokens[q])
    && (forall q :: q in s.w.tokens && q !in s'.w.tokens ==> s.w.tokens[q].id !in s'.w.jobs)
    && (forall q :: q in s'.w.tokens && s'.w.tokens[q].pc.Armed? ==> s'.w.tokens[q].id in s'.w.jobs)
    && (forall id :: id in s'.w.jobs ==>
                       && id in s.w.jobs && s'.w.jobs[id].config == s.w.jobs[id].config
                       && s'.w.jobs[id].timer == s.w.jobs[id].timer
                       && Ascending(s'.w.jobs[id].nextScheduled)
                       && forall t :: t in s'.w.jobs[id].nextScheduled ==> t in s.w.jobs[id].nextScheduled)
  }

  lemma ShrinksKeeps(s: State, s': State)
    requires Base(s) && TimersOwned(s) && OneChain(s) && Shrinks(s, s')
    ensures Base(s') && TimersOwned(s') && OneChain(s')
    ensures SentOnce(s) ==> SentOnce(s')
    ensures PokesQuiet(s) ==> PokesQuiet(s')
    ensures ArmedInOrder(s) ==> ArmedInOrder(s')
  {
    assert forall q :: Owing(s', q) ==> Owing(s, q);
  }

  lemma ShrinksKeepsUnbroken(s: State, s': State)
    requires Base(s) && Unbroken(s) && Shrinks(s, s')
    ensures Unbroken(s')
  {
    forall id | id in s'.w.jobs && !s'.cancelled && id !in s'.exhausted && !s'.w.jobs[id].StopTimeReached(s'.w.now)
      ensures exists p :: Owing(s', p) && s'.w.tokens[p].id == id
    {
      var p :| Owing(s, p) && s.w.tokens[p].id == id;
      assert Owing(s', p);
    }
  }

  // ---- One event at a time ----

  lemma RemovedShrinks(s: State, id: JobId, s': State)
    requires Base(s) && TimersOwned(s)
    requires s' == s.(w := Removed(s.w, id), reaping := s'.reaping)
    ensures Shrinks(s, s')
  {
  }

  lemma HandlerShrinks(s: State, id: JobId, j: Job, s': State)
    requires Base(s) && TimersOwned(s) && id in s.w.jobs
    requires j.config == s.w.jobs[id].config && j.timer == s.w.jobs[id].timer
    requires Ascending(j.nextScheduled) && forall t :: t in j.nextScheduled ==> t in s.w.jobs[id].nextScheduled
    requires s' == s.(w := s.w.(jobs := s.w.jobs[id := j]), timings := s'.timings, reaping := s'.reaping,
                   finished := s'.finished, counted := s'.counted)
    ensures Shrinks(s, s')
  {
  }

  lemma CompletedShrinks(s: State, id: JobId, skipped: bool, s': State)
    requires Base(s) && TimersOwned(s) && s' == s.(w := OnCompleted(s.w, id, skipped), counted := s'.counted)
    ensures Shrinks(s, s')
  {
    if id in s.w.jobs {
      UpcomingIsSuffix(s.w.jobs[id].nextScheduled, s.w.now);
      HandlerShrinks(s, id, Completed(s.w.jobs[id], skipped, s.w.now), s');
    }
  }

  lemma PruneShrinks(s: State, id: JobId, s': State)
    requires Base(s) && TimersOwned(s) && s' == s.(w := OnPrune(s.w, id))
    ensures Shrinks(s, s')
  {
    if id in s.w.jobs {
      UpcomingIsSuffix(s.w.jobs[id].nextScheduled, s.w.now);
      HandlerShrinks(s, id, Pruned(s.w.jobs[id], s.w.now), s');
    }
  }

  lemma TimingShrinks(s: State, m: Timing)
    requires Base(s) && TimersOwned(s)
    ensures Shrinks(s, TimingHandled(s, m))
  {
    if m.id in s.w.jobs {
      HandlerShrinks(s, m.id, Timed(s.w.jobs[m.id], m.startedAt, m.completedAt), TimingHandled(s, m));
    }
  }

  lemma PutIsTokenStep(s: State, p: nat, t: Token, pc: Option<Pc>)
    requires p in s.w.tokens && t.id == s.w.tokens[p].id && t.act == s.w.tokens[p].act && s.w.nextId !in s.w.tokens
    requires pc.Some? ==> !pc.value.Armed? && !s.w.tokens[p].pc.SingleQueued?
    requires t.owes ==> s.w.tokens[p].owes
    ensures TokenStep(s, p, Put(s, p, t, pc))
  {
  }

  /** Invariants apart from Unbroken, which needs to know what becomes of an owing token. */
  ghost predicate Safe(s: State) {
    Base(s) && TimersOwned(s) && OneChain(s) && SentOnce(s) && PokesQuiet(s) && ArmedInOrder(s)
  }

  lemma SafeAfterTokenStep(s: State, p: nat, s': State)
    requires Safe(s) && TokenStep(s, p, s')
    requires s.w.tokens[p].pc.Armed? ==> s.w.tokens[p].pc.at <= s.w.now
    ensures Safe(s')
  {
    TokenStepKeepsChain(s, p, s');
    TokenStepKeepsHistory(s, p, s');
    TokenStepKeepsOrder(s, p, s');
  }

  lemma SafeAfterReport(s: State, p: nat, delivered: bool)
    requires Safe(s) && Enabled(s, Report(p, delivered))
    ensures Safe(Reported(s, p, delivered))
  {
    var t := s.w.tokens[p];
    var moved := Put(s, p, t, AfterReport(t.pc));
    ReportIsTokenStep(s, p);
    hide TokenStep, Shrinks, Base, TimersOwned, OneChain, SentOnce, PokesQuiet, ArmedInOrder, Put, AfterReport;
    SafeAfterTokenStep(s, p, moved);
    if delivered {
      ReportShrinks(s, p, moved);
      hide Reported;
      ShrinksKeeps(moved, Reported(s, p, true));
    }
  }

  lemma ReportIsTokenStep(s: State, p: nat)
    requires Base(s) && p in s.w.tokens && Reports(s.w.tokens[p].pc)
    ensures TokenStep(s, p, Put(s, p, s.w.tokens[p], AfterReport(s.w.tokens[p].pc)))
  {
    hide TokenStep, Put;
    PutIsTokenStep(s, p, s.w.tokens[p], AfterReport(s.w.tokens[p].pc));
  }

  lemma ReportShrinks(s: State, p: nat, moved: State)
    requires p in s.w.tokens && Reports(s.w.tokens[p].pc) && Base(moved) && TimersOwned(moved)
    requires moved == Put(s, p, s.w.tokens[p], AfterReport(s.w.tokens[p].pc))
    ensures Shrinks(moved, Reported(s, p, true))
  {
    hide Base, TimersOwned, Shrinks, Put, OnPrune, OnCompleted, AfterReport;
    var t := s.w.tokens[p];
    if t.pc == Run(ReportLock) {
      PruneShrinks(moved, t.id, Reported(s, p, true));
    } else {
      CompletedShrinks(moved, t.id, t.pc == Run(ReportSkip), Reported(s, p, true));
    }
  }

  // ---- New activations ----

  /** A job gets a fresh timer or dispatch. */
  function Grown(s: State, id: JobId, j: Job, pc: Pc, at: Time): State {
    s.(w := s.w.(jobs := s.w.jobs[id := j], tokens := s.w.tokens[s.w.nextId := Token(id, s.w.nextId, true, pc)],
    nextId := s.w.nextId + 1),
    armed := s.armed[id := at])
  }

  ghost predicate ChainFree(s: State, id: JobId) {
    forall p :: Owing(s, p) ==> s.w.tokens[p].id != id
  }

  /** What makes a job and its new activation fit the state. */
  ghost predicate Fits(s: State, id: JobId, j: Job, pc: Pc, at: Time) {
    && ChainFree(s, id) && id in s.configs && j.config == s.configs[id]
    && Ascending(j.nextScheduled) && (forall t :: t in j.nextScheduled ==> t <= at)
    && if pc.Armed? then pc.at == at && j.timer == Timer(s.w.nextId, at) && BeforeStop(j.config, at)
       else pc == Sending && at <= s.w.now
            && (j.timer.Timer? ==> j.timer.tid < s.w.nextId && j.timer.tid !in s.w.tokens)
  }

  lemma GrowthOwing(s: State, id: JobId, j: Job, pc: Pc, at: Time)
    requires Base(s) && id in s.configs && (pc.Armed? || pc.Sending?)
    ensures forall p :: Owing(Grown(s, id, j, pc, at), p) <==> p == s.w.nextId || Owing(s, p)
  {
  }

  lemma GrowthKeepsBase(s: State, id: JobId, j: Job, pc: Pc, at: Time)
    requires Base(s) && Fits(s, id, j, pc, at)
    ensures Base(Grown(s, id, j, pc, at))
  {
    GrowthKeepsWorld(s, id, j, pc, at);
    assert s.w.nextId !in s.w.tokens;
    hide World.Valid, ChainFree, BeforeStop;
  }

  lemma GrowthKeepsWorld(s: State, id: JobId, j: Job, pc: Pc, at: Time)
    requires s.w.Valid() && Fits(s, id, j, pc, at)
    ensures Grown(s, id, j, pc, at).w.Valid()
  {
    hide ChainFree, BeforeStop;
  }

  lemma GrowthKeepsTimers(s: State, id: JobId, j: Job, pc: Pc, at: Time)
    requires Base(s) && TimersOwned(s) && Fits(s, id, j, pc, at)
    ensures TimersOwned(Grown(s, id, j, pc, at))
  {
    assert forall p :: p in s.w.tokens && s.w.tokens[p].pc.Armed? ==> Owing(s, p) && s.w.tokens[p].id != id;
  }

  lemma GrowthKeepsHistory(s: State, id: JobId, j: Job, pc: Pc, at: Time)
    requires Base(s) && OneChain(s) && SentOnce(s) && PokesQuiet(s) && Fits(s, id, j, pc, at)
    ensures var s' := Grown(s, id, j, pc, at);
            OneChain(s') && SentOnce(s') && PokesQuiet(s')
  {
    GrowthOwing(s, id, j, pc, at);
  }

  lemma GrowthKeepsOrder(s: State, id: JobId, j: Job, pc: Pc, at: Time)
    requires Base(s) && ArmedInOrder(s) && Fits(s, id, j, pc, at)
    ensures ArmedInOrder(Grown(s, id, j, pc, at))
  {
    var s' := Grown(s, id, j, pc, at);
    GrowthOwing(s, id, j, pc, at);
    assert s.w.nextId !in s.w.tokens;
    hide Base;
    forall p | Owing(s', p) && p != s.w.nextId
      ensures Owing(s, p) && s'.w.tokens[p] == s.w.tokens[p] && s.w.tokens[p].id != id {
    }
    hide Owing;
  }

  lemma SafeAfterGrowth(s: State, id: JobId, j: Job, pc: Pc, at: Time)
    requires Safe(s) && Fits(s, id, j, pc, at)
    ensures Safe(Grown(s, id, j, pc, at))
  {
    hide Base, TimersOwned, OneChain, SentOnce, PokesQuiet, ArmedInOrder, Fits;
    GrowthKeepsBase(s, id, j, pc, at);
    GrowthKeepsTimers(s, id, j, pc, at);
    GrowthKeepsHistory(s, id, j, pc, at);
    GrowthKeepsOrder(s, id, j, pc, at);
  }

  lemma SafeAfterRunNow(s: State, id: JobId)
    requires Safe(s) && id in s.w.jobs
    ensures Safe(Apply(s, RunNow(id)))
  {
    hide Base, TimersOwned, OneChain, SentOnce, PokesQuiet, ArmedInOrder;
    RunNowPokes(s, id);
    RunNowKeepsBase(s, id);
    RunNowKeepsTimers(s, id);
    RunNowKeepsHistory(s, id);
    RunNowKeepsOrder(s, id);
  }

  /** The state after RunNow: a token that owes nothing. */
  function Poked(s: State, id: JobId): State {
    s.(w := s.w.(tokens := s.w.tokens[s.w.nextId := Token(id, s.w.nextId, false, Sending)], nextId := s.w.nextId + 1),
    pokes := s.pokes + {s.w.nextId}, poked := s.poked + {id})
  }

  lemma RunNowKeepsBase(s: State, id: JobId)
    requires Base(s) && id in s.w.jobs
    ensures Base(Poked(s, id))
  {
  }

  lemma RunNowKeepsTimers(s: State, id: JobId)
    requires Base(s) && TimersOwned(s) && id in s.w.jobs
    ensures TimersOwned(Poked(s, id))
  {
  }

  lemma PokedOwing(s: State, id: JobId)
    requires Base(s)
    ensures forall p :: Owing(Poked(s, id), p) <==> Owing(s, p)
    ensures forall p :: Owing(s, p) ==> Poked(s, id).w.tokens[p] == s.w.tokens[p]
  {
    assert s.w.nextId !in s.w.tokens;
  }

  lemma RunNowKeepsOrder(s: State, id: JobId)
    requires Base(s) && OneChain(s) && ArmedInOrder(s)
    ensures OneChain(Poked(s, id)) && ArmedInOrder(Poked(s, id))
  {
    PokedOwing(s, id);
    hide Base, Owing;
  }

  lemma RunNowKeepsHistory(s: State, id: JobId)
    requires Base(s) && SentOnce(s) && PokesQuiet(s)
    ensures SentOnce(Poked(s, id)) && PokesQuiet(Poked(s, id))
  {
    PokedOwing(s, id);
    assert forall p :: p in s.w.tokens ==> s.w.tokens[p].act < s.w.nextId;
    hide Base, Owing;
  }

  lemma SafeAfterRegister(s: State, id: JobId, j: Job, f: Time -> Time)
    requires Safe(s) && Enabled(s, Register(id, j, f))
    ensures Safe(Registered(s, id, j, f))
  {
    var first := PrepareFirstRun(j, f, s.w.now);
    var s0 := s.(configs := s.configs[id := j.config], initial := s.initial[id := j.runCount]);
    hide Safe;
    ConfigsGrow(s, s0, id);
    if first.Drop? {
      DroppedRegistration(s, id, j, f);
    } else {
      RegisteredFits(s, id, j, f, s0);
      hide Fits, PrepareFirstRun, Begun;
      SafeAfterGrowth(s0, id, Begun(j, first, s.w.nextId), if first.Arm? then Armed(first.at) else Sending, first.at);
    }
  }

  /** A dropped registration leaves only the record of it: the job's old timer is none that waits. */
  lemma DroppedRegistration(s: State, id: JobId, j: Job, f: Time -> Time)
    requires id !in s.w.jobs && PrepareFirstRun(j, f, s.w.now).Drop? && (j.timer.Timer? ==> j.timer.tid !in s.w.tokens)
    ensures Registered(s, id, j, f) == s.(configs := s.configs[id := j.config], initial := s.initial[id := j.runCount])
  {
    hide PrepareFirstRun;
    assert s.w.jobs - {id} == s.w.jobs;
  }

  lemma RegisteredFits(s: State, id: JobId, j: Job, f: Time -> Time, s0: State)
    requires Safe(s) && Enabled(s, Register(id, j, f)) && !PrepareFirstRun(j, f, s.w.now).Drop?
    requires s0 == s.(configs := s.configs[id := j.config], initial := s0.initial)
    ensures var first := PrepareFirstRun(j, f, s.w.now);
            Fits(s0, id, Begun(j, first, s.w.nextId), if first.Arm? then Armed(first.at) else Sending, first.at)
  {
    var first := PrepareFirstRun(j, f, s.w.now);
    FirstRunAtNow(j, f, s.w.now);
    hide PrepareFirstRun, OneChain, SentOnce, PokesQuiet, ArmedInOrder, TimersOwned;
    assert Begun(j, first, s.w.nextId).nextScheduled == [first.at];
  }

  lemma FirstRunAtNow(j: Job, f: Time -> Time, now: Time)
    ensures var first := PrepareFirstRun(j, f, now);
            && (first.Fire? ==> first.at == now)
            && (first.Arm? ==> first.at >= now && BeforeStop(j.config, first.at))
  {
    AdvanceIsForward(f, if j.startTime == ZERO then f(now) else j.startTime, now);
  }

  lemma ConfigsGrow(s: State, s0: State, id: JobId)
    requires Safe(s) && id !in s.configs && id in s0.configs
    requires s0 == s.(configs := s.configs[id := s0.configs[id]], initial := s0.initial)
    ensures Safe(s0)
  {
    assert forall p :: Owing(s0, p) <==> Owing(s, p);
  }

  /** The sender of a reschedule message was its job's whole chain, so any timer of the job has fired. */
  lemma SenderIsWholeChain(s: State, p: nat)
    requires Base(s) && TimersOwned(s) && OneChain(s)
    requires Owing(s, p) && !s.w.tokens[p].pc.Armed? && s.w.tokens[p].id in s.w.jobs
    ensures StopTimer(s.w.tokens, s.w.jobs[s.w.tokens[p].id].timer) == s.w.tokens
    ensures forall q :: q in s.w.tokens && s.w.tokens[q].id == s.w.tokens[p].id ==> !s.w.tokens[q].pc.Armed?
  {
    forall q | q in s.w.tokens && s.w.tokens[q].id == s.w.tokens[p].id ensures !s.w.tokens[q].pc.Armed? {
      if s.w.tokens[q].pc.Armed? {
        assert Owing(s, q);
      }
    }
  }

  /** The sender's own move: afterwards its job has no chain and its activation owes nothing. */
  lemma SenderLetsGo(s: State, p: nat, moved: State)
    requires Safe(s) && Owing(s, p) && Sends(s.w.tokens[p].pc)
    requires moved == Put(s, p, s.w.tokens[p].(owes := false), AfterSend(s.w.tokens[p].pc))
    ensures Safe(moved) && ChainFree(moved, s.w.tokens[p].id)
    ensures forall q :: Owing(moved, q) ==> moved.w.tokens[q].act != s.w.tokens[p].act
  {
    var t := s.w.tokens[p];
    PutIsTokenStep(s, p, t.(owes := false), AfterSend(t.pc));
    SafeAfterTokenStep(s, p, moved);
    hide SentOnce, PokesQuiet, ArmedInOrder, TimersOwned;
    forall q | Owing(moved, q) ensures moved.w.tokens[q].id != t.id && moved.w.tokens[q].act != t.act {
      assert q != p && Owing(s, q);
    }
  }

  lemma SendRecorded(s: State, act: nat)
    requires Safe(s) && act < s.w.nextId && act !in s.sent && act !in s.pokes
    requires forall q :: Owing(s, q) ==> s.w.tokens[q].act != act
    ensures Safe(s.(sent := s.sent + [act]))
  {
    hide Base, TimersOwned, OneChain, SentOnce, PokesQuiet, ArmedInOrder;
    RecordLeavesTokens(s, act);
    RecordLeavesChains(s, act);
    RecordKeepsHistory(s, act);
  }

  lemma RecordKeepsHistory(s: State, act: nat)
    requires SentOnce(s) && PokesQuiet(s) && act < s.w.nextId && act !in s.sent && act !in s.pokes
    requires forall q :: Owing(s, q) ==> s.w.tokens[q].act != act
    ensures SentOnce(s.(sent := s.sent + [act])) && PokesQuiet(s.(sent := s.sent + [act]))
  {
    DistinctGrows(s.sent, act);
    var s' := s.(sent := s.sent + [act]);
    forall q | Owing(s', q) ensures s'.w.tokens[q].act !in s'.sent {
      assert Owing(s, q);
    }
  }

  lemma RecordLeavesTokens(s: State, act: nat)
    requires Base(s) && TimersOwned(s)
    ensures Base(s.(sent := s.sent + [act])) && TimersOwned(s.(sent := s.sent + [act]))
  {
  }

  lemma RecordLeavesChains(s: State, act: nat)
    requires OneChain(s) && ArmedInOrder(s)
    ensures OneChain(s.(sent := s.sent + [act])) && ArmedInOrder(s.(sent := s.sent + [act]))
  {
    var s' := s.(sent := s.sent + [act]);
    assert forall q :: Owing(s', q) <==> Owing(s, q);
  }

  lemma DistinctGrows(s: seq<nat>, x: nat)
    requires Distinct(s) && x !in s
    ensures Distinct(s + [x])
  {
  }

  lemma SafeAfterSending(s: State, p: nat, s1: State)
    requires Safe(s) && Owing(s, p) && Sends(s.w.tokens[p].pc)
    requires var t := s.w.tokens[p];
             s1 == Put(s, p, t.(owes := false), AfterSend(t.pc)).(sent := s.sent + [t.act])
    ensures Safe(s1) && ChainFree(s1, s.w.tokens[p].id)
  {
    var t := s.w.tokens[p];
    var moved := Put(s, p, t.(owes := false), AfterSend(t.pc));
    SenderLetsGo(s, p, moved);
    SendRecorded(moved, t.act);
    assert forall q :: Owing(s1, q) <==> Owing(moved, q);
  }

  lemma SafeAfterSent(s: State, p: nat, f: Time -> Time)
    requires Safe(s) && Enabled(s, SendOut(p, f))
    ensures Safe(Sent(s, p, f))
    ensures Answer(s, s.w.tokens[p].id, f).Rearm? ==> Owing(Sent(s, p, f), s.w.nextId)
  {
    var t := s.w.tokens[p];
    var id := t.id;
    assert Owing(s, p);
    var s1 := Put(s, p, t.(owes := false), AfterSend(t.pc)).(sent := s.sent + [t.act]);
    SafeAfterSending(s, p, s1);
    var s' := Sent(s, p, f);
    hide Owing, TimersOwned, OneChain, SentOnce, PokesQuiet, ArmedInOrder, Shrinks, ChainFree, AfterSend, OnReschedule;
    if Answer(s, id, f).Rearm? {
      SentRearms(s, p, f, s1);
    } else {
      SentNotRearmed(s, p, f, s1);
      hide Sent, Put;
      ShrinksKeeps(s1, s');
    }
  }

  lemma SentNotRearmed(s: State, p: nat, f: Time -> Time, s1: State)
    requires Base(s) && p in s.w.tokens && !Answer(s, s.w.tokens[p].id, f).Rearm? && Base(s1) && TimersOwned(s1)
    requires var t := s.w.tokens[p];
             s1 == Put(s, p, t.(owes := false), AfterSend(t.pc)).(sent := s.sent + [t.act])
    ensures Shrinks(s1, Sent(s, p, f))
  {
    hide TimersOwned, Shrinks, AfterSend, OnReschedule, Answer;
    SentShrinks(s, s1, s.w.tokens[p].id, f, Sent(s, p, f));
  }

  lemma SentIsGrown(s: State, p: nat, f: Time -> Time, s1: State, next: Time)
    requires Base(s) && p in s.w.tokens && s.w.tokens[p].id in s.w.jobs
    requires Reschedule(s.w.jobs[s.w.tokens[p].id], f, s.w.now) == Rearm(next)
    requires var t := s.w.tokens[p];
             s1 == Put(s, p, t.(owes := false), AfterSend(t.pc)).(sent := s.sent + [t.act])
    requires StopTimer(s1.w.tokens, s.w.jobs[s.w.tokens[p].id].timer) == s1.w.tokens
    ensures Sent(s, p, f) == Grown(s1, s.w.tokens[p].id, Rearmed(s.w.jobs[s.w.tokens[p].id], next, s.w.nextId),
                                   Armed(next), next)
  {
    hide StopTimer, Rearmed;
  }

  lemma SentRearms(s: State, p: nat, f: Time -> Time, s1: State)
    requires Safe(s) && Owing(s, p) && Sends(s.w.tokens[p].pc) && Answer(s, s.w.tokens[p].id, f).Rearm?
    requires var t := s.w.tokens[p];
             s1 == Put(s, p, t.(owes := false), AfterSend(t.pc)).(sent := s.sent + [t.act])
    requires Safe(s1) && ChainFree(s1, s.w.tokens[p].id)
    ensures Safe(Sent(s, p, f)) && Owing(Sent(s, p, f), s.w.nextId)
  {
    var id := s.w.tokens[p].id;
    var next := Answer(s, id, f).next;
    RescheduleIsNew(s.w.jobs[id], f, s.w.now);
    SenderIsWholeChain(s, p);
    SenderStopsNothing(s, p, s1);
    Rearms(s, p, s1, next);
    SentIsGrown(s, p, f, s1, next);
    GrowthOwing(s1, id, Rearmed(s.w.jobs[id], next, s.w.nextId), Armed(next), next);
    hide Sent, Grown, Owing, OneChain, SentOnce, PokesQuiet, ArmedInOrder, TimersOwned;
  }

  lemma SentShrinks(s: State, s1: State, id: JobId, f: Time -> Time, s': State)
    requires Base(s) && Base(s1) && TimersOwned(s1) && s1.w.jobs == s.w.jobs && s1.w.now == s.w.now
    requires !Answer(s, id, f).Rearm?
    requires s' == s1.(w := OnReschedule(s1.w, id, f), exhausted := s'.exhausted)
    requires s'.exhausted == if Answer(s, id, f).Exhausted? then s1.exhausted + {id} else s1.exhausted
    ensures Shrinks(s1, s')
  {
    if Answer(s, id, f).Remove? {
      RemovedShrinks(s1, id, s');
    }
  }

  lemma Rearms(s: State, p: nat, s1: State, next: Time)
    requires Safe(s) && Owing(s, p) && Sends(s.w.tokens[p].pc) && s.w.tokens[p].id in s.w.jobs
    requires var t := s.w.tokens[p];
             s1 == Put(s, p, t.(owes := false), AfterSend(t.pc)).(sent := s.sent + [t.act])
    requires Safe(s1) && ChainFree(s1, s.w.tokens[p].id)
    requires var j := s.w.jobs[s.w.tokens[p].id];
             next !in j.nextScheduled && next >= s.w.now && !j.PastStop(next)
    ensures var id := s.w.tokens[p].id;
            Safe(Grown(s1, id, Rearmed(s.w.jobs[id], next, s.w.nextId), Armed(next), next))
  {
    hide TimersOwned, OneChain, SentOnce, PokesQuiet, ArmedInOrder;
    var id := s.w.tokens[p].id;
    NothingListedAhead(s, p);
    assert s1.w.jobs == s.w.jobs && s1.w.nextId == s.w.nextId;
    assert forall t :: t in s.w.jobs[id].nextScheduled ==> t < next;
    hide Base, Put, Grown, Fits, AfterSend, Rearmed, Owing, ChainFree, Safe;
    assert Base(s1) by { SafeIsBase(s1); }
    RearmedFits(s1, id, next);
    SafeAfterGrowth(s1, id, Rearmed(s.w.jobs[id], next, s.w.nextId), Armed(next), next);
  }

  lemma SafeIsBase(s: State)
    requires Safe(s)
    ensures Base(s)
  {
  }

  lemma SenderStopsNothing(s: State, p: nat, s1: State)
    requires p in s.w.tokens && s.w.tokens[p].id in s.w.jobs && !s.w.tokens[p].pc.Armed?
    requires var t := s.w.tokens[p];
             s1 == Put(s, p, t.(owes := false), AfterSend(t.pc)).(sent := s.sent + [t.act])
    requires StopTimer(s.w.tokens, s.w.jobs[s.w.tokens[p].id].timer) == s.w.tokens
    ensures StopTimer(s1.w.tokens, s.w.jobs[s.w.tokens[p].id].timer) == s1.w.tokens
  {
  }

  /** The instant last armed has come, and nothing beyond it is listed. */
  lemma NothingListedAhead(s: State, p: nat)
    requires Safe(s) && Owing(s, p) && !s.w.tokens[p].pc.Armed? && s.w.tokens[p].id in s.w.jobs
    ensures var id := s.w.tokens[p].id;
            && id in s.armed && s.armed[id] <= s.w.now
            && forall t :: t in s.w.jobs[id].nextScheduled ==> t <= s.w.now
  {
    hide Base, TimersOwned, OneChain, SentOnce, PokesQuiet;
  }

  lemma RearmedFits(s: State, id: JobId, next: Time)
    requires Base(s) && ChainFree(s, id) && id in s.w.jobs && !s.w.jobs[id].PastStop(next)
    requires forall t :: t in s.w.jobs[id].nextScheduled ==> t < next
    ensures Fits(s, id, Rearmed(s.w.jobs[id], next, s.w.nextId), Armed(next), next)
  {
    var j := s.w.jobs[id];
    InsertedAscending(j.nextScheduled, next);
    InsertedElements(j.nextScheduled, LowerBound(j.nextScheduled, next), next);
  }

  lemma SafeAfterMove(s: State, e: Event)
    requires Safe(s) && Enabled(s, e) && Moves(e)
    ensures Safe(Apply(s, e))
  {
    MovesAreTokenSteps(s, e);
    MoverIs(s, e);
    hide *;
    SafeAfterTokenStep(s, e.p, Apply(s, e));
  }

  lemma ClockAndContextShrink(s: State, e: Event)
    requires Safe(s) && Enabled(s, e) && (e.Tick? || e.Cancel? || e.LoseTiming?)
    ensures Shrinks(s, Apply(s, e))
  {
  }

  lemma SafeAfterShrinking(s: State, s': State)
    requires Safe(s) && Shrinks(s, s')
    ensures Safe(s')
  {
    hide Shrinks, Base, TimersOwned, OneChain, SentOnce, PokesQuiet, ArmedInOrder;
    ShrinksKeeps(s, s');
  }

  lemma EventShrinks(s: State, e: Event)
    requires Safe(s) && Enabled(s, e)
    requires (e.Tick? || e.Cancel? || e.Remove? || e.HandleTiming? || e.LoseTiming? || e.Reap?)
    ensures Shrinks(s, Apply(s, e))
  {
    hide Shrinks, Removed, TimingHandled, OneChain, SentOnce, PokesQuiet, ArmedInOrder, TimersOwned;
    if e.Remove? || e.Reap? {
      RemovedShrinks(s, e.id, Apply(s, e));
    } else if e.HandleTiming? {
      TimingShrinks(s, e.m);
    } else {
      ClockAndContextShrink(s, e);
    }
  }

  lemma SafeKept(s: State, e: Event)
    requires Safe(s) && Enabled(s, e)
    ensures Safe(Apply(s, e))
  {
    if e.Tick? || e.Cancel? || e.Remove? || e.HandleTiming? || e.LoseTiming? || e.Reap? {
      EventShrinks(s, e);
      SafeAfterShrinking(s, Apply(s, e));
    } else {
      SafeKeptOtherwise(s, e);
    }
  }

  lemma SafeKeptOtherwise(s: State, e: Event)
    requires Safe(s) && Enabled(s, e)
    requires !(e.Tick? || e.Cancel? || e.Remove? || e.HandleTiming? || e.LoseTiming? || e.Reap?)
    ensures Safe(Apply(s, e))
  {
    assert s.w.Valid() && forall p :: p in s.w.tokens ==> s.w.tokens[p].id in s.configs;
    hide Safe, Registered, Reported, Sent, Moved, OnRunNow, Enabled;
    if e.Register? {
      SafeAfterRegister(s, e.id, e.job, e.f);
    } else if e.RunNow? {
      assert e.id in s.w.jobs by { LiveToRun(s, e.id); }
      SafeAfterRunNow(s, e.id);
    } else if e.SendOut? {
      SafeAfterSent(s, e.p, e.f);
    } else if e.Report? {
      SafeAfterReport(s, e.p, e.delivered);
    } else {
      SafeAfterMove(s, e);
    }
  }

  lemma LiveToRun(s: State, id: JobId)
    requires Enabled(s, RunNow(id))
    ensures id in s.w.jobs
  {
  }

  // ---- The chain does not break ----

  /** A run past its reschedule no longer owes one; only completion-based jobs owe it while running. */
  predicate SettledToken(t: Token, fromCompletion: bool) {
    t.pc.Run? && t.owes ==>
      && t.pc.stage !in {ReportLock, ReportSkip, ReportFirst}
      && (t.pc.stage in {Announcing, Working, Finishing} ==> fromCompletion)
  }

  ghost predicate Settled(s: State) {
    !s.cancelled ==>
      forall p :: p in s.w.tokens && s.w.tokens[p].id in s.configs ==>
                    SettledToken(s.w.tokens[p], s.configs[s.w.tokens[p].id].intervalFromCompletion)
  }

  lemma SettledMove(s: State, t: Token, e: Event)
    requires Moves(e) && t.id in s.configs && (e.HoldBack? && t.owes ==> s.cancelled || t.pc.Clashed?)
    requires e.Announce? ==> t.pc == Run(Announcing)
    requires e.Return? ==> t.pc == Run(Working)
    requires e.Finish? ==> t.pc == Run(Finishing)
    requires !s.cancelled ==> SettledToken(t, s.configs[t.id].intervalFromCompletion)
    ensures !s.cancelled && Heir(s, t, e).Some? ==>
              SettledToken(Heir(s, t, e).value, s.configs[t.id].intervalFromCompletion)
  {
  }

  lemma SettledAfterMove(s: State, e: Event)
    requires Base(s) && Settled(s) && Enabled(s, e) && Moves(e)
    ensures Settled(Moved(s, e.p, e))
  {
    MoverIs(s, e);
    hide Base, Enabled, Moved, Heir;
    MovedTokens(s, e.p, e);
    HeirIsSame(s, s.w.tokens[e.p], e);
    SettledMove(s, s.w.tokens[e.p], e);
    QueuedIsSettled(s.w.tokens[e.p]);
    hide SettledToken;
  }

  lemma QueuedIsSettled(t: Token)
    ensures forall late :: SettledToken(t.(pc := SingleQueued), late)
  {
  }

  lemma MovedTokens(s: State, p: nat, e: Event)
    requires Moves(e) && p in s.w.tokens && s.w.tokens[p].id in s.configs
    ensures var s', t := Moved(s, p, e), s.w.tokens[p];
            && s'.configs == s.configs && s'.cancelled == s.cancelled && s'.w.jobs == s.w.jobs && s'.w.now == s.w.now
            && (forall q :: q in s'.w.tokens ==>
                              || (q in s.w.tokens && s'.w.tokens[q] == s.w.tokens[q])
                              || (q == p && Heir(s, t, e) == Some(s'.w.tokens[q]))
                              || (q == s.w.nextId && s'.w.tokens[q] == t.(pc := SingleQueued)))
            && (forall q :: q in s.w.tokens && q != p && q != s.w.nextId ==>
                              q in s'.w.tokens && s'.w.tokens[q] == s.w.tokens[q])
            && (p != s.w.nextId && Heir(s, t, e).Some? ==> p in s'.w.tokens && s'.w.tokens[p] == Heir(s, t, e).value)
  {
    hide NextPc, NextOwes;
  }

  /** A move changes neither whose token it is nor the activation it stems from. */
  lemma HeirIsSame(s: State, t: Token, e: Event)
    requires Moves(e) && t.id in s.configs
    ensures Heir(s, t, e).Some? ==> Heir(s, t, e).value.id == t.id && Heir(s, t, e).value.act == t.act
  {
    hide NextPc, NextOwes;
  }

  lemma SettledKept(s: State, e: Event)
    requires Safe(s) && Settled(s) && Enabled(s, e)
    ensures Settled(Apply(s, e))
  {
    if Moves(e) {
      SettledAfterMove(s, e);
    } else if e.SendOut? {
      SettledAfterSent(s, e.p, e.f);
    } else {
      SettledElsewhere(s, e);
    }
  }

  lemma SettledAfterSent(s: State, p: nat, f: Time -> Time)
    requires Base(s) && Settled(s) && p in s.w.tokens && Sends(s.w.tokens[p].pc)
    ensures Settled(Sent(s, p, f))
  {
    hide Reschedule;
    var s' := Sent(s, p, f);
    var t := s.w.tokens[p];
    hide SettledToken, Inserted, LowerBound;
    assert forall q :: q in s'.w.tokens ==>
                         || (q in s.w.tokens && s'.w.tokens[q] == s.w.tokens[q])
                         || (q == p && !s'.w.tokens[q].owes)
                         || s'.w.tokens[q].pc.Armed?;
    forall q: Token, late | !q.owes || q.pc.Armed? ensures SettledToken(q, late) {
      QuietIsSettled(q, late);
    }
    hide Sent, Base, AfterSend;
  }

  lemma QuietIsSettled(t: Token, late: bool)
    requires !t.owes || t.pc.Armed?
    ensures SettledToken(t, late)
  {
  }

  lemma SettledAfterReport(s: State, p: nat, delivered: bool)
    requires Base(s) && Settled(s) && p in s.w.tokens && Reports(s.w.tokens[p].pc)
    ensures Settled(Reported(s, p, delivered))
  {
    var s', t := Reported(s, p, delivered), s.w.tokens[p];
    assert t.id in s.configs;
    ReportedFrame(s, p, delivered);
    hide Reported, Base, SettledToken, AfterReport;
    SettledReport(t, s.configs[t.id].intervalFromCompletion);
  }

  lemma SettledReport(t: Token, late: bool)
    requires Reports(t.pc)
    ensures SettledToken(t, late) && AfterReport(t.pc).Some? ==> SettledToken(t.(pc := AfterReport(t.pc).value), late)
  {
  }

  lemma SettledAfterRegister(s: State, id: JobId, j: Job, f: Time -> Time)
    requires Base(s) && Settled(s) && id !in s.configs
    ensures Settled(Registered(s, id, j, f))
  {
    hide PrepareFirstRun, Begun;
    var s' := Registered(s, id, j, f);
    assert forall q :: q in s'.w.tokens && s'.w.tokens[q].pc.Run? ==>
                         q in s.w.tokens && s'.w.tokens[q] == s.w.tokens[q];
  }

  lemma SettledElsewhere(s: State, e: Event)
    requires Safe(s) && Settled(s) && Enabled(s, e) && !Moves(e) && !e.SendOut?
    ensures Settled(Apply(s, e))
  {
    assert s.w.Valid() && forall p :: p in s.w.tokens ==> s.w.tokens[p].id in s.configs;
    hide Settled, Reported, Registered, Base, Shrinks, TimersOwned, OneChain, SentOnce, PokesQuiet, ArmedInOrder;
    if e.Report? {
      ReportApplies(s, e);
      hide Apply, Enabled;
      SettledAfterReport(s, e.p, e.delivered);
    } else if e.Register? {
      RegisterApplies(s, e);
      hide Apply, Enabled;
      SettledAfterRegister(s, e.id, e.job, e.f);
    } else if e.RunNow? {
      LiveToRun(s, e.id);
      RunNowPokes(s, e.id);
      hide Apply, Enabled;
      SettledAfterRunNow(s, e.id);
    } else {
      EventShrinks(s, e);
      SettledAfterShrinking(s, Apply(s, e));
    }
  }

  lemma SettledAfterRunNow(s: State, id: JobId)
    requires Settled(s)
    ensures Settled(Poked(s, id))
  {
  }

  lemma SettledAfterShrinking(s: State, s': State)
    requires Settled(s) && Shrinks(s, s')
    ensures Settled(s')
  {
  }

  /** A move never loses an owing token of a job that is registered, unless its time is up. */
  lemma MoveContinues(s: State, t: Token, e: Event)
    requires Moves(e) && t.id in s.configs && t.owes && !s.cancelled && t.id in s.w.jobs
    requires !s.w.jobs[t.id].StopTimeReached(s.w.now)
    requires !(t.pc.SingleQueued? && !s.configs[t.id].intervalFromCompletion)
    requires SettledToken(t, s.configs[t.id].intervalFromCompletion) && !e.HoldBack? && !e.Quit?
    requires e.Finish? ==> t.pc == Run(Finishing)
    ensures Heir(s, t, e).Some? && Heir(s, t, e).value.owes
    ensures Heir(s, t, e).value.pc == SingleQueued ==> s.configs[t.id].intervalFromCompletion
  {
  }

  lemma MoveKeepsOwing(s: State, e: Event)
    requires Base(s) && Settled(s) && Enabled(s, e) && Moves(e) && Owing(s, e.p) && !s.cancelled
    requires s.w.tokens[e.p].id in s.w.jobs && !s.w.jobs[s.w.tokens[e.p].id].StopTimeReached(s.w.now)
    ensures Owing(Moved(s, e.p, e), e.p) && Moved(s, e.p, e).w.tokens[e.p].id == s.w.tokens[e.p].id
  {
    MoverIs(s, e);
    hide Base, Enabled, Moved, Heir, SettledToken;
    MoveContinues(s, s.w.tokens[e.p], e);
    MovedTokens(s, e.p, e);
    HeirIsSame(s, s.w.tokens[e.p], e);
  }

  lemma UnbrokenAfterMove(s: State, e: Event)
    requires Base(s) && Settled(s) && Unbroken(s) && Enabled(s, e) && Moves(e)
    ensures Unbroken(Moved(s, e.p, e))
  {
    var s' := Moved(s, e.p, e);
    MoverIs(s, e);
    hide Base, Enabled, Moved, Settled, Owing;
    MovedSame(s, e.p, e);
    forall id | id in s'.w.jobs && !s'.cancelled && id !in s'.exhausted && !s'.w.jobs[id].StopTimeReached(s'.w.now)
      ensures exists p :: Owing(s', p) && s'.w.tokens[p].id == id
    {
      var p :| Owing(s, p) && s.w.tokens[p].id == id;
      if p == e.p {
        MoveKeepsOwing(s, e);
      } else {
        OtherKeepsOwing(s, e, p);
      }
    }
  }

  lemma OtherKeepsOwing(s: State, e: Event, p: nat)
    requires Base(s) && Enabled(s, e) && Moves(e) && Owing(s, p) && p != e.p
    ensures Owing(Moved(s, e.p, e), p) && Moved(s, e.p, e).w.tokens[p].id == s.w.tokens[p].id
  {
    MoverIs(s, e);
    hide Base, Enabled, Moved, Heir;
    MovedTokens(s, e.p, e);
  }

  lemma MovedSame(s: State, p: nat, e: Event)
    requires Moves(e) && p in s.w.tokens && s.w.tokens[p].id in s.configs
    ensures var s' := Moved(s, p, e);
            && s'.exhausted == s.exhausted && s'.armed == s.armed && s'.cancelled == s.cancelled
            && s'.configs == s.configs && s'.w.jobs == s.w.jobs && s'.w.now == s.w.now && s'.w.nextId >= s.w.nextId
  {
    hide NextPc, NextOwes, Forks;
  }

  lemma UnbrokenAfterSent(s: State, p: nat, f: Time -> Time)
    requires Safe(s) && Unbroken(s) && Enabled(s, SendOut(p, f))
    ensures Unbroken(Sent(s, p, f))
  {
    SafeAfterSent(s, p, f);
    var s' := Sent(s, p, f);
    var id := s.w.tokens[p].id;
    OthersAfterSent(s, p, f);
    forall x | x in s'.w.jobs && !s'.cancelled && x !in s'.exhausted && !s'.w.jobs[x].StopTimeReached(s'.w.now)
      ensures exists q :: Owing(s', q) && s'.w.tokens[q].id == x
    {
      if x == id {
        assert Answer(s, id, f).Rearm?;
        assert Owing(s', s.w.nextId) && s'.w.tokens[s.w.nextId].id == id;
      } else {
        var q :| Owing(s, q) && s.w.tokens[q].id == x;
        assert Owing(s', q) && s'.w.tokens[q].id == x;
      }
    }
  }

  lemma OthersAfterSent(s: State, p: nat, f: Time -> Time)
    requires Safe(s) && Enabled(s, SendOut(p, f))
    ensures var s', id := Sent(s, p, f), s.w.tokens[p].id;
            && s'.configs == s.configs && s'.cancelled == s.cancelled && s'.w.now == s.w.now
            && (forall x :: x in s'.w.jobs && x != id ==> x in s.w.jobs && s'.w.jobs[x] == s.w.jobs[x])
            && (forall q :: q in s.w.tokens && s.w.tokens[q].id != id ==>
                              q in s'.w.tokens && s'.w.tokens[q] == s.w.tokens[q])
            && (id in s'.w.jobs ==> id in s.w.jobs && s'.w.jobs[id].config == s.w.jobs[id].config)
            && (id in s'.w.jobs ==> !Answer(s, id, f).Remove?)
            && (Answer(s, id, f).Exhausted? ==> id in s'.exhausted)
            && s.exhausted <= s'.exhausted && s'.exhausted <= s.exhausted + {id}
            && (Answer(s, id, f).Rearm? ==> s.w.nextId in s'.w.tokens && s'.w.tokens[s.w.nextId].id == id)
  {
    hide Reschedule, OneChain, SentOnce, PokesQuiet, ArmedInOrder;
    SentOwnJob(s, p, f);
    SentOtherTokens(s, p, f);
    hide Sent, Answer, Base, TimersOwned;
  }

  lemma SentOwnJob(s: State, p: nat, f: Time -> Time)
    requires s.w.Valid() && p in s.w.tokens
    ensures var s', id := Sent(s, p, f), s.w.tokens[p].id;
            && s'.configs == s.configs && s'.cancelled == s.cancelled && s'.w.now == s.w.now
            && (forall x :: x in s'.w.jobs && x != id ==> x in s.w.jobs && s'.w.jobs[x] == s.w.jobs[x])
            && (id in s'.w.jobs ==> id in s.w.jobs && s'.w.jobs[id].config == s.w.jobs[id].config)
            && (id in s'.w.jobs ==> !Answer(s, id, f).Remove?)
            && s'.exhausted == if Answer(s, id, f).Exhausted? then s.exhausted + {id} else s.exhausted
  {
    hide Reschedule, AfterSend, StopTimer, Inserted, LowerBound;
  }

  /** Only the job's own timer could have been stopped. */
  lemma SentOtherTokens(s: State, p: nat, f: Time -> Time)
    requires Base(s) && TimersOwned(s) && p in s.w.tokens
    ensures var s', id := Sent(s, p, f), s.w.tokens[p].id;
            && (forall q :: q in s.w.tokens && s.w.tokens[q].id != id ==>
                              q in s'.w.tokens && s'.w.tokens[q] == s.w.tokens[q])
            && (Answer(s, id, f).Rearm? ==> s.w.nextId in s'.w.tokens && s'.w.tokens[s.w.nextId].id == id)
  {
    hide Reschedule, AfterSend, Rearmed;
  }

  lemma ReportedFrame(s: State, p: nat, delivered: bool)
    requires p in s.w.tokens && Reports(s.w.tokens[p].pc)
    ensures var s', t := Reported(s, p, delivered), s.w.tokens[p];
            && s' == s.(w := s.w.(jobs := s'.w.jobs, tokens := Put(s, p, t, AfterReport(t.pc)).w.tokens),
                     counted := s'.counted)
            && s'.w.jobs.Keys == s.w.jobs.Keys
            && forall id :: id in s.w.jobs ==>
                              s'.w.jobs[id].config == s.w.jobs[id].config && s'.w.jobs[id].timer == s.w.jobs[id].timer
  {
    var t := s.w.tokens[p];
    var moved := Put(s, p, t, AfterReport(t.pc));
    assert moved == s.(w := s.w.(tokens := moved.w.tokens));
    hide OnPrune, OnCompleted, AfterReport, Put;
    if delivered && t.pc == Run(ReportLock) {
      PruneFrame(moved.w, t.id);
    } else if delivered {
      CompletedFrame(moved.w, t.id, t.pc == Run(ReportSkip));
    }
  }

  lemma UnbrokenAfterReport(s: State, p: nat, delivered: bool)
    requires Base(s) && Settled(s) && Unbroken(s) && p in s.w.tokens && Reports(s.w.tokens[p].pc)
    ensures Unbroken(Reported(s, p, delivered))
  {
    var s' := Reported(s, p, delivered);
    var t := s.w.tokens[p];
    ReportedFrame(s, p, delivered);
    hide Reported;
    forall id | id in s'.w.jobs && !s'.cancelled && id !in s'.exhausted && !s'.w.jobs[id].StopTimeReached(s'.w.now)
      ensures exists q :: Owing(s', q) && s'.w.tokens[q].id == id
    {
      assert id in s.w.jobs && !s.w.jobs[id].StopTimeReached(s.w.now);
      var q :| Owing(s, q) && s.w.tokens[q].id == id;
      assert q == p ==> t.pc == Run(ReportLast);
      assert Owing(s', q) && s'.w.tokens[q].id == id;
    }
  }

  lemma UnbrokenAfterRegister(s: State, id: JobId, j: Job, f: Time -> Time)
    requires Safe(s) && Unbroken(s) && Enabled(s, Register(id, j, f))
    ensures Unbroken(Registered(s, id, j, f))
  {
    var s' := Registered(s, id, j, f);
    RegisteredOwing(s, id, j, f);
    hide Registered, Safe, PrepareFirstRun, Owing;
    forall x | x in s'.w.jobs && !s'.cancelled && x !in s'.exhausted && !s'.w.jobs[x].StopTimeReached(s'.w.now)
      ensures exists q :: Owing(s', q) && s'.w.tokens[q].id == x
    {
      if x == id {
        assert Owing(s', s.w.nextId) && s'.w.tokens[s.w.nextId].id == id;
      } else {
        var q :| Owing(s, q) && s.w.tokens[q].id == x;
        assert Owing(s', q) && s'.w.tokens[q].id == x;
      }
    }
  }

  /** A registration leaves every chain alone, and gives a kept job one. */
  lemma RegisteredOwing(s: State, id: JobId, j: Job, f: Time -> Time)
    requires Base(s) && Enabled(s, Register(id, j, f))
    ensures var s' := Registered(s, id, j, f);
            && s'.cancelled == s.cancelled && s'.exhausted == s.exhausted && s'.w.now == s.w.now
            && (forall q :: Owing(s, q) ==> Owing(s', q) && s'.w.tokens[q].id == s.w.tokens[q].id)
            && (forall x :: x in s'.w.jobs && x != id ==> x in s.w.jobs && s'.w.jobs[x] == s.w.jobs[x])
            && (id in s'.w.jobs ==> Owing(s', s.w.nextId) && s'.w.tokens[s.w.nextId].id == id)
  {
    hide PrepareFirstRun, Begun;
    assert s.w.nextId !in s.w.tokens;
  }

  lemma UnbrokenKept(s: State, e: Event)
    requires Safe(s) && Settled(s) && Unbroken(s) && Enabled(s, e)
    ensures Unbroken(Apply(s, e))
  {
    hide Unbroken, Settled, Shrinks, Moved, TimersOwned, OneChain, SentOnce, PokesQuiet, ArmedInOrder;
    if Moves(e) {
      MoveApplies(s, e);
      UnbrokenAfterMove(s, e);
    } else if e.Tick? || e.Cancel? || e.Remove? || e.HandleTiming? || e.LoseTiming? || e.Reap? {
      EventShrinks(s, e);
      ShrinksKeepsUnbroken(s, Apply(s, e));
    } else {
      UnbrokenOtherwise(s, e);
    }
  }

  lemma UnbrokenOtherwise(s: State, e: Event)
    requires Safe(s) && Settled(s) && Unbroken(s) && Enabled(s, e)
    requires e.Register? || e.RunNow? || e.SendOut? || e.Report?
    ensures Unbroken(Apply(s, e))
  {
    hide Registered, Sent, Reported, Unbroken;
    if e.Register? {
      UnbrokenAfterRegister(s, e.id, e.job, e.f);
    } else if e.SendOut? {
      UnbrokenAfterSent(s, e.p, e.f);
    } else if e.Report? {
      UnbrokenAfterReport(s, e.p, e.delivered);
    } else {
      UnbrokenAfterRunNow(s, e.id);
    }
  }

  lemma UnbrokenAfterRunNow(s: State, id: JobId)
    requires Base(s) && Unbroken(s) && Enabled(s, RunNow(id))
    ensures Unbroken(Apply(s, RunNow(id)))
  {
    var s' := Apply(s, RunNow(id));
    forall x | x in s'.w.jobs && !s'.cancelled && x !in s'.exhausted && !s'.w.jobs[x].StopTimeReached(s'.w.now)
      ensures exists q :: Owing(s', q) && s'.w.tokens[q].id == x
    {
      var q :| Owing(s, q) && s.w.tokens[q].id == x;
      assert Owing(s', q) && s'.w.tokens[q] == s.w.tokens[q];
    }
  }

  // ---- Whole executions ----

  ghost predicate Inv(s: State) {
    Safe(s) && Settled(s) && Unbroken(s)
  }

  ghost predicate Initial(s: State) {
    && s.w.now > ZERO && s.w.jobs == map[] && s.w.tokens == map[] && !s.cancelled
    && s.timings == multiset{} && s.reaping == multiset{} && s.configs == map[] && s.armed == map[]
    && s.exhausted == {} && s.sent == [] && s.pokes == {} && s.poked == {} && s.ended == map[]
    && s.counted == [] && s.initial == map[] && s.finished == {}
  }

  /** `Apply` is defined on states satisfying Base, which is all that can occur. */
  ghost predicate Next(s: State, e: Event, s': State) {
    Enabled(s, e) && (Base(s) ==> s' == Apply(s, e))
  }

  ghost predicate Execution(states: seq<State>, events: seq<Event>) {
    && |states| == |events| + 1 && Initial(states[0])
    && forall i :: 0 <= i < |events| ==> Next(states[i], events[i], states[i + 1])
  }

  lemma InvInitially(s: State)
    requires Initial(s)
    ensures Inv(s)
  {
  }

  lemma {:induction false} InvAlways(states: seq<State>, events: seq<Event>)
    requires Execution(states, events)
    ensures forall i :: 0 <= i < |states| ==> Inv(states[i])
  {
    hide Inv, Initial, Next;
    if events == [] {
      InvInitially(states[0]);
    } else {
      var n := |events| - 1;
      assert forall i :: 0 <= i < n ==>
                           Next(states[i], events[i], states[i + 1])
                           && Next(states[..n + 1][i], events[..n][i], states[..n + 1][i + 1]);
      InvAlways(states[..n + 1], events[..n]);
      assert Inv(states[..n + 1][n]);
      InvNext(states[n], events[n], states[n + 1]);
      assert forall i :: 0 <= i <= n ==> states[..n + 1][i] == states[i];
    }
  }

  lemma InvNext(s: State, e: Event, s': State)
    requires Inv(s) && Next(s, e, s')
    ensures Inv(s')
  {
    InvKept(s, e);
  }

  lemma InvKept(s: State, e: Event)
    requires Inv(s) && Enabled(s, e)
    ensures Inv(Apply(s, e))
  {
    SafeKept(s, e);
    SettledKept(s, e);
    UnbrokenKept(s, e);
    hide Safe, Settled, Unbroken;
  }

  // ---- What the invariants say ----

  /**
    In every mode and interleaving each activation sends at most one reschedule message, and one
    made by RunNow sends none.
  */
  lemma OneMessagePerActivation(states: seq<State>, events: seq<Event>, i: nat)
    requires Execution(states, events) && i < |states|
    ensures Distinct(states[i].sent)
    ensures forall a :: a in states[i].pokes ==> a !in states[i].sent
  {
    InvAlways(states, events);
    hide Execution;
    assert Inv(states[i]);
  }

  /**
    Every registered job that is neither cancelled, exhausted nor past its stop time has exactly one
    timer or goroutine that will still reschedule it.
  */
  lemma ExactlyOneChain(states: seq<State>, events: seq<Event>, i: nat, id: JobId)
    requires Execution(states, events) && i < |states|
    requires var s := states[i];
             id in s.w.jobs && !s.cancelled && id !in s.exhausted && !s.w.jobs[id].StopTimeReached(s.w.now)
    ensures var s := states[i];
            exists p :: Owing(s, p) && s.w.tokens[p].id == id
                        && forall q :: Owing(s, q) && s.w.tokens[q].id == id ==> q == p
  {
    InvAlways(states, events);
    hide Execution;
    var s := states[i];
    assert Inv(s);
    var p :| Owing(s, p) && s.w.tokens[p].id == id;
    assert forall q :: Owing(s, q) && s.w.tokens[q].id == id ==> q == p;
  }

  /** What handling a reschedule message from `p` does, while the sender still is the job's chain. */
  ghost predicate GoesForward(s: State, p: nat, f: Time -> Time, s': State)
    requires Base(s) && p in s.w.tokens && s.w.tokens[p].id in s.w.jobs
  {
    var id := s.w.tokens[p].id;
    var j := s.w.jobs[id];
    var r := Reschedule(j, f, s.w.now);
    && StopTimer(s.w.tokens, j.timer) == s.w.tokens
    && (r.Rearm? ==>
          && s.w.now <= r.next && BeforeStop(j.config, r.next)
          && id in s.armed && s.armed[id] <= r.next && s'.armed == s.armed[id := r.next]
          && (forall t :: t in j.nextScheduled ==> t < r.next)
          && id in s'.w.jobs && s'.w.jobs[id].nextScheduled == j.nextScheduled + [r.next])
    && (!r.Rearm? ==> s'.armed == s.armed)
  }

  lemma SendGoesForward(s: State, p: nat, f: Time -> Time)
    requires Safe(s) && Enabled(s, SendOut(p, f)) && s.w.tokens[p].id in s.w.jobs
    ensures GoesForward(s, p, f, Sent(s, p, f))
  {
    var id := s.w.tokens[p].id;
    var j := s.w.jobs[id];
    assert Owing(s, p);
    hide SentOnce, PokesQuiet, ArmedInOrder, OneChain, TimersOwned, Enabled;
    NothingListedAhead(s, p);
    SenderIsWholeChain(s, p);
    SentFrame(s, p, f);
    assert Sorted(j.nextScheduled) && s.w.jobs[id].config == s.configs[id];
    hide Base, Sent, Reschedule, Rearmed, Owing, StopTimer, BeforeStop;
    RearmedJob(j, f, s.w.now, s.w.nextId);
  }

  /** A rescheduled instant goes to the end of what is listed. */
  lemma RearmedJob(j: Job, f: Time -> Time, now: Time, tid: nat)
    requires Sorted(j.nextScheduled) && forall t :: t in j.nextScheduled ==> t <= now
    ensures var r := Reschedule(j, f, now);
            r.Rearm? ==>
              && now <= r.next && BeforeStop(j.config, r.next) && (forall t :: t in j.nextScheduled ==> t < r.next)
              && Rearmed(j, r.next, tid).nextScheduled == j.nextScheduled + [r.next]
  {
    RescheduleIsNew(j, f, now);
    var r := Reschedule(j, f, now);
    if r.Rearm? {
      NewestListed(j, r.next, now, tid);
    }
    hide Reschedule, Rearmed;
  }

  /** What a handled reschedule message does to the sender's job. */
  lemma SentFrame(s: State, p: nat, f: Time -> Time)
    requires s.w.Valid() && p in s.w.tokens && s.w.tokens[p].id in s.w.jobs
    ensures var s', id := Sent(s, p, f), s.w.tokens[p].id;
            var r := Reschedule(s.w.jobs[id], f, s.w.now);
            && s'.armed == (if r.Rearm? then s.armed[id := r.next] else s.armed)
            && (r.Rearm? ==> id in s'.w.jobs && s'.w.jobs[id] == Rearmed(s.w.jobs[id], r.next, s.w.nextId))
  {
    hide Reschedule, Rearmed, StopTimer, AfterSend;
  }

  lemma NewestListed(j: Job, next: Time, now: Time, tid: nat)
    requires next !in j.nextScheduled && next >= now && forall t :: t in j.nextScheduled ==> t <= now
    ensures forall t :: t in j.nextScheduled ==> t < next
    ensures Rearmed(j, next, tid).nextScheduled == j.nextScheduled + [next]
  {
    assert forall i :: 0 <= i < |j.nextScheduled| ==> j.nextScheduled[i] in j.nextScheduled;
    InsertedLast(j.nextScheduled, next);
  }

  /**
    When a reschedule message is handled the job's old timer has already fired, so stopping it does
    nothing; and a re-armed instant is not past, is before the stop time, exceeds every listed entry
    and is no earlier than the instant armed before.
  */
  lemma RescheduleGoesForward(states: seq<State>, events: seq<Event>, i: nat, p: nat, f: Time -> Time)
    requires Execution(states, events) && i < |events| && events[i] == SendOut(p, f)
    requires p in states[i].w.tokens && states[i].w.tokens[p].id in states[i].w.jobs
    ensures Base(states[i]) && GoesForward(states[i], p, f, states[i + 1])
  {
    assert i < |states|;
    hide *;
    InvAlways(states, events);
    StepOf(states, events, i);
    SendApplies(states[i], events[i]);
    SendGoesForward(states[i], p, f);
  }

  /** One step of an execution, from a state that satisfies the invariants. */
  lemma StepOf(states: seq<State>, events: seq<Event>, i: nat)
    requires Execution(states, events) && i < |events| && Inv(states[i])
    ensures Safe(states[i]) && Base(states[i]) && Enabled(states[i], events[i])
    ensures states[i + 1] == Apply(states[i], events[i])
  {
    assert Next(states[i], events[i], states[i + 1]);
    hide Enabled, Apply, Base, TimersOwned, OneChain, SentOnce, PokesQuiet, ArmedInOrder, Settled, Unbroken;
  }

  lemma ArmedKept(s: State, e: Event)
    requires Safe(s) && Enabled(s, e)
    ensures s.armed.Keys <= Apply(s, e).armed.Keys
    ensures forall id :: id in s.armed ==> s.armed[id] <= Apply(s, e).armed[id]
  {
    hide Apply, Sent, Reschedule, TimersOwned, OneChain, SentOnce, PokesQuiet, ArmedInOrder;
    if e.SendOut? && s.w.tokens[e.p].id in s.w.jobs {
      SendApplies(s, e);
      SendGoesForward(s, e.p, e.f);
    } else {
      ArmedElsewhere(s, e);
    }
  }

  lemma ArmedElsewhere(s: State, e: Event)
    requires Safe(s) && Enabled(s, e) && (e.SendOut? ==> s.w.tokens[e.p].id !in s.w.jobs)
    ensures s.armed.Keys <= Apply(s, e).armed.Keys
    ensures forall id :: id in s.armed ==> s.armed[id] == Apply(s, e).armed[id]
  {
    hide TimersOwned, OneChain, SentOnce, PokesQuiet, ArmedInOrder, Moved, Reported, Registered, Sent;
    if Moves(e) {
      MovedSame(s, e.p, e);
      hide Base;
    } else if e.Tick? || e.Cancel? || e.Remove? || e.HandleTiming? || e.LoseTiming? || e.Reap? {
      EventShrinks(s, e);
      ShrinksFrame(s, Apply(s, e));
      hide Apply, Shrinks, Base;
    } else if e.Report? {
      ReportedFrame(s, e.p, e.delivered);
      hide Base;
    } else if e.RunNow? {
      RunNowPokes(s, e.id);
      hide Base;
    } else if e.SendOut? {
      SentArmed(s, e.p, e.f);
    } else {
      RegisteredArmed(s, e.id, e.job, e.f);
    }
  }

  lemma SentArmed(s: State, p: nat, f: Time -> Time)
    requires s.w.Valid() && p in s.w.tokens && s.w.tokens[p].id !in s.w.jobs
    ensures Sent(s, p, f).armed == s.armed
  {
  }

  lemma RegisteredArmed(s: State, id: JobId, j: Job, f: Time -> Time)
    requires id !in s.armed
    ensures s.armed.Keys <= Registered(s, id, j, f).armed.Keys
    ensures forall x :: x in s.armed ==> s.armed[x] == Registered(s, id, j, f).armed[x]
  {
    hide OnBegin, PrepareFirstRun;
  }

  lemma ShrinksFrame(s: State, s': State)
    requires Shrinks(s, s')
    ensures s'.armed == s.armed && s'.configs == s.configs && s'.initial == s.initial && s'.w.nextId == s.w.nextId
    ensures s'.limitMode == s.limitMode && s'.poked == s.poked && s'.ended == s.ended && s'.w.now >= s.w.now
    ensures s.cancelled ==> s'.cancelled
  {
  }

  /** Over an epoch the instants armed or dispatched for a job never go back. */
  lemma ArmedNeverDecreases(states: seq<State>, events: seq<Event>, i: nat, id: JobId)
    requires Execution(states, events) && i < |events| && id in states[i].armed
    ensures id in states[i + 1].armed && states[i].armed[id] <= states[i + 1].armed[id]
  {
    InvAlways(states, events);
    assert Inv(states[i]) && Next(states[i], events[i], states[i + 1]);
    hide Execution;
    ArmedKept(states[i], events[i]);
  }
}