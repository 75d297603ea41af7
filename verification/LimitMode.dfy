/**
  The limiters: a pool of runners fed by one queue, as limit mode has for the whole scheduler and
  singleton mode has for each job (a pool of one).  One step is one program point of a dispatch
  goroutine or of a runner; steps of different goroutines interleave freely.
*/
module LimitModes {
  import opened Times
  import opened Jobs
  import Worlds

  type JobId = Worlds.JobId

  const QUEUE_BUFFER := 1000

  datatype Runner =
    | Idle                               // at the select
    | Holding(id: JobId)                 // received, contexts checked or about to be
    | Claiming(id: JobId)                // about to lock the set of running singletons
    | Clashed(id: JobId)                 // it runs elsewhere: reschedule
    | Running(id: JobId, claimed: bool)  // inside runJob
    | Unclaiming(id: JobId)              // about to give up the claim
    | Releasing                          // about to give back the slot
    | Exited(keeps: bool)                // cancelled; with a job in hand it keeps the slot

  predicate Handling(r: Runner) {
    !r.Idle? && r != Exited(false)
  }

  predicate Waiting(r: Runner) {
    r.Idle?
  }

  predicate InProgress(r: Runner) {
    r.Running?
  }

  function Count(rs: seq<Runner>, p: Runner -> bool): nat {
    if rs == [] then 0 else Count(rs[..|rs| - 1], p) + if p(rs[|rs| - 1]) then 1 else 0
  }

  /** Runner `i` is between claiming singleton job `id` and giving it up. */
  predicate Claims(rs: seq<Runner>, i: nat, id: JobId) {
    i < |rs| && (rs[i] == Running(id, true) || rs[i] == Unclaiming(id))
  }

  datatype Pool = Pool(
    mode: LimitMode,
    limit: nat,
    perJob: bool,             // a single job's runner needs no claims
    started: bool,
    cancelled: bool,
    slots: nat,               // tokens in rescheduleLimiter
    offers: seq<JobId>,       // dispatch goroutines about to send on `in`
    queue: seq<JobId>,        // the channel `in`
    runners: seq<Runner>,
    singletonJobs: set<JobId>,
    // what happened so far
    accepted: multiset<JobId>,
    entered: seq<JobId>,
    taken: seq<JobId>)

  datatype Step =
    | Start
    | Cancel
    | Dispatch(id: JobId)
    | Enqueue(k: nat)
    | Take(i: nat)
    | Fetch(i: nat, job: Option<bool>)  // not there any more, or there: is it a singleton?
    | Claim(i: nat)
    | Give(i: nat)                      // the rescheduling of a clash is done
    | Return(i: nat)
    | Unclaim(i: nat)
    | Release(i: nat)
    | Exit(i: nat)

  predicate Enabled(s: Pool, e: Step) {
    match e
    case Start => true
    case Cancel => true
    case Dispatch(_) => s.started
    case Enqueue(k) => k < |s.offers| && |s.queue| < QUEUE_BUFFER
    case Take(i) => i < |s.runners| && s.runners[i].Idle? && s.queue != []
    case Fetch(i, _) => i < |s.runners| && s.runners[i].Holding?
    case Claim(i) => i < |s.runners| && s.runners[i].Claiming?
    case Give(i) => i < |s.runners| && s.runners[i].Clashed?
    case Return(i) => i < |s.runners| && s.runners[i].Running?
    case Unclaim(i) => i < |s.runners| && s.runners[i].Unclaiming?
    case Release(i) => i < |s.runners| && s.runners[i].Releasing? && (s.mode.LimitModeReschedule? ==> s.slots > 0)
    case Exit(i) => i < |s.runners| && s.cancelled && (s.runners[i].Idle? || s.runners[i].Holding?)
  }

  /** Nonblocking send on the limiter: refused exactly when it is full. */
  predicate Accepts(s: Pool) {
    s.mode.LimitModeWait? || s.slots < s.limit
  }

  function After(r: Runner, e: Step, s: Pool): Runner {
    match e
    case Take(_) => if s.queue == [] then r else Holding(s.queue[0])
    case Fetch(_, None) => Releasing
    case Fetch(_, Some(singleton)) =>
      if !r.Holding? then r else if singleton && !s.perJob then Claiming(r.id) else Running(r.id, false)
    case Claim(_) => if r.Claiming? then if r.id in s.singletonJobs then Clashed(r.id) else Running(r.id, true) else r
    case Give(_) => Releasing
    case Return(_) => if r.Running? && r.claimed then Unclaiming(r.id) else Releasing
    case Unclaim(_) => Releasing
    case Release(_) => Idle
    case Exit(_) => Exited(Handling(r))
    case _ => r
  }

  function ClaimedAfter(r: Runner, e: Step, claimed: set<JobId>): set<JobId> {
    match r
    case Claiming(id) => if e.Claim? then claimed + {id} else claimed
    case Unclaiming(id) => if e.Unclaim? then claimed - {id} else claimed
    case _ => claimed
  }

  /** A receive from the limiter channel, which would block on an empty one. */
  function SlotsAfterRelease(s: Pool): nat {
    if s.mode.LimitModeReschedule? && s.slots > 0 then s.slots - 1 else s.slots
  }

  predicate OfRunner(e: Step) {
    !(e.Start? || e.Cancel? || e.Dispatch? || e.Enqueue?)
  }

  function Apply(s: Pool, e: Step): Pool
    requires Enabled(s, e)
  {
    match e
    case Start => if s.started then s else s.(started := true, runners := seq(s.limit, i => Idle))
    case Cancel => s.(cancelled := true)
    case Dispatch(id) =>
      if !Accepts(s) then s
      else s.(slots := if s.mode.LimitModeReschedule? then s.slots + 1 else s.slots,
           offers := s.offers + [id], accepted := s.accepted + multiset{id})
    case Enqueue(k) =>
      s.(offers := s.offers[..k] + s.offers[k + 1..],
      queue := s.queue + [s.offers[k]],
      entered := s.entered + [s.offers[k]])
    case Take(i) =>
      s.(runners := s.runners[i := After(s.runners[i], e, s)], queue := s.queue[1..], taken := s.taken + [s.queue[0]])
    case _ =>
      var r := s.runners[e.i];
      s.(runners := s.runners[e.i := After(r, e, s)],
      singletonJobs := ClaimedAfter(r, e, s.singletonJobs),
      slots := if e.Release? then SlotsAfterRelease(s) else s.slots)
  }

  // ---- Invariants ----

  /** A slot is held for every dispatch accepted but not queued, queued, or in a runner's hands. */
  predicate SlotsConserved(s: Pool) {
    s.slots == if s.mode.LimitModeReschedule? then |s.offers| + |s.queue| + Count(s.runners, Handling) else 0
  }

  predicate Shape(s: Pool) {
    && s.slots <= s.limit && |s.queue| <= QUEUE_BUFFER
    && |s.runners| == (if s.started then s.limit else 0)
    && (!s.started ==> s.offers == [] && s.queue == [] && s.slots == 0)
    && (s.perJob ==> s.limit == 1)
    && (forall i :: 0 <= i < |s.runners| && s.runners[i].Exited? ==> s.cancelled)
    && (s.perJob ==> forall i :: 0 <= i < |s.runners| ==> !s.runners[i].Claiming?)
  }

  /** The set of running singletons is exactly what the runners claim, each claimed once. */
  ghost predicate ClaimsExact(s: Pool) {
    && (forall id :: id in s.singletonJobs <==> exists i :: Claims(s.runners, i, id))
    && (forall i, j, id :: Claims(s.runners, i, id) && Claims(s.runners, j, id) ==> i == j)
  }

  /** Nothing accepted is lost, duplicated or overtaken in the queue. */
  predicate Delivered(s: Pool) {
    s.entered == s.taken + s.queue && s.accepted == multiset(s.offers) + multiset(s.entered)
  }

  ghost predicate Inv(s: Pool) {
    Shape(s) && SlotsConserved(s) && ClaimsExact(s) && Delivered(s)
  }

  function One(b: bool): nat {
    if b then 1 else 0
  }

  lemma {:induction false} CountUpdate(rs: seq<Runner>, p: Runner -> bool, i: nat, r: Runner)
    requires i < |rs|
    ensures Count(rs[i := r], p) + One(p(rs[i])) == Count(rs, p) + One(p(r))
  {
    var n := |rs| - 1;
    if i == n {
      assert rs[i := r][..n] == rs[..n];
    } else {
      assert rs[i := r][..n] == rs[..n][i := r];
      CountUpdate(rs[..n], p, i, r);
    }
  }

  lemma {:induction false} CountNone(rs: seq<Runner>, p: Runner -> bool)
    requires forall i :: 0 <= i < |rs| ==> !p(rs[i])
    ensures Count(rs, p) == 0
  {
    if rs != [] {
      CountNone(rs[..|rs| - 1], p);
    }
  }

  /** Short of an exit every runner either waits at its select or is handling a job. */
  lemma {:induction false} WaitingOrHandling(rs: seq<Runner>)
    requires forall i :: 0 <= i < |rs| ==> rs[i] != Exited(false)
    ensures Count(rs, Waiting) + Count(rs, Handling) == |rs|
  {
    if rs != [] {
      WaitingOrHandling(rs[..|rs| - 1]);
    }
  }

  lemma {:induction false} RunsAreHandled(rs: seq<Runner>)
    ensures Count(rs, InProgress) <= Count(rs, Handling) <= |rs|
  {
    if rs != [] {
      RunsAreHandled(rs[..|rs| - 1]);
    }
  }

  lemma {:induction false} Counted(rs: seq<Runner>, p: Runner -> bool, i: nat)
    requires i < |rs| && p(rs[i])
    ensures Count(rs, p) >= 1
  {
    if i < |rs| - 1 {
      Counted(rs[..|rs| - 1], p, i);
    }
  }

  lemma SlotsAfterRunner(s: Pool, e: Step)
    requires Shape(s) && SlotsConserved(s) && Enabled(s, e) && OfRunner(e)
    ensures Shape(Apply(s, e)) && SlotsConserved(Apply(s, e))
  {
    RunnerHandles(s, e);
    ShapeAfterRunner(s, e);
    hide Shape, After, ClaimedAfter, Count;
  }

  /** Only taking a job makes a runner busy, and only giving back the slot makes it idle again. */
  lemma RunnerHandles(s: Pool, e: Step)
    requires Enabled(s, e) && OfRunner(e)
    ensures Count(Apply(s, e).runners, Handling) ==
            Count(s.runners, Handling) + (if e.Take? then 1 else 0) - (if e.Release? then 1 else 0)
  {
    CountUpdate(s.runners, Handling, e.i, After(s.runners[e.i], e, s));
    hide Count, ClaimedAfter, SlotsAfterRelease;
  }

  lemma ShapeAfterRunner(s: Pool, e: Step)
    requires Shape(s) && Enabled(s, e) && OfRunner(e)
    ensures Shape(Apply(s, e))
  {
    hide ClaimedAfter;
  }

  lemma SlotsAfterOther(s: Pool, e: Step)
    requires Shape(s) && SlotsConserved(s) && Enabled(s, e) && !OfRunner(e)
    ensures Shape(Apply(s, e)) && SlotsConserved(Apply(s, e))
  {
    if e.Start? && !s.started {
      CountNone(seq(s.limit, i => Idle), Handling);
      CountNone(s.runners, Handling);
    }
  }

  lemma ClaimsKept(s: Pool, e: Step)
    requires Shape(s) && ClaimsExact(s) && Enabled(s, e)
    ensures ClaimsExact(Apply(s, e))
  {
    var s' := Apply(s, e);
    if OfRunner(e) {
      assert forall i, id :: i != e.i ==> (Claims(s'.runners, i, id) <==> Claims(s.runners, i, id));
      ClaimsAfterRunner(s, e);
    } else {
      assert forall i, id :: Claims(s'.runners, i, id) <==> Claims(s.runners, i, id);
    }
  }

  lemma ClaimsAfterRunner(s: Pool, e: Step)
    requires Shape(s) && ClaimsExact(s) && Enabled(s, e) && OfRunner(e)
    requires var s' := Apply(s, e);
             forall i, id :: i != e.i ==> (Claims(s'.runners, i, id) <==> Claims(s.runners, i, id))
    ensures ClaimsExact(Apply(s, e))
  {
    var s' := Apply(s, e);
    forall id
      ensures Claims(s'.runners, e.i, id) <==>
              (Claims(s.runners, e.i, id) && id in s'.singletonJobs)
              || (id in s'.singletonJobs && id !in s.singletonJobs)
      ensures id in s.singletonJobs && id !in s'.singletonJobs ==> Claims(s.runners, e.i, id)
      ensures id in s'.singletonJobs && id !in s.singletonJobs ==> Claims(s'.runners, e.i, id)
    {
      ClaimsMove(s, e, id);
    }
    hide Shape, Enabled, Apply, Claims;
    forall id ensures id in s'.singletonJobs <==> exists i :: Claims(s'.runners, i, id) {
      if id in s.singletonJobs && id in s'.singletonJobs {
        var i :| Claims(s.runners, i, id);
        assert Claims(s'.runners, i, id);
      }
    }
  }

  /** The acting runner's claim comes and goes with the set of running singletons. */
  lemma ClaimsMove(s: Pool, e: Step, id: JobId)
    requires Shape(s) && ClaimsExact(s) && Enabled(s, e) && OfRunner(e)
    ensures var s' := Apply(s, e);
            && (Claims(s'.runners, e.i, id) <==>
                (Claims(s.runners, e.i, id) && id in s'.singletonJobs)
                || (id in s'.singletonJobs && id !in s.singletonJobs))
            && (id in s.singletonJobs && id !in s'.singletonJobs ==> Claims(s.runners, e.i, id))
            && (id in s'.singletonJobs && id !in s.singletonJobs ==> Claims(s'.runners, e.i, id))
  {
    assert Claims(s.runners, e.i, id) ==> id in s.singletonJobs;
    hide ClaimsExact;
  }

  lemma MovedToQueue(offers: seq<JobId>, k: nat, entered: seq<JobId>)
    requires k < |offers|
    ensures multiset(offers[..k] + offers[k + 1..]) + multiset(entered + [offers[k]]) ==
            multiset(offers) + multiset(entered)
  {
    assert offers == offers[..k] + [offers[k]] + offers[k + 1..];
  }

  lemma EnqueueDelivers(s: Pool, k: nat, s': Pool)
    requires Delivered(s) && k < |s.offers|
    requires s' == s.(offers := s.offers[..k] + s.offers[k + 1..],
                   queue := s.queue + [s.offers[k]],
                   entered := s.entered + [s.offers[k]])
    ensures Delivered(s')
  {
    MovedToQueue(s.offers, k, s.entered);
    assert s.taken + (s.queue + [s.offers[k]]) == s.taken + s.queue + [s.offers[k]];
  }

  lemma DispatchDelivers(s: Pool, id: JobId, s': Pool)
    requires Delivered(s)
    requires s' == s.(slots := s'.slots, offers := s.offers + [id], accepted := s.accepted + multiset{id})
    ensures Delivered(s')
  {
  }

  lemma DeliveredKept(s: Pool, e: Step)
    requires Delivered(s) && Enabled(s, e)
    ensures Delivered(Apply(s, e))
  {
    if e.Enqueue? {
      EnqueueDelivers(s, e.k, Apply(s, e));
    } else if e.Dispatch? {
      if Accepts(s) {
        DispatchDelivers(s, e.id, Apply(s, e));
      }
    } else {
      RunnersDeliver(s, e);
    }
  }

  lemma RunnersDeliver(s: Pool, e: Step)
    requires Delivered(s) && Enabled(s, e) && !e.Enqueue? && !e.Dispatch?
    ensures Delivered(Apply(s, e))
  {
    hide After, ClaimedAfter, SlotsAfterRelease, Delivered;
    if e.Take? {
      TakeDelivers(s, Apply(s, e));
    } else {
      StillDelivered(s, Apply(s, e));
    }
  }

  lemma TakeDelivers(s: Pool, s': Pool)
    requires Delivered(s) && s.queue != []
    requires s' == s.(runners := s'.runners, queue := s.queue[1..], taken := s.taken + [s.queue[0]])
    ensures Delivered(s')
  {
    assert s.queue == [s.queue[0]] + s.queue[1..];
    assert s.taken + s.queue == s.taken + [s.queue[0]] + s.queue[1..];
  }

  lemma StillDelivered(s: Pool, s': Pool)
    requires Delivered(s)
    requires s' == s.(started := s'.started, cancelled := s'.cancelled, slots := s'.slots, runners := s'.runners,
                   singletonJobs := s'.singletonJobs)
    ensures Delivered(s')
  {
  }

  lemma InvKept(s: Pool, e: Step)
    requires Inv(s) && Enabled(s, e)
    ensures Inv(Apply(s, e))
  {
    if OfRunner(e) {
      SlotsAfterRunner(s, e);
    } else {
      SlotsAfterOther(s, e);
    }
    ClaimsKept(s, e);
    DeliveredKept(s, e);
    hide Apply, Shape, SlotsConserved, ClaimsExact, Delivered;
  }

  /** The limit-mode configuration, or the runner of one singleton job. */
  predicate Initial(s: Pool) {
    && s == Pool(s.mode, s.limit, s.perJob, false, false, 0, [], [], [], {}, multiset{}, [], [])
    && s.limit > 0 && (s.perJob ==> s.limit == 1)
  }

  ghost predicate Execution(states: seq<Pool>, steps: seq<Step>) {
    && |states| == |steps| + 1 && Initial(states[0])
    && forall i :: 0 <= i < |steps| ==> Enabled(states[i], steps[i]) && states[i + 1] == Apply(states[i], steps[i])
  }

  lemma {:induction false} InvAlways(states: seq<Pool>, steps: seq<Step>, n: nat)
    requires Execution(states, steps) && n < |states|
    ensures Inv(states[n])
  {
    hide Inv, Apply;
    if n == 0 {
      InvInitially(states[0]);
    } else {
      InvAlways(states, steps, n - 1);
      InvKept(states[n - 1], steps[n - 1]);
    }
  }

  lemma InvInitially(s: Pool)
    requires Initial(s)
    ensures Inv(s)
  {
  }

  lemma RefusedWhenFull(s: Pool)
    requires Inv(s) && !Accepts(s)
    ensures |s.offers| + |s.queue| + Count(s.runners, Handling) == s.limit
  {
    hide ClaimsExact, Delivered;
  }

  lemma ClaimedByRunner(s: Pool, id: JobId)
    requires Inv(s)
    ensures id in s.singletonJobs <==> exists i :: Claims(s.runners, i, id)
  {
    hide Shape, SlotsConserved, Delivered;
  }

  lemma ReleaseEnabled(s: Pool, i: nat)
    requires Inv(s) && i < |s.runners| && s.runners[i].Releasing?
    ensures Enabled(s, Release(i))
  {
    Counted(s.runners, Handling, i);
    hide ClaimsExact, Delivered;
  }

  // ---- What the invariants say ----

  /**
    In reschedule mode the slots held are the dispatches accepted and not yet queued, queued, and in
    the hands of runners; they never exceed the limit, and a dispatch is turned away only when all
    slots are so accounted for.  While not cancelled there is an idle runner for every accepted
    dispatch, so nothing accepted ever waits behind a running job.
  */
  lemma SlotsAccounted(states: seq<Pool>, steps: seq<Step>, n: nat)
    requires Execution(states, steps) && n < |states| && states[n].mode.LimitModeReschedule?
    ensures var s := states[n];
            && s.slots == |s.offers| + |s.queue| + Count(s.runners, Handling) <= s.limit
            && (!Accepts(s) ==> |s.offers| + |s.queue| + Count(s.runners, Handling) == s.limit)
            && (s.started && !s.cancelled ==> Count(s.runners, Waiting) >= |s.offers| + |s.queue|)
            && (s.limit <= QUEUE_BUFFER && s.offers != [] ==> |s.queue| < QUEUE_BUFFER)
  {
    InvAlways(states, steps, n);
    hide Execution, ClaimsExact, Delivered;
    var s := states[n];
    if s.started && !s.cancelled {
      WaitingOrHandling(s.runners);
    }
  }

  /** The receive that gives a slot back never blocks. */
  lemma ReleaseNeverBlocks(states: seq<Pool>, steps: seq<Step>, n: nat, i: nat)
    requires Execution(states, steps) && n < |states| && i < |states[n].runners| && states[n].runners[i].Releasing?
    ensures Enabled(states[n], Release(i))
  {
    InvAlways(states, steps, n);
    ReleaseEnabled(states[n], i);
  }

  /** A singleton in reschedule mode: while a runner has a job in hand nothing is queued behind it. */
  lemma NothingQueuesBehindSingleton(states: seq<Pool>, steps: seq<Step>, n: nat, i: nat)
    requires Execution(states, steps) && n < |states| && states[n].perJob && states[n].mode.LimitModeReschedule?
    requires i < |states[n].runners| && Handling(states[n].runners[i])
    ensures states[n].offers == [] && states[n].queue == [] && !Accepts(states[n])
  {
    InvAlways(states, steps, n);
    Counted(states[n].runners, Handling, i);
    hide Execution, ClaimsExact, Delivered;
  }

  predicate RunBoth(rs: seq<Runner>, i: int, j: int, id: JobId)
    requires 0 <= i < |rs| && 0 <= j < |rs|
  {
    rs[i] == rs[j] == Running(id, true)
  }

  /**
    Limit and singleton mode together: the shared set is exactly the singleton jobs some runner is
    between claiming and giving up, no two runners run the same one, and at most `limit` jobs run.
  */
  lemma SingletonsUnderLimit(states: seq<Pool>, steps: seq<Step>, n: nat)
    requires Execution(states, steps) && n < |states|
    ensures var s := states[n];
            && Count(s.runners, InProgress) <= s.limit
            && (forall id :: id in s.singletonJobs <==> exists i :: Claims(s.runners, i, id))
            && (forall i, j, id ::
                  0 <= i < |s.runners| && 0 <= j < |s.runners| && RunBoth(s.runners, i, j, id) ==> i == j)
  {
    InvAlways(states, steps, n);
    RunsAreHandled(states[n].runners);
    hide Execution, SlotsConserved, Delivered;
    var s := states[n];
    forall i, j, id | 0 <= i < |s.runners| && 0 <= j < |s.runners| && RunBoth(s.runners, i, j, id) ensures i == j {
      assert Claims(s.runners, i, id) && Claims(s.runners, j, id);
    }
  }

  // ---- What a runner has in hand, told by the steps alone ----

  /** The scheduler's last answer to runner `i`: whether the job it asked for is a singleton, or no longer there. */
  function LastFetch(steps: seq<Step>, i: nat): Option<bool> {
    if steps == [] then None
    else
      var e := steps[|steps| - 1];
      if e.Fetch? && e.i == i then e.job else LastFetch(steps[..|steps| - 1], i)
  }

  /** Step `k` is where runner `i` last received from the queue, and `id` was at its head. */
  ghost predicate LastTake(states: seq<Pool>, steps: seq<Step>, n: nat, k: nat, i: nat, id: JobId)
    requires |states| == |steps| + 1 && n < |states|
  {
    && k < n && steps[k] == Take(i) && states[k].queue != [] && states[k].queue[0] == id
    && forall l :: k < l < n ==> steps[l] != Take(i)
  }

  /** What a runner in its state must have fetched. */
  predicate FetchedAs(r: Runner, perJob: bool, fetched: Option<bool>) {
    match r
    case Claiming(_) => fetched == Some(true) && !perJob
    case Clashed(_) => fetched == Some(true) && !perJob
    case Unclaiming(_) => fetched == Some(true) && !perJob
    case Running(_, claimed) => fetched.Some? && claimed == (fetched.value && !perJob)
    case _ => true
  }

  function JobOf(r: Runner): Option<JobId> {
    match r
    case Holding(id) => Some(id)
    case Claiming(id) => Some(id)
    case Clashed(id) => Some(id)
    case Running(id, _) => Some(id)
    case Unclaiming(id) => Some(id)
    case _ => None
  }

  lemma FetchedAsKept(s: Pool, e: Step, i: nat, fetched: Option<bool>)
    requires Enabled(s, e) && i < |Apply(s, e).runners|
    requires i < |s.runners| ==> FetchedAs(s.runners[i], s.perJob, fetched)
    ensures var s' := Apply(s, e);
            s'.perJob == s.perJob
            && FetchedAs(s'.runners[i], s.perJob, if e.Fetch? && e.i == i then e.job else fetched)
  {
  }

  lemma JobOfKept(s: Pool, e: Step, i: nat)
    requires Enabled(s, e) && i < |Apply(s, e).runners| && JobOf(Apply(s, e).runners[i]).Some?
    ensures e == Take(i) ==> s.queue != [] && JobOf(Apply(s, e).runners[i]) == Some(s.queue[0])
    ensures e != Take(i) ==> i < |s.runners| && JobOf(Apply(s, e).runners[i]) == JobOf(s.runners[i])
  {
  }

  lemma {:induction false} FetchedAlways(states: seq<Pool>, steps: seq<Step>, n: nat, i: nat)
    requires Execution(states, steps) && n < |states| && i < |states[n].runners|
    ensures FetchedAs(states[n].runners[i], states[n].perJob, LastFetch(steps[..n], i))
  {
    hide Apply, Enabled, FetchedAs;
    if n > 0 {
      assert steps[..n][..n - 1] == steps[..n - 1];
      if i < |states[n - 1].runners| {
        FetchedAlways(states, steps, n - 1, i);
      }
      FetchedAsKept(states[n - 1], steps[n - 1], i, LastFetch(steps[..n - 1], i));
    }
  }

  /** A runner works on the job that was at the head of the queue when it last received from it. */
  lemma {:induction false} RunsWhatItTook(states: seq<Pool>, steps: seq<Step>, n: nat, i: nat) returns (k: nat)
    requires Execution(states, steps) && n < |states| && i < |states[n].runners|
    requires JobOf(states[n].runners[i]).Some?
    ensures LastTake(states, steps, n, k, i, JobOf(states[n].runners[i]).value)
  {
    hide Apply, Enabled, JobOf;
    if n > 0 {
      JobOfKept(states[n - 1], steps[n - 1], i);
      k := n - 1;
      if steps[n - 1] != Take(i) {
        k := RunsWhatItTook(states, steps, n - 1, i);
      }
    }
  }

  /**
    Two runners never run the same singleton: both having been told by the scheduler that the job is one,
    they are the same runner, and in a shared pool it holds the claim.
  */
  lemma SingletonRunsOnce(states: seq<Pool>, steps: seq<Step>, n: nat, i: nat, j: nat, id: JobId)
    requires Execution(states, steps) && n < |states| && i < |states[n].runners| && j < |states[n].runners|
    requires states[n].runners[i].Running? && states[n].runners[i].id == id
    requires states[n].runners[j].Running? && states[n].runners[j].id == id
    requires LastFetch(steps[..n], i) == LastFetch(steps[..n], j) == Some(true)
    ensures i == j
    ensures !states[n].perJob ==> Claims(states[n].runners, i, id) && id in states[n].singletonJobs
  {
    InvAlways(states, steps, n);
    FetchedAlways(states, steps, n, i);
    FetchedAlways(states, steps, n, j);
    hide Execution, SlotsConserved, Delivered;
    var s := states[n];
    if !s.perJob {
      assert Claims(s.runners, i, id) && Claims(s.runners, j, id);
    }
  }

  /** Other jobs are never held back by a claim, nor hold one. */
  lemma OthersRunFreely(states: seq<Pool>, steps: seq<Step>, n: nat, i: nat)
    requires Execution(states, steps) && n < |states| && i < |states[n].runners|
    requires LastFetch(steps[..n], i) != Some(true) || states[n].perJob
    ensures !states[n].runners[i].Claiming? && !states[n].runners[i].Clashed?
    ensures forall id :: !Claims(states[n].runners, i, id)
  {
    FetchedAlways(states, steps, n, i);
    hide Execution;
  }

  /** A runner is on its way to running job `id`, or runs it. */
  predicate Serves(r: Runner, id: JobId) {
    r == Holding(id) || r == Claiming(id) || (r.Running? && r.id == id)
  }

  /** After the step runner `i` still serves the job, or stopped for one of these causes. */
  ghost predicate KeepsJob(s: Pool, e: Step, s': Pool, i: nat, id: JobId) {
    i < |s.runners| && i < |s'.runners|
    && (|| Serves(s'.runners[i], id)
        || (e == Fetch(i, None) && s.runners[i].Holding?)
        || (e == Claim(i) && s'.runners[i] == Clashed(id) && exists j: nat :: j != i && Claims(s.runners, j, id))
        || (e == Exit(i) && s.cancelled)
        || (e == Return(i) && s.runners[i].Running?))
    && (s.runners[i].Running? && e != Return(i) ==> s'.runners[i] == s.runners[i])
  }

  /**
    A job in hand is run: a runner leaves it before that only when the job is gone, runs as a singleton with
    another runner, or the executor is cancelled; and it leaves a run only when that returns.
  */
  lemma JobInHandIsRun(states: seq<Pool>, steps: seq<Step>, n: nat, i: nat, id: JobId)
    requires Execution(states, steps) && n < |steps| && i < |states[n].runners| && Serves(states[n].runners[i], id)
    ensures KeepsJob(states[n], steps[n], states[n + 1], i, id)
  {
    InvAlways(states, steps, n);
    assert Inv(states[n]) && Enabled(states[n], steps[n]) && states[n + 1] == Apply(states[n], steps[n]);
    hide *;
    JobKept(states[n], steps[n], i, id);
  }

  lemma JobKept(s: Pool, e: Step, i: nat, id: JobId)
    requires Inv(s) && Enabled(s, e) && i < |s.runners| && Serves(s.runners[i], id)
    ensures KeepsJob(s, e, Apply(s, e), i, id)
  {
    if e == Claim(i) && id in s.singletonJobs {
      ClaimedByRunner(s, id);
      var j :| Claims(s.runners, j, id);
      assert j != i;
    }
    hide SlotsConserved, ClaimsExact, Delivered, ClaimedAfter, SlotsAfterRelease;
  }

  /** Whatever was accepted is offered, queued or taken, and the queue is served in order. */
  lemma NothingLostInQueue(states: seq<Pool>, steps: seq<Step>, n: nat)
    requires Execution(states, steps) && n < |states|
    ensures var s := states[n];
            && s.taken + s.queue == s.entered
            && s.accepted == multiset(s.offers) + multiset(s.queue) + multiset(s.taken)
  {
    InvAlways(states, steps, n);
    hide Execution, SlotsConserved, ClaimsExact, Shape;
  }
}

module Limiters {
  import opened Times
  import opened Jobs
  import opened LimitModes

  /** limitModeConfig, or a singletonRunner, with the goroutines working on it. */
  class Limiter {
    const mode: LimitMode
    const limit: nat
    const perJob: bool
    var started: bool
    var cancelled: bool
    var rescheduleLimiter: nat
    var offers: seq<JobId>
    var queue: seq<JobId>
    var runners: seq<Runner>
    var singletonJobs: set<JobId>
    ghost var accepted: multiset<JobId>
    ghost var entered: seq<JobId>
    ghost var taken: seq<JobId>

    ghost function View(): Pool
      reads this
    {
      Pool(mode, limit, perJob, started, cancelled, rescheduleLimiter, offers, queue, runners, singletonJobs,
           accepted, entered, taken)
    }

    ghost predicate Valid()
      reads this
    {
      Inv(View())
    }

    constructor ForLimitMode(limit: nat, mode: LimitMode)
      requires limit > 0
      ensures Valid() && Initial(View()) && View().limit == limit && View().mode == mode && !View().perJob
    {
      this.mode, this.limit, perJob := mode, limit, false;
      started, cancelled, rescheduleLimiter, offers, queue, runners, singletonJobs := false, false, 0, [], [], [], {};
      accepted, entered, taken := multiset{}, [], [];
      new;
      InvInitially(View());
    }

    constructor ForSingleton(mode: LimitMode)
      ensures Valid() && Initial(View()) && View().limit == 1 && View().mode == mode && View().perJob
    {
      this.mode, this.limit, perJob := mode, 1, true;
      started, cancelled, rescheduleLimiter, offers, queue, runners, singletonJobs := false, false, 0, [], [], [], {};
      accepted, entered, taken := multiset{}, [], [];
      new;
      InvInitially(View());
    }

    /** Spins up one runner for each unit of the limit, once. */
    method StartRunners()
      requires Valid()
      modifies this`started, this`runners
      ensures Valid() && View() == Apply(old(View()), Start)
    {
      assert Shape(View());
      hide Inv, Shape;
      InvKept(View(), Start);
      if started {
        return;
      }
      started := true;
      SpawnRunners();
    }

    method SpawnRunners()
      requires runners == []
      modifies this`runners
      ensures runners == seq(limit, i => Idle)
    {
      var i := limit;
      while i > 0
        invariant 0 <= i <= limit
        invariant |runners| == limit - i && forall k :: 0 <= k < |runners| ==> runners[k] == Idle
      {
        runners := runners + [Idle];
        i := i - 1;
      }
      assert runners == seq(limit, k => Idle);
    }

    method Cancel()
      requires Valid()
      modifies this`cancelled
      ensures Valid() && View() == Apply(old(View()), Step.Cancel)
    {
      hide Inv;
      InvKept(View(), Step.Cancel);
      cancelled := true;
    }

    /** A dispatch reaches the limiter: it gets a slot, or is turned away and must reschedule. */
    method Dispatch(id: JobId) returns (accepts: bool)
      requires Valid() && started
      modifies this`rescheduleLimiter, this`offers, this`accepted
      ensures Valid() && View() == Apply(old(View()), Step.Dispatch(id))
      ensures accepts == Accepts(old(View()))
      ensures !accepts ==> |offers| + |queue| + Count(runners, Handling) == limit
    {
      hide Inv, Count;
      InvKept(View(), Step.Dispatch(id));
      if !Accepts(View()) {
        RefusedWhenFull(View());
      }
      if mode == LimitModeReschedule {
        if rescheduleLimiter >= limit {
          return false;
        }
        rescheduleLimiter := rescheduleLimiter + 1;
      }
      offers := offers + [id];
      accepted := accepted + multiset{id};
      return true;
    }

    method Enqueue(k: nat)
      requires Valid() && k < |offers| && |queue| < QUEUE_BUFFER
      modifies this`offers, this`queue, this`entered
      ensures Valid() && View() == Apply(old(View()), Step.Enqueue(k))
    {
      hide Inv;
      InvKept(View(), Step.Enqueue(k));
      var id := offers[k];
      offers := offers[..k] + offers[k + 1..];
      queue := queue + [id];
      entered := entered + [id];
    }

    /** An idle runner receives the next job. */
    method Take(i: nat) returns (id: JobId)
      requires Valid() && i < |runners| && runners[i].Idle? && queue != []
      modifies this`queue, this`runners, this`taken
      ensures Valid() && View() == Apply(old(View()), Step.Take(i)) && id == old(queue)[0]
    {
      hide Inv;
      InvKept(View(), Step.Take(i));
      id := queue[0];
      queue := queue[1..];
      runners := runners[i := Holding(id)];
      taken := taken + [id];
    }

    /** A cancelled runner leaves; with a job already in hand it keeps the slot. */
    method Exit(i: nat)
      requires Valid() && Enabled(View(), Step.Exit(i))
      modifies this`runners
      ensures Valid() && View() == Apply(old(View()), Step.Exit(i))
    {
      hide Inv;
      InvKept(View(), Step.Exit(i));
      runners := runners[i := Exited(runners[i].Holding?)];
    }

    /** The runner asked the scheduler for the job. */
    method Fetch(i: nat, job: Option<bool>)
      requires Valid() && i < |runners| && runners[i].Holding?
      modifies this`runners
      ensures Valid() && View() == Apply(old(View()), Step.Fetch(i, job))
    {
      hide Inv;
      InvKept(View(), Step.Fetch(i, job));
      var id := runners[i].id;
      if job == None {
        runners := runners[i := Releasing];
      } else if job.value && !perJob {
        runners := runners[i := Claiming(id)];
      } else {
        runners := runners[i := Running(id, false)];
      }
    }

    /** Under the mutex: claim the singleton unless it runs already. */
    method Claim(i: nat) returns (ok: bool)
      requires Valid() && i < |runners| && runners[i].Claiming?
      modifies this`runners, this`singletonJobs
      ensures Valid() && View() == Apply(old(View()), Step.Claim(i))
      ensures !ok <==> exists j :: Claims(old(runners), j, old(runners)[i].id)
    {
      hide Inv;
      ClaimedByRunner(View(), runners[i].id);
      InvKept(View(), Step.Claim(i));
      var id := runners[i].id;
      if id in singletonJobs {
        assert singletonJobs + {id} == singletonJobs;
        runners := runners[i := Clashed(id)];
        return false;
      }
      singletonJobs := singletonJobs + {id};
      runners := runners[i := Running(id, true)];
      return true;
    }

    /** After rescheduling a singleton that runs elsewhere. */
    method Give(i: nat)
      requires Valid() && i < |runners| && runners[i].Clashed?
      modifies this`runners
      ensures Valid() && View() == Apply(old(View()), Step.Give(i))
    {
      hide Inv;
      InvKept(View(), Step.Give(i));
      runners := runners[i := Releasing];
    }

    /** runJob returned. */
    method Return(i: nat)
      requires Valid() && i < |runners| && runners[i].Running?
      modifies this`runners
      ensures Valid() && View() == Apply(old(View()), Step.Return(i))
    {
      hide Inv;
      InvKept(View(), Step.Return(i));
      runners := runners[i := if runners[i].claimed then Unclaiming(runners[i].id) else Releasing];
    }

    method Unclaim(i: nat)
      requires Valid() && i < |runners| && runners[i].Unclaiming?
      modifies this`runners, this`singletonJobs
      ensures Valid() && View() == Apply(old(View()), Step.Unclaim(i))
    {
      hide Inv;
      InvKept(View(), Step.Unclaim(i));
      singletonJobs := singletonJobs - {runners[i].id};
      runners := runners[i := Releasing];
    }

    /** The receive from the limiter channel finds a slot to give back. */
    method Release(i: nat)
      requires Valid() && i < |runners| && runners[i].Releasing?
      modifies this`runners, this`rescheduleLimiter
      ensures Valid() && old(View()).slots == rescheduleLimiter + (if mode.LimitModeReschedule? then 1 else 0)
      ensures Enabled(old(View()), Step.Release(i)) && View() == Apply(old(View()), Step.Release(i))
    {
      hide Inv, Count;
      ReleaseEnabled(View(), i);
      InvKept(View(), Step.Release(i));
      if mode == LimitModeReschedule {
        rescheduleLimiter := rescheduleLimiter - 1;
      }
      runners := runners[i := Idle];
    }
  }
}
