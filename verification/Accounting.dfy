/** What each event does to one token and to the fields of a job that record its runs. */
module Effects {
  import opened Times
  import opened Jobs
  import opened Worlds
  import opened Protocol

  /** The token an event acts on, after it: moved on, or gone. */
  ghost function Advanced(s: State, e: Event): Option<Token>
    requires Base(s) && Enabled(s, e) && (Moves(e) || e.SendOut? || e.Report?)
  {
    var t := s.w.tokens[e.p];
    if Moves(e) then Heir(s, t, e)
    else
      var pc := if e.SendOut? then AfterSend(t.pc) else AfterReport(t.pc);
      if pc.Some? then Some(t.(owes := e.Report? && t.owes, pc := pc.value)) else None
  }

  /** Token `q` after the event is an old one untouched, the advanced one, a queued copy, or a new activation. */
  ghost predicate Accounted(s: State, e: Event, s': State, q: nat)
    requires Base(s) && Enabled(s, e) && q in s'.w.tokens
  {
    || (q in s.w.tokens && s'.w.tokens[q] == s.w.tokens[q] && (Moves(e) || e.SendOut? || e.Report? ==> q != e.p))
    || ((Moves(e) || e.SendOut? || e.Report?) && q == e.p && Advanced(s, e) == Some(s'.w.tokens[q]))
    || (Moves(e) && q == s.w.nextId && Forks(s, s.w.tokens[e.p], e)
        && s'.w.tokens[q] == s.w.tokens[e.p].(pc := SingleQueued))
    || (q == s.w.nextId && NewToken(s, e, s'.w.tokens[q]))
  }

  ghost predicate NewToken(s: State, e: Event, t: Token)
    requires Base(s) && Enabled(s, e)
  {
    && t.act == s.w.nextId
    && match e
       case Register(id, j, f) =>
         t.id == id && !PrepareFirstRun(j, f, s.w.now).Drop?
         && t.pc == if PrepareFirstRun(j, f, s.w.now).Arm? then Armed(PrepareFirstRun(j, f, s.w.now).at) else Sending
       case RunNow(id) => t.id == id && !t.owes && t.pc == Sending
       case SendOut(p, f) =>
         t.id == s.w.tokens[p].id && t.owes && Answer(s, t.id, f).Rearm? && t.pc == Armed(Answer(s, t.id, f).next)
       case _ => false
  }

  lemma MoveAccounts(s: State, e: Event, q: nat)
    requires Base(s) && Enabled(s, e) && Moves(e) && q in Moved(s, e.p, e).w.tokens
    ensures Accounted(s, e, Moved(s, e.p, e), q)
  {
    MoverIs(s, e);
    MovedToken(s, e.p, e, q);
    hide Base, Enabled, Moved, Heir, NewToken, Forks;
  }

  lemma MovedToken(s: State, p: nat, e: Event, q: nat)
    requires Moves(e) && p in s.w.tokens && s.w.tokens[p].id in s.configs && s.w.nextId !in s.w.tokens
    requires q in Moved(s, p, e).w.tokens
    ensures var t, t' := s.w.tokens[p], Moved(s, p, e).w.tokens[q];
            || (q in s.w.tokens && t' == s.w.tokens[q] && q != p)
            || (q == p && Heir(s, t, e) == Some(t'))
            || (q == s.w.nextId && Forks(s, t, e) && t' == t.(pc := SingleQueued))
  {
    hide NextPc, NextOwes, Forks;
  }

  lemma SentTokens(s: State, p: nat, f: Time -> Time, q: nat)
    requires Base(s) && Enabled(s, SendOut(p, f)) && q in Sent(s, p, f).w.tokens
    ensures Accounted(s, SendOut(p, f), Sent(s, p, f), q)
  {
    SentToken(s, p, f, q);
    hide Sent, Answer, AfterSend, Base, Enabled;
  }

  lemma SentToken(s: State, p: nat, f: Time -> Time, q: nat)
    requires Base(s) && p in s.w.tokens && q in Sent(s, p, f).w.tokens
    ensures var t, t' := s.w.tokens[p], Sent(s, p, f).w.tokens[q];
            || (q in s.w.tokens && t' == s.w.tokens[q] && q != p)
            || (q == p && AfterSend(t.pc).Some? && t' == t.(owes := false, pc := AfterSend(t.pc).value))
            || (q == s.w.nextId && Answer(s, t.id, f).Rearm?
                && t' == Token(t.id, q, true, Armed(Answer(s, t.id, f).next)))
  {
    assert s.w.nextId !in s.w.tokens;
    hide Reschedule, AfterSend, Rearmed;
  }

  lemma TokensAccounted(s: State, e: Event, q: nat)
    requires Safe(s) && Enabled(s, e) && q in Apply(s, e).w.tokens
    ensures Accounted(s, e, Apply(s, e), q)
  {
    hide Accounted, TimersOwned, OneChain, SentOnce, PokesQuiet, ArmedInOrder;
    if Moves(e) {
      MoveApplies(s, e);
      MoveAccounts(s, e, q);
    } else if e.SendOut? {
      SendApplies(s, e);
      SentTokens(s, e.p, e.f, q);
    } else if e.Report? {
      ReportApplies(s, e);
      ReportAccounts(s, e.p, e.delivered, q);
    } else if e.Register? || e.RunNow? {
      NewAccounts(s, e, q);
    } else {
      EventShrinks(s, e);
      UntouchedAccounts(s, e, q);
    }
  }

  lemma UntouchedAccounts(s: State, e: Event, q: nat)
    requires Base(s) && Enabled(s, e) && !Moves(e) && !e.SendOut? && !e.Report? && Shrinks(s, Apply(s, e))
    requires q in Apply(s, e).w.tokens
    ensures Accounted(s, e, Apply(s, e), q)
  {
    hide Apply, Base, NewToken;
  }

  lemma ReportAccounts(s: State, p: nat, delivered: bool, q: nat)
    requires Base(s) && Enabled(s, Report(p, delivered)) && q in Reported(s, p, delivered).w.tokens
    ensures Accounted(s, Report(p, delivered), Reported(s, p, delivered), q)
  {
    ReportedFrame(s, p, delivered);
    hide Reported, AfterReport, Base, NewToken;
  }

  lemma NewAccounts(s: State, e: Event, q: nat)
    requires Base(s) && Enabled(s, e) && (e.Register? || e.RunNow?) && q in Apply(s, e).w.tokens
    ensures Accounted(s, e, Apply(s, e), q)
  {
    hide PrepareFirstRun, Begun;
  }

  /** Apart from registration and completions, events leave a job's run count and last run alone. */
  ghost predicate RunsUntouched(s: State, s': State) {
    SameRuns(s.w, s'.w)
  }

  lemma OnlyCompletionsTouchRuns(s: State, e: Event)
    requires Base(s) && Enabled(s, e) && !e.Register? && !e.Report?
    ensures RunsUntouched(s, Apply(s, e))
    ensures Apply(s, e).counted == s.counted && Apply(s, e).initial == s.initial
  {
    if Moves(e) {
      MoveTouchesNoRuns(s, e.p, e);
    } else if e.SendOut? {
      SendTouchesNoRuns(s, e.p, e.f);
    } else {
      OthersTouchNoRuns(s, e);
    }
  }

  lemma MoveTouchesNoRuns(s: State, p: nat, e: Event)
    requires Moves(e) && p in s.w.tokens && s.w.tokens[p].id in s.configs
    ensures RunsUntouched(s, Moved(s, p, e))
    ensures Moved(s, p, e).counted == s.counted && Moved(s, p, e).initial == s.initial
  {
    MovedTokens(s, p, e);
    MovedHistory(s, p, e);
    hide Moved;
  }

  lemma OthersTouchNoRuns(s: State, e: Event)
    requires Base(s) && Enabled(s, e) && !Moves(e) && !e.Register? && !e.Report? && !e.SendOut?
    ensures RunsUntouched(s, Apply(s, e))
    ensures Apply(s, e).counted == s.counted && Apply(s, e).initial == s.initial
  {
    if e.RunNow? {
      RunNowPokes(s, e.id);
      hide Apply, Base;
    } else if e.Remove? || e.Reap? || e.HandleTiming? {
      HandlerTouchesNoRuns(s, e);
    }
  }

  lemma HandlerTouchesNoRuns(s: State, e: Event)
    requires Base(s) && Enabled(s, e) && (e.Remove? || e.Reap? || e.HandleTiming?)
    ensures RunsUntouched(s, Apply(s, e))
    ensures Apply(s, e).counted == s.counted && Apply(s, e).initial == s.initial
  {
    if e.HandleTiming? {
      TimingTouchesNoRuns(s.w, e.m.id, e.m.startedAt, e.m.completedAt);
      hide OnTiming, Base;
    } else {
      RemovalTouchesNoRuns(s.w, e.id);
      hide Removed, Base;
    }
  }

  ghost predicate SameRuns(w: World, w': World) {
    forall id :: id in w'.jobs ==>
                   id in w.jobs && w'.jobs[id].config == w.jobs[id].config
                   && w'.jobs[id].runCount == w.jobs[id].runCount && w'.jobs[id].lastRun == w.jobs[id].lastRun
  }

  lemma TimingTouchesNoRuns(w: World, id: JobId, startedAt: Time, completedAt: Time)
    ensures SameRuns(w, OnTiming(w, id, startedAt, completedAt))
  {
  }

  lemma RemovalTouchesNoRuns(w: World, id: JobId)
    ensures SameRuns(w, Removed(w, id))
  {
    hide StopTimer;
  }

  lemma SendTouchesNoRuns(s: State, p: nat, f: Time -> Time)
    requires Base(s) && p in s.w.tokens
    ensures RunsUntouched(s, Sent(s, p, f))
    ensures Sent(s, p, f).counted == s.counted && Sent(s, p, f).initial == s.initial
  {
    hide Reschedule, Inserted, LowerBound, AfterSend, StopTimer;
  }

  lemma MovedHistory(s: State, p: nat, e: Event)
    requires Moves(e) && p in s.w.tokens && s.w.tokens[p].id in s.configs
    ensures var s' := Moved(s, p, e);
            && s'.counted == s.counted && s'.initial == s.initial && s'.finished == s.finished
            && s'.reaping == s.reaping
            && s'.poked == s.poked && s'.limitMode == s.limitMode
            && (!e.Return? ==> s'.ended == s.ended) && (e.Return? ==> s'.ended == s.ended[s.w.tokens[p].id := s.w.now])
  {
    hide NextPc, NextOwes, Forks;
  }

  lemma ReportTouchesRuns(s: State, p: nat, delivered: bool)
    requires Base(s) && p in s.w.tokens && Reports(s.w.tokens[p].pc)
    ensures var s', t := Reported(s, p, delivered), s.w.tokens[p];
            var counts := delivered && t.pc in {Run(ReportFirst), Run(ReportLast)} && t.id in s.w.jobs;
            && s'.w.jobs.Keys == s.w.jobs.Keys
            && s'.counted == (if counts then s.counted + [(t.act, t.id)] else s.counted)
            && (forall id :: id in s.w.jobs ==>
                               var j, j' := s.w.jobs[id], s'.w.jobs[id];
                               var own := counts && id == t.id;
                               && j'.config == j.config
                               && j'.runCount == j.runCount + (if own && j.config.limitRunsTo.Some? then 1 else 0)
                               && j'.lastRun == (if own && !LimitReached(j') then s.w.now else j.lastRun))
  {
    var t := s.w.tokens[p];
    ReportedJobs(s, p, delivered);
    hide OnPrune, OnCompleted, Reported, Base;
    if delivered && t.pc == Run(ReportLock) {
      PruneTouchesNoRuns(s.w, t.id);
    } else if delivered {
      CompletionTouchesRuns(s.w, t.id, t.pc == Run(ReportSkip));
    }
  }

  /** The handler finds the jobs as they are: the reporter's own move does not touch them. */
  lemma ReportedJobs(s: State, p: nat, delivered: bool)
    requires p in s.w.tokens && Reports(s.w.tokens[p].pc)
    ensures var s', t := Reported(s, p, delivered), s.w.tokens[p];
            && s'.w.jobs == (if !delivered then s.w.jobs
                             else if t.pc == Run(ReportLock) then OnPrune(s.w, t.id).jobs
                             else OnCompleted(s.w, t.id, t.pc == Run(ReportSkip)).jobs)
            && s'.counted == if delivered && t.pc in {Run(ReportFirst), Run(ReportLast)} && t.id in s.w.jobs
                             then s.counted + [(t.act, t.id)] else s.counted
  {
    var t := s.w.tokens[p];
    var moved := Put(s, p, t, AfterReport(t.pc));
    assert moved.w.jobs == s.w.jobs && moved.w.now == s.w.now && moved.counted == s.counted;
    SameJobs(moved.w, s.w, t.id, t.pc == Run(ReportSkip));
    hide AfterReport, Put, OnPrune, OnCompleted;
  }

  lemma SameJobs(w: World, w': World, id: JobId, skipped: bool)
    requires w.jobs == w'.jobs && w.now == w'.now
    ensures OnPrune(w, id).jobs == OnPrune(w', id).jobs
    ensures OnCompleted(w, id, skipped).jobs == OnCompleted(w', id, skipped).jobs
  {
    hide Pruned, Completed;
  }

  lemma PruneTouchesNoRuns(w: World, id: JobId)
    ensures var w' := OnPrune(w, id);
            && w'.jobs.Keys == w.jobs.Keys
            && forall x :: x in w.jobs ==>
                             w'.jobs[x].config == w.jobs[x].config && w'.jobs[x].runCount == w.jobs[x].runCount
                             && w'.jobs[x].lastRun == w.jobs[x].lastRun
  {
    hide Upcoming;
  }

  /** A completion that was not skipped counts a run, and notes its instant unless the runs are used up. */
  lemma CompletionTouchesRuns(w: World, id: JobId, skipped: bool)
    ensures var w' := OnCompleted(w, id, skipped);
            && w'.jobs.Keys == w.jobs.Keys
            && forall x :: x in w.jobs ==>
                             var j, j', own := w.jobs[x], w'.jobs[x], !skipped && x == id;
                             && j'.config == j.config
                             && j'.runCount == j.runCount + (if own && j.config.limitRunsTo.Some? then 1 else 0)
                             && j'.lastRun == (if own && !LimitReached(j') then w.now else j.lastRun)
  {
    hide Upcoming;
  }
}

/** WithLimitedRuns: what the run count counts, and when it leads to removal. */
module Counting {
  import opened Times
  import opened Jobs
  import opened Worlds
  import opened Protocol
  import opened Effects

  function CountOf(counted: seq<(nat, JobId)>, id: JobId): nat {
    if counted == [] then 0
    else CountOf(counted[..|counted| - 1], id) + if counted[|counted| - 1].1 == id then 1 else 0
  }

  lemma CountOfAppend(counted: seq<(nat, JobId)>, x: (nat, JobId), id: JobId)
    ensures CountOf(counted + [x], id) == CountOf(counted, id) + if x.1 == id then 1 else 0
  {
    assert (counted + [x])[..|counted|] == counted;
  }

  lemma {:induction false} CountOfAbsent(counted: seq<(nat, JobId)>, id: JobId)
    requires forall i :: 0 <= i < |counted| ==> counted[i].1 != id
    ensures CountOf(counted, id) == 0
  {
    if counted != [] {
      CountOfAbsent(counted[..|counted| - 1], id);
    }
  }

  /** Program points that only one kind of job reaches: `late` is intervalFromCompletion. */
  predicate Paced(pc: Pc, late: bool) {
    && (pc in {Handed, Run(Ready), Run(ReportFirst)} ==> !late)
    && (pc in {Run(ReportLast), Run(Closing)} ==> late)
  }

  /** The activation may still report a completion that counts. */
  predicate MayCount(pc: Pc, late: bool) {
    && !(pc in {Handed, Turned, Clashed})
    && (pc.Run? ==>
          && pc.stage !in {LockFailed, ReportLock, Refusing, ReportSkip, Closing}
          && (pc.stage in {Announcing, Working, Finishing} ==> late))
  }

  predicate Late(s: State, id: JobId) {
    id in s.configs && s.configs[id].intervalFromCompletion
  }

  ghost predicate MayStillCount(s: State, p: nat) {
    p in s.w.tokens && MayCount(s.w.tokens[p].pc, Late(s, s.w.tokens[p].id))
  }

  ghost predicate InPace(s: State) {
    forall p :: p in s.w.tokens ==> Paced(s.w.tokens[p].pc, Late(s, s.w.tokens[p].id))
  }

  ghost predicate NotYetCounted(s: State, q: nat)
    requires q in s.w.tokens
  {
    forall i :: 0 <= i < |s.counted| ==> s.counted[i].0 != s.w.tokens[q].act
  }

  ghost predicate DistinctActs(counted: seq<(nat, JobId)>) {
    forall i, j :: 0 <= i < j < |counted| ==> counted[i].0 != counted[j].0
  }

  ghost predicate OneCounter(s: State) {
    forall p, q :: MayStillCount(s, p) && MayStillCount(s, q) && s.w.tokens[p].act == s.w.tokens[q].act ==> p == q
  }

  ghost predicate RecordKnown(s: State) {
    forall i :: 0 <= i < |s.counted| ==> s.counted[i].0 < s.w.nextId && s.counted[i].1 in s.configs
  }

  /** Each activation counts at most once. */
  ghost predicate CountedOnce(s: State) {
    && DistinctActs(s.counted) && RecordKnown(s) && OneCounter(s)
    && (forall p :: MayStillCount(s, p) ==> NotYetCounted(s, p))
  }

  /** The run count is the number of counted completions since registration. */
  ghost predicate Tallied(s: State) {
    forall id :: id in s.w.jobs && s.w.jobs[id].config.limitRunsTo.Some? ==>
                   id in s.initial && s.w.jobs[id].runCount == s.initial[id] + CountOf(s.counted, id)
  }

  /** A removal is asked for only when the runs are used up and some run has reported finishing. */
  ghost predicate ReapedFairly(s: State) {
    forall id :: id in s.reaping ==>
                   id in s.configs && id in s.finished && (id in s.w.jobs ==> LimitReached(s.w.jobs[id]))
  }

  ghost predicate CountInv(s: State) {
    Inv(s) && InPace(s) && CountedOnce(s) && Tallied(s) && ReapedFairly(s)
  }

  /** Moving on keeps to the pace, and never brings back the right to count. */
  lemma AdvanceKeepsPace(s: State, e: Event)
    requires Base(s) && Enabled(s, e) && (Moves(e) || e.SendOut? || e.Report?)
    requires Paced(s.w.tokens[e.p].pc, Late(s, s.w.tokens[e.p].id))
    ensures var t, t', late := s.w.tokens[e.p], Advanced(s, e), Late(s, s.w.tokens[e.p].id);
            t'.Some? ==>
              && Paced(t'.value.pc, late)
              && (MayCount(t'.value.pc, late) ==> MayCount(t.pc, late))
              && (e.Report? && t.pc in {Run(ReportFirst), Run(ReportLast)} ==> !MayCount(t'.value.pc, late))
              && (Moves(e) && Forks(s, t, e) ==> MayCount(t.pc, late) && !MayCount(t'.value.pc, late))
  {
    var t := s.w.tokens[e.p];
    assert t.id in s.configs;
    if e.SendOut? {
      SendKeepsPace(t.pc, Late(s, t.id));
    } else if e.Report? {
      ReportKeepsPace(t.pc, Late(s, t.id));
    } else {
      MoveKeepsPace(s, e, t);
    }
    hide Base, Paced, MayCount, Heir, AfterSend, AfterReport;
  }

  lemma MoveKeepsPace(s: State, e: Event, t: Token)
    requires Moves(e) && t.id in s.configs && e.p in s.w.tokens && s.w.tokens[e.p] == t && Enabled(s, e)
    requires Paced(t.pc, Late(s, t.id))
    ensures var late, heir := Late(s, t.id), Heir(s, t, e);
            && (heir.Some? ==> Paced(heir.value.pc, late) && (MayCount(heir.value.pc, late) ==> MayCount(t.pc, late)))
            && (heir.Some? && Forks(s, t, e) ==> MayCount(t.pc, late) && !MayCount(heir.value.pc, late))
  {
  }

  lemma SendKeepsPace(pc: Pc, late: bool)
    requires Sends(pc) && Paced(pc, late)
    ensures AfterSend(pc).Some? ==>
              Paced(AfterSend(pc).value, late) && (MayCount(AfterSend(pc).value, late) ==> MayCount(pc, late))
  {
  }

  lemma ReportKeepsPace(pc: Pc, late: bool)
    requires Reports(pc) && Paced(pc, late)
    ensures AfterReport(pc).Some? ==>
              Paced(AfterReport(pc).value, late) && (MayCount(AfterReport(pc).value, late) ==> MayCount(pc, late))
    ensures AfterReport(pc).Some? ==> !MayCount(AfterReport(pc).value, late)
  {
  }

  lemma PaceKept(s: State, e: Event)
    requires Safe(s) && InPace(s) && Enabled(s, e)
    ensures InPace(Apply(s, e))
  {
    var s' := Apply(s, e);
    forall q | q in s'.w.tokens ensures Paced(s'.w.tokens[q].pc, Late(s', s'.w.tokens[q].id)) {
      TokensAccounted(s, e, q);
      ConfigsKept(s, e);
      TokenPace(s, e, s', q);
    }
    hide Apply, Safe, Enabled, Paced;
  }

  lemma NewTokenIs(s: State, e: Event, t: Token)
    requires Base(s) && Enabled(s, e) && NewToken(s, e, t)
    ensures t.act == s.w.nextId && (t.pc.Armed? || t.pc.Sending?)
  {
    hide PrepareFirstRun, Answer, Base;
  }

  lemma TokenPace(s: State, e: Event, s': State, q: nat)
    requires Base(s) && InPace(s) && Enabled(s, e) && q in s'.w.tokens && Accounted(s, e, s', q)
    requires forall id :: id in s.configs ==> Late(s', id) == Late(s, id)
    ensures Paced(s'.w.tokens[q].pc, Late(s', s'.w.tokens[q].id))
  {
    var t' := s'.w.tokens[q];
    MoverKnown(s, e);
    hide Enabled, Base, Advanced, NewToken, Paced, Forks, Late, InPace;
    if q in s.w.tokens && t' == s.w.tokens[q] {
      OldPace(s, q);
    } else if (Moves(e) || e.SendOut? || e.Report?) && q == e.p && Advanced(s, e) == Some(t') {
      OldPace(s, e.p);
      AdvanceKeepsPace(s, e);
      AdvancedIsSame(s, e);
    } else {
      if !Moves(e) || t' != s.w.tokens[e.p].(pc := SingleQueued) {
        NewTokenIs(s, e, t');
      }
      AnyPaceAtRest(t'.pc, Late(s', t'.id));
    }
  }

  lemma MoverKnown(s: State, e: Event)
    requires Base(s) && Enabled(s, e)
    ensures Moves(e) || e.SendOut? || e.Report? ==> e.p in s.w.tokens && s.w.tokens[e.p].id in s.configs
  {
  }

  lemma OldPace(s: State, q: nat)
    requires Base(s) && InPace(s) && q in s.w.tokens
    ensures s.w.tokens[q].id in s.configs && Paced(s.w.tokens[q].pc, Late(s, s.w.tokens[q].id))
  {
    hide Paced;
  }

  lemma AnyPaceAtRest(pc: Pc, late: bool)
    requires pc.Armed? || pc.Sending? || pc.SingleQueued?
    ensures Paced(pc, late)
  {
  }

  /** Registrations are only added, and identities only handed out. */
  ghost predicate Extends(s: State, s': State) {
    && (forall id :: id in s.configs ==> id in s'.configs && s'.configs[id] == s.configs[id])
    && s.w.nextId <= s'.w.nextId
  }

  lemma ConfigsKept(s: State, e: Event)
    requires Safe(s) && Enabled(s, e)
    ensures Extends(s, Apply(s, e))
  {
    hide TimersOwned, OneChain, SentOnce, PokesQuiet, ArmedInOrder, Moved, Reported, Sent, Registered, Apply, Shrinks;
    if Moves(e) {
      MoveApplies(s, e);
      MovedSame(s, e.p, e);
    } else if e.Report? {
      ReportApplies(s, e);
      ReportedFrame(s, e.p, e.delivered);
    } else if e.SendOut? {
      SendApplies(s, e);
      SentConfigs(s, e.p, e.f);
    } else if e.Register? {
      RegisterApplies(s, e);
      RegisteredConfigs(s, e.id, e.job, e.f);
    } else if e.RunNow? {
      RunNowPokes(s, e.id);
    } else {
      EventShrinks(s, e);
      ShrinksFrame(s, Apply(s, e));
    }
  }

  lemma SentConfigs(s: State, p: nat, f: Time -> Time)
    requires s.w.Valid() && p in s.w.tokens
    ensures Sent(s, p, f).configs == s.configs && Extends(s, Sent(s, p, f))
  {
    hide Reschedule, AfterSend, StopTimer;
  }

  lemma RegisteredConfigs(s: State, id: JobId, j: Job, f: Time -> Time)
    requires id !in s.configs
    ensures Registered(s, id, j, f).configs == s.configs[id := j.config] && Extends(s, Registered(s, id, j, f))
  {
    hide PrepareFirstRun, StopTimer;
  }

  /** A token that may count afterwards either may count before, under the same activation, or is new. */
  lemma CountingRightInherited(s: State, e: Event, s': State, q: nat) returns (p: nat)
    requires Base(s) && InPace(s) && Enabled(s, e) && MayStillCount(s', q) && Accounted(s, e, s', q)
    requires forall id :: id in s.configs ==> Late(s', id) == Late(s, id)
    ensures (MayStillCount(s, p) && s.w.tokens[p].act == s'.w.tokens[q].act && (q == p || q == s.w.nextId)
             && (q != p ==> Moves(e) && e.p == p && Forks(s, s.w.tokens[p], e)))
            || s'.w.tokens[q].act == s.w.nextId == q
  {
    p := q;
    var t' := s'.w.tokens[q];
    MoverKnown(s, e);
    assert q in s.w.tokens ==> s.w.tokens[q].id in s.configs;
    hide Late, Base, Enabled, Advanced, NewToken, Paced, Forks, MayCount;
    if q in s.w.tokens && t' == s.w.tokens[q] {
    } else if (Moves(e) || e.SendOut? || e.Report?) && q == e.p && Advanced(s, e) == Some(t') {
      AdvanceKeepsPace(s, e);
      AdvancedIsSame(s, e);
    } else if Moves(e) && t' == s.w.tokens[e.p].(pc := SingleQueued) {
      ForksMayCount(s, e);
      p := e.p;
    } else {
      NewTokenIs(s, e, t');
    }
  }

  lemma AdvancedIsSame(s: State, e: Event)
    requires Base(s) && Enabled(s, e) && (Moves(e) || e.SendOut? || e.Report?)
    ensures Advanced(s, e).Some? ==>
              Advanced(s, e).value.id == s.w.tokens[e.p].id && Advanced(s, e).value.act == s.w.tokens[e.p].act
  {
    MoverKnown(s, e);
    hide Base, Enabled, Heir, AfterSend, AfterReport;
    if Moves(e) {
      HeirIsSame(s, s.w.tokens[e.p], e);
    }
  }

  lemma ForksMayCount(s: State, e: Event)
    requires Base(s) && Enabled(s, e) && Moves(e)
    ensures Forks(s, s.w.tokens[e.p], e) ==> MayStillCount(s, e.p)
  {
    MoverIs(s, e);
    hide Base, Enabled;
  }

  lemma CountedOnceKept(s: State, e: Event)
    requires Safe(s) && InPace(s) && CountedOnce(s) && Enabled(s, e)
    ensures CountedOnce(Apply(s, e))
  {
    hide TimersOwned, OneChain, SentOnce, PokesQuiet, ArmedInOrder, InPace, Enabled, Accounted, Apply;
    hide NotYetCounted, DistinctActs, RecordKnown, RecordGrows;
    var s' := Apply(s, e);
    ConfigsKept(s, e);
    CountedAfter(s, e);
    RecordStaysDistinct(s, e, s');
    forall q | MayStillCount(s', q) ensures NotYetCounted(s', q) {
      TokensAccounted(s, e, q);
      FreshCount(s, e, s', q);
    }
    forall q, r | MayStillCount(s', q) && MayStillCount(s', r) && s'.w.tokens[q].act == s'.w.tokens[r].act
      ensures q == r {
      TokensAccounted(s, e, q);
      TokensAccounted(s, e, r);
      SameCounter(s, e, s', q, r);
    }
  }

  lemma RecordStaysDistinct(s: State, e: Event, s': State)
    requires Base(s) && CountedOnce(s) && Enabled(s, e) && RecordGrows(s, e, s'.counted)
    requires s.configs.Keys <= s'.configs.Keys && s.w.nextId <= s'.w.nextId
    ensures DistinctActs(s'.counted) && RecordKnown(s')
  {
    if s'.counted != s.counted {
      assert NotYetCounted(s, e.p);
    }
    hide OneCounter;
  }

  /** The record grows by at most the reporting activation, which had the right to count. */
  ghost predicate RecordGrows(s: State, e: Event, counted: seq<(nat, JobId)>)
    requires Base(s) && Enabled(s, e)
  {
    counted == s.counted ||
    (e.Report? && MayStillCount(s, e.p) && s.w.tokens[e.p].pc in {Run(ReportFirst), Run(ReportLast)}
     && s.w.tokens[e.p].id in s.w.jobs && counted == s.counted + [(s.w.tokens[e.p].act, s.w.tokens[e.p].id)])
  }

  lemma CountedAfter(s: State, e: Event)
    requires Safe(s) && Enabled(s, e)
    ensures RecordGrows(s, e, Apply(s, e).counted)
  {
    hide TimersOwned, OneChain, SentOnce, PokesQuiet, ArmedInOrder, Reported, Registered, Apply;
    if e.Report? {
      ReportApplies(s, e);
      ReportTouchesRuns(s, e.p, e.delivered);
    } else if e.Register? {
      RegisterApplies(s, e);
      RegisteredCounted(s, e.id, e.job, e.f);
    } else {
      OnlyCompletionsTouchRuns(s, e);
    }
  }

  lemma RegisteredCounted(s: State, id: JobId, j: Job, f: Time -> Time)
    ensures Registered(s, id, j, f).counted == s.counted
    ensures Registered(s, id, j, f).initial == s.initial[id := j.runCount]
  {
    hide OnBegin, PrepareFirstRun;
  }

  lemma FreshCount(s: State, e: Event, s': State, q: nat)
    requires Base(s) && InPace(s) && CountedOnce(s) && Enabled(s, e) && MayStillCount(s', q) && Accounted(s, e, s', q)
    requires forall id :: id in s.configs ==> Late(s', id) == Late(s, id)
    requires RecordGrows(s, e, s'.counted)
    ensures NotYetCounted(s', q)
  {
    var p := CountingRightInherited(s, e, s', q);
    if s'.counted != s.counted {
      AdvanceKeepsPace(s, e);
    }
    hide Advanced, InPace;
  }

  lemma SameCounter(s: State, e: Event, s': State, q: nat, r: nat)
    requires Base(s) && InPace(s) && CountedOnce(s) && Enabled(s, e)
    requires MayStillCount(s', q) && MayStillCount(s', r) && s'.w.tokens[q].act == s'.w.tokens[r].act
    requires Accounted(s, e, s', q) && Accounted(s, e, s', r)
    requires forall id :: id in s.configs ==> Late(s', id) == Late(s, id)
    ensures q == r
  {
    var p := CountingRightInherited(s, e, s', q);
    var p' := CountingRightInherited(s, e, s', r);
    OldActs(s);
    hide *;
    if MayStillCount(s, p) && MayStillCount(s, p') {
      OnlyCounter(s, p, p');
    }
    if q != r {
      HeirStopsCounting(s, e, s');
    }
  }

  lemma OldActs(s: State)
    requires Base(s)
    ensures forall p: nat :: MayStillCount(s, p) ==> p in s.w.tokens && s.w.tokens[p].act < s.w.nextId && p < s.w.nextId
  {
  }

  /** Of a token and its queued copy only the copy may still count. */
  lemma HeirStopsCounting(s: State, e: Event, s': State)
    requires Base(s) && InPace(s) && Enabled(s, e) && Moves(e) && e.p in s'.w.tokens && Accounted(s, e, s', e.p)
    requires Forks(s, s.w.tokens[e.p], e) && forall id :: id in s.configs ==> Late(s', id) == Late(s, id)
    ensures !MayStillCount(s', e.p)
  {
    MoverIs(s, e);
    AdvanceKeepsPace(s, e);
    AdvancedIsSame(s, e);
    hide Base, Enabled, Advanced, NewToken, Paced, Forks, Late, MayCount;
  }

  lemma OnlyCounter(s: State, p: nat, p': nat)
    requires CountedOnce(s)
    ensures MayStillCount(s, p) && MayStillCount(s, p') && s.w.tokens[p].act == s.w.tokens[p'].act ==> p == p'
  {
  }

  lemma TallyAfterReport(s: State, p: nat, delivered: bool)
    requires Base(s) && Tallied(s) && p in s.w.tokens && Reports(s.w.tokens[p].pc)
    ensures Tallied(Reported(s, p, delivered))
  {
    var s', t := Reported(s, p, delivered), s.w.tokens[p];
    ReportTouchesRuns(s, p, delivered);
    ReportedFrame(s, p, delivered);
    hide Reported;
    forall id | id in s'.w.jobs && s'.w.jobs[id].config.limitRunsTo.Some?
      ensures id in s'.initial && s'.w.jobs[id].runCount == s'.initial[id] + CountOf(s'.counted, id)
    {
      CountOfAppend(s.counted, (t.act, t.id), id);
    }
  }

  lemma TallyAfterRegister(s: State, id: JobId, j: Job, f: Time -> Time)
    requires Base(s) && Tallied(s) && RecordKnown(s) && Enabled(s, Register(id, j, f))
    ensures Tallied(Registered(s, id, j, f))
  {
    CountOfAbsent(s.counted, id);
    hide PrepareFirstRun;
  }

  lemma TallyKept(s: State, e: Event)
    requires Safe(s) && RecordKnown(s) && Tallied(s) && Enabled(s, e)
    ensures Tallied(Apply(s, e))
  {
    hide TimersOwned, OneChain, SentOnce, PokesQuiet, ArmedInOrder, Reported, Registered, Apply, CountOf;
    if e.Report? {
      ReportApplies(s, e);
      TallyAfterReport(s, e.p, e.delivered);
    } else if e.Register? {
      RegisterApplies(s, e);
      TallyAfterRegister(s, e.id, e.job, e.f);
    } else {
      OnlyCompletionsTouchRuns(s, e);
    }
  }

  lemma ReapedKept(s: State, e: Event)
    requires Safe(s) && ReapedFairly(s) && Enabled(s, e)
    ensures ReapedFairly(Apply(s, e))
  {
    hide TimersOwned, OneChain, SentOnce, PokesQuiet, ArmedInOrder;
    hide Moved, Reported, Registered, Sent, Apply, ReapedFairly;
    if Moves(e) {
      MoveApplies(s, e);
      ReapedAfterMove(s, e.p, e);
    } else if e.Report? {
      ReportApplies(s, e);
      ReapedAfterReport(s, e.p, e.delivered);
    } else if e.Register? {
      RegisterApplies(s, e);
      ReapedAfterRegister(s, e.id, e.job, e.f);
    } else {
      OnlyCompletionsTouchRuns(s, e);
      ReapedElsewhere(s, e);
    }
  }

  lemma ReapedAfterMove(s: State, p: nat, e: Event)
    requires ReapedFairly(s) && Moves(e) && p in s.w.tokens && s.w.tokens[p].id in s.configs
    ensures ReapedFairly(Moved(s, p, e))
  {
    MovedSame(s, p, e);
    MovedHistory(s, p, e);
    hide Moved;
  }

  lemma ReapedAfterReport(s: State, p: nat, delivered: bool)
    requires Base(s) && ReapedFairly(s) && p in s.w.tokens && Reports(s.w.tokens[p].pc)
    ensures ReapedFairly(Reported(s, p, delivered))
  {
    ReportTouchesRuns(s, p, delivered);
    ReportedFrame(s, p, delivered);
    hide Reported, Base, Put;
  }

  lemma ReapedAfterRegister(s: State, id: JobId, j: Job, f: Time -> Time)
    requires ReapedFairly(s) && id !in s.configs
    ensures ReapedFairly(Registered(s, id, j, f))
  {
    hide PrepareFirstRun, StopTimer, Begun;
  }

  lemma ReapedElsewhere(s: State, e: Event)
    requires Base(s) && ReapedFairly(s) && Enabled(s, e) && !Moves(e) && !e.Report? && !e.Register?
    requires RunsUntouched(s, Apply(s, e))
    ensures ReapedFairly(Apply(s, e))
  {
    if e.SendOut? {
      SendApplies(s, e);
      SentReaping(s, e.p, e.f);
      hide Apply, Base, Enabled, Sent;
    } else if e.RunNow? {
      RunNowPokes(s, e.id);
      hide Apply, Base, Enabled;
    } else if e.HandleTiming? {
      ReapedAfterTiming(s, e.m);
    } else if e.Remove? || e.Reap? {
      ReapedAfterRemoval(s, e);
    }
  }

  lemma ReapedAfterTiming(s: State, m: Timing)
    requires Base(s) && ReapedFairly(s)
    ensures ReapedFairly(TimingHandled(s, m))
  {
  }

  lemma ReapedAfterRemoval(s: State, e: Event)
    requires Base(s) && ReapedFairly(s) && Enabled(s, e) && (e.Remove? || e.Reap?)
    requires RunsUntouched(s, Apply(s, e))
    ensures ReapedFairly(Apply(s, e))
  {
    hide Removed, Base;
  }

  lemma SentReaping(s: State, p: nat, f: Time -> Time)
    requires s.w.Valid() && p in s.w.tokens
    ensures var s' := Sent(s, p, f);
            s'.reaping == s.reaping && s'.finished == s.finished && s'.configs == s.configs
  {
    hide Reschedule, OnReschedule, AfterSend;
  }

  lemma CountInvKept(s: State, e: Event)
    requires CountInv(s) && Enabled(s, e)
    ensures CountInv(Apply(s, e))
  {
    InvKept(s, e);
    PaceKept(s, e);
    CountedOnceKept(s, e);
    TallyKept(s, e);
    ReapedKept(s, e);
    hide Inv, InPace, CountedOnce, Tallied, ReapedFairly;
  }

  lemma CountInvInitially(s: State)
    requires Initial(s)
    ensures CountInv(s)
  {
  }

  lemma CountInvNext(s: State, e: Event, s': State)
    requires CountInv(s) && Next(s, e, s')
    ensures CountInv(s')
  {
    CountInvKept(s, e);
  }

  lemma {:induction false} CountInvAlways(states: seq<State>, events: seq<Event>)
    requires Execution(states, events)
    ensures forall i :: 0 <= i < |states| ==> CountInv(states[i])
  {
    hide CountInv, Initial, Next;
    if events == [] {
      CountInvInitially(states[0]);
    } else {
      var n := |events| - 1;
      assert forall i :: 0 <= i < n ==>
                           Next(states[i], events[i], states[i + 1])
                           && Next(states[..n + 1][i], events[..n][i], states[..n + 1][i + 1]);
      CountInvAlways(states[..n + 1], events[..n]);
      assert CountInv(states[..n + 1][n]);
      CountInvNext(states[n], events[n], states[n + 1]);
      assert forall i :: 0 <= i <= n ==> states[..n + 1][i] == states[i];
    }
  }

  /**
    Over every execution the run count of a limited job is the number of its completions handled
    since registration, skipped ones aside and each activation once; and the limit asks for a
    removal only when the count has reached it and some run has reported finishing.
  */
  lemma LimitedRunsAccounting(states: seq<State>, events: seq<Event>, i: nat)
    requires Execution(states, events) && i < |states|
    ensures var s := states[i];
            && DistinctActs(s.counted)
            && (forall id :: id in s.w.jobs && s.w.jobs[id].config.limitRunsTo.Some? ==>
                               id in s.initial && s.w.jobs[id].runCount == s.initial[id] + CountOf(s.counted, id))
            && (forall id :: id in s.reaping ==> id in s.finished && (id in s.w.jobs ==> LimitReached(s.w.jobs[id])))
    ensures i < |events| && states[i + 1].counted != states[i].counted ==>
              && events[i].Report? && Base(states[i]) && Enabled(states[i], events[i])
              && states[i].w.tokens[events[i].p].pc in {Run(ReportFirst), Run(ReportLast)}
              && states[i + 1].counted == states[i].counted
                                          + [(states[i].w.tokens[events[i].p].act, states[i].w.tokens[events[i].p].id)]
  {
    CountInvAlways(states, events);
    assert CountInv(states[i]);
    if i < |events| {
      assert Next(states[i], events[i], states[i + 1]);
      CountedAfter(states[i], events[i]);
    }
  }
}

/** WithIntervalFromCompletion: the rest period between runs. */
module Spacing {
  import opened Times
  import opened Jobs
  import opened Worlds
  import opened Protocol
  import opened Effects
  import opened Counting

  /** The shortest interval a schedule answers with. */
  function Rest(schedule: Schedule): int {
    match schedule
    case Duration(d) => d
    case DurationRandom(min, _) => min
    case Other(_) => 0
  }

  predicate RunsLeft(s: State, id: JobId)
    requires id in s.configs
  {
    s.configs[id].limitRunsTo.Some? ==>
      id in s.initial && s.initial[id] + CountOf(s.counted, id) < s.configs[id].limitRunsTo.value
  }

  /** No limit mode, no RunNow and no run limit reached so far. */
  ghost predicate Undisturbed(s: State, id: JobId) {
    && s.limitMode.None? && id in s.configs && id !in s.poked
    && s.configs[id].intervalFromCompletion && s.configs[id].schedule.Valid() && !s.configs[id].schedule.Other?
    && RunsLeft(s, id)
  }

  predicate Returned(pc: Pc) {
    pc in {Run(Finishing), Run(ReportLast)}
  }

  predicate OnlyInLimitMode(pc: Pc) {
    pc in {Offering, Accepted, Queued, Clashed}
  }

  /** A token on its way to the next start will not get there before the rest is over. */
  predicate Rested(pc: Pc, ended: Time, rest: int, now: Time) {
    if pc.Armed? then pc.at >= ended + rest
    else Returned(pc) || pc == Run(Closing) || now >= ended + rest
  }

  /** A timer armed before the cancellation was noticed leads to no start: its message finds no receiver. */
  predicate Stranded(s: State, pc: Pc) {
    s.cancelled && (pc.Armed? || pc.Sending?)
  }

  ghost predicate TokenSpaced(s: State, id: JobId, t: Token)
    requires id in s.configs
  {
    && !OnlyInLimitMode(t.pc)
    && (!t.owes ==> t.pc in {Run(ReportLock), Run(ReportSkip)})
    && (t.owes && id in s.ended && !Stranded(s, t.pc) ==>
          Rested(t.pc, s.ended[id], Rest(s.configs[id].schedule), s.w.now))
  }

  ghost predicate BetweenReturnAndReport(s: State, id: JobId) {
    exists p :: p in s.w.tokens && s.w.tokens[p].id == id && Returned(s.w.tokens[p].pc)
  }

  /** The job's last run, which the next reschedule starts from, is not before its last return. */
  ghost predicate LastRunKnown(s: State, id: JobId) {
    id in s.ended && id in s.w.jobs && !s.cancelled && !BetweenReturnAndReport(s, id) ==>
      s.w.jobs[id].lastRun >= s.ended[id]
  }

  ghost predicate JobSpaced(s: State, id: JobId)
    requires id in s.configs
  {
    && (forall p :: p in s.w.tokens && s.w.tokens[p].id == id ==> TokenSpaced(s, id, s.w.tokens[p]))
    && LastRunKnown(s, id)
  }

  ghost predicate EndedKnown(s: State) {
    forall id :: id in s.ended ==> id in s.configs && ZERO < s.ended[id] <= s.w.now
  }

  ghost predicate Spaced(s: State) {
    EndedKnown(s) && forall id :: Undisturbed(s, id) ==> JobSpaced(s, id)
  }

  // ---- Disturbances are never undone ----

  lemma {:induction false} CountOfMonotone(counted: seq<(nat, JobId)>, x: (nat, JobId), id: JobId)
    ensures CountOf(counted, id) <= CountOf(counted + [x], id)
  {
    CountOfAppend(counted, x, id);
  }

  /** What later states remember: disturbances stay, registrations and counts only grow. */
  ghost predicate Remembers(s: State, s': State) {
    && s'.limitMode == s.limitMode && (s.cancelled ==> s'.cancelled) && s.poked <= s'.poked && s.w.now <= s'.w.now
    && (forall id :: id in s.configs ==> id in s'.configs && s'.configs[id] == s.configs[id])
    && (forall id :: id in s.configs && id in s'.initial ==> id in s.initial && s'.initial[id] == s.initial[id])
    && (forall id :: id in s.configs ==> CountOf(s.counted, id) <= CountOf(s'.counted, id))
  }

  /** Events other than completions and registrations do not touch what is remembered of the runs. */
  lemma RemembersSame(s: State, s': State)
    requires s'.limitMode == s.limitMode && (s.cancelled ==> s'.cancelled) && s.poked <= s'.poked && s.w.now <= s'.w.now
    requires s'.configs == s.configs && s'.initial == s.initial && s'.counted == s.counted
    ensures Remembers(s, s')
  {
  }

  lemma HistoryKept(s: State, e: Event)
    requires Safe(s) && Enabled(s, e)
    ensures Remembers(s, Apply(s, e))
    ensures e.RunNow? ==> e.id in Apply(s, e).poked
    ensures forall id :: id in Apply(s, e).configs && id !in s.configs ==> e.Register? && e.id == id
    ensures e.Return? ==> e.p in s.w.tokens && Apply(s, e).ended == s.ended[s.w.tokens[e.p].id := s.w.now]
    ensures !e.Return? ==> Apply(s, e).ended == s.ended
  {
    hide TimersOwned, OneChain, SentOnce, PokesQuiet, ArmedInOrder, Moved;
    hide Reported, Sent, Registered, Apply, Shrinks, Remembers;
    if e.Report? {
      ReportApplies(s, e);
      ReportRemembers(s, e.p, e.delivered);
    } else if Moves(e) {
      MoveApplies(s, e);
      MovedSame(s, e.p, e);
      MovedHistory(s, e.p, e);
      RemembersSame(s, Moved(s, e.p, e));
    } else if e.Register? {
      RegisterApplies(s, e);
      RegisterRemembers(s, e.id, e.job, e.f);
    } else {
      HistoryElsewhere(s, e);
      OnlyCompletionsTouchRuns(s, e);
      RemembersSame(s, Apply(s, e));
    }
  }

  lemma ReportRemembers(s: State, p: nat, delivered: bool)
    requires Base(s) && p in s.w.tokens && Reports(s.w.tokens[p].pc)
    ensures var s' := Reported(s, p, delivered);
            Remembers(s, s') && s'.configs == s.configs && s'.ended == s.ended
  {
    var t := s.w.tokens[p];
    ReportTouchesRuns(s, p, delivered);
    ReportedFrame(s, p, delivered);
    hide Reported, Base, Put, CountOf;
    forall id | id in s.configs ensures CountOf(s.counted, id) <= CountOf(Reported(s, p, delivered).counted, id) {
      CountOfMonotone(s.counted, (t.act, t.id), id);
    }
  }

  lemma RegisterRemembers(s: State, id: JobId, j: Job, f: Time -> Time)
    requires id !in s.configs
    ensures var s' := Registered(s, id, j, f);
            Remembers(s, s') && s'.configs == s.configs[id := j.config] && s'.ended == s.ended
  {
    hide PrepareFirstRun, StopTimer, CountOf;
  }

  lemma HistoryElsewhere(s: State, e: Event)
    requires Safe(s) && Enabled(s, e) && !Moves(e) && !e.Report? && !e.Register?
    ensures var s' := Apply(s, e);
            && s'.limitMode == s.limitMode && (s.cancelled ==> s'.cancelled) && s.poked <= s'.poked
            && s.w.now <= s'.w.now
            && (e.RunNow? ==> e.id in s'.poked) && s'.configs == s.configs && s'.initial == s.initial
            && s'.ended == s.ended
  {
    hide TimersOwned, OneChain, SentOnce, PokesQuiet, ArmedInOrder, Sent, Apply, Shrinks;
    if e.SendOut? {
      SendApplies(s, e);
      SentRemembers(s, e.p, e.f);
    } else if e.RunNow? {
      LiveToRun(s, e.id);
      RunNowPokes(s, e.id);
    } else {
      EventShrinks(s, e);
      ShrinksFrame(s, Apply(s, e));
    }
  }

  lemma SentRemembers(s: State, p: nat, f: Time -> Time)
    requires s.w.Valid() && p in s.w.tokens
    ensures var s' := Sent(s, p, f);
            && s'.limitMode == s.limitMode && s'.cancelled == s.cancelled && s'.poked == s.poked && s'.w.now == s.w.now
            && s'.configs == s.configs && s'.initial == s.initial && s'.ended == s.ended
  {
    hide Reschedule, AfterSend, StopTimer;
  }

  lemma UndisturbedBefore(s: State, s': State, id: JobId)
    requires Remembers(s, s') && Undisturbed(s', id) && id in s.configs
    ensures Undisturbed(s, id)
  {
    hide CountOf;
  }

  // ---- One event ----

  /** The assumptions that hold of an undisturbed job before an event. */
  ghost predicate JobSpacedAt(s: State, id: JobId) {
    Undisturbed(s, id) && JobSpaced(s, id) && EndedKnown(s)
  }

  lemma JobOf(s: State, id: JobId)
    requires JobSpacedAt(s, id)
    ensures s.limitMode.None? && id !in s.poked && id in s.configs
    ensures s.configs[id].intervalFromCompletion && s.configs[id].schedule.Valid() && !s.configs[id].schedule.Other?
    ensures id in s.ended ==> ZERO < s.ended[id] <= s.w.now
  {
    hide JobSpaced;
  }

  lemma TokenOf(s: State, id: JobId, p: nat)
    requires InPace(s) && JobSpacedAt(s, id) && p in s.w.tokens && s.w.tokens[p].id == id
    ensures id in s.configs && TokenSpaced(s, id, s.w.tokens[p]) && Paced(s.w.tokens[p].pc, true)
  {
    hide TokenSpaced, Paced, LastRunKnown;
  }

  /** What an advancing token of an undisturbed job may become. */
  ghost predicate AdvancesSpaced(s: State, e: Event, t: Token, t': Token)
    requires t.id in s.configs
  {
    && !OnlyInLimitMode(t'.pc)
    && (!t'.owes ==> t'.pc in {Run(ReportLock), Run(ReportSkip)})
    && (t'.owes ==> t.owes)
    && (Returned(t'.pc) ==> e.Return? || e.Finish?)
    && (!e.Return? && t'.owes && t.id in s.ended && !Stranded(s, t'.pc) ==>
          Rested(t'.pc, s.ended[t.id], Rest(s.configs[t.id].schedule), s.w.now))
  }

  lemma MoveKeepsSpacing(s: State, e: Event, t: Token)
    requires t.id in s.configs && Moves(e) && e.p in s.w.tokens && s.w.tokens[e.p] == t && Enabled(s, e)
    requires s.limitMode.None? && s.configs[t.id].intervalFromCompletion
    requires TokenSpaced(s, t.id, t) && Paced(t.pc, true)
    ensures Heir(s, t, e).Some? ==> AdvancesSpaced(s, e, t, Heir(s, t, e).value)
    ensures e.Return? ==> t.owes && Heir(s, t, e).Some? && Heir(s, t, e).value.pc == Run(Finishing)
    ensures e.Finish? ==> Heir(s, t, e).Some? && Heir(s, t, e).value.pc == Run(ReportLast)
  {
    hide Rest;
  }

  lemma SendKeepsSpacing(s: State, t: Token)
    requires t.id in s.configs && Sends(t.pc) && TokenSpaced(s, t.id, t) && Paced(t.pc, true)
    ensures AfterSend(t.pc).Some? ==> AfterSend(t.pc).value in {Run(ReportLock), Run(ReportSkip)}
  {
  }

  lemma ReportKeepsSpacing(s: State, t: Token)
    requires t.id in s.configs && Reports(t.pc) && TokenSpaced(s, t.id, t) && Paced(t.pc, true)
    ensures t.pc != Run(ReportLast) ==> AfterReport(t.pc).None?
    ensures t.pc == Run(ReportLast) ==> AfterReport(t.pc) == Some(Run(Closing)) && t.owes
  {
  }

  /** A reschedule from the last run waits out the rest. */
  lemma RearmWaits(j: Job, f: Time -> Time, now: Time, ended: Time)
    requires Sorted(j.nextScheduled) && j.config.intervalFromCompletion && j.config.schedule.Answers(f)
    requires !j.config.schedule.Other? && j.lastRun >= ended > ZERO
    ensures var r := Reschedule(j, f, now);
            r.Rearm? ==> r.next >= ended + Rest(j.config.schedule)
  {
    var next := f(ScheduleFrom(j, now));
    assert next >= ended + Rest(j.config.schedule);
    AdvanceIsForward(f, next, now);
    var upcoming := AdvancePastNow(f, next, now);
    if upcoming.Some? {
      DuplicatesIsForward(f, j.nextScheduled, upcoming.value);
    }
  }

  /** While one token of the job is at `p`, owing, no other one owes. */
  lemma SoleOwner(s: State, id: JobId, p: nat)
    requires Safe(s) && id in s.configs && s.configs[id].intervalFromCompletion && p in s.w.tokens
    requires s.w.tokens[p].id == id && s.w.tokens[p].owes
    ensures forall q :: q in s.w.tokens && s.w.tokens[q].id == id && s.w.tokens[q].owes ==> q == p
  {
    hide Base, TimersOwned, SentOnce, PokesQuiet, ArmedInOrder;
    assert Owing(s, p);
    forall q | q in s.w.tokens && s.w.tokens[q].id == id && s.w.tokens[q].owes ensures q == p {
      assert Owing(s, q);
    }
  }

  /** A token left alone stays spaced: only its own job's return could matter to it. */
  lemma BystanderSpaced(s: State, s': State, id: JobId, t: Token)
    requires id in s.configs && id in s'.configs && s'.configs[id] == s.configs[id] && TokenSpaced(s, id, t)
    requires s'.w.now >= s.w.now && (s.cancelled ==> s'.cancelled)
    requires t.owes && id in s'.ended ==> id in s.ended && s'.ended[id] == s.ended[id]
    ensures TokenSpaced(s', id, t)
  {
  }

  // ---- A move ----

  lemma HeirSpaced(s: State, e: Event, id: JobId, t': Token, s': State)
    requires Safe(s) && InPace(s) && JobSpacedAt(s, id) && Enabled(s, e) && Moves(e)
    requires e.p in s.w.tokens && s.w.tokens[e.p].id in s.configs && Heir(s, s.w.tokens[e.p], e) == Some(t')
    requires t'.id == id
    requires s'.configs == s.configs && s'.w.now == s.w.now && s'.cancelled == s.cancelled
    requires s'.ended == if e.Return? then s.ended[s.w.tokens[e.p].id := s.w.now] else s.ended
    ensures TokenSpaced(s', id, t')
  {
    var t := s.w.tokens[e.p];
    HeirIsSame(s, t, e);
    JobOf(s, id);
    TokenOf(s, id, e.p);
    MoveKeepsSpacing(s, e, t);
    hide Safe, InPace, JobSpacedAt, Enabled, Heir, Rest, Paced;
  }

  lemma OtherSpaced(s: State, e: Event, id: JobId, q: nat, s': State)
    requires Safe(s) && InPace(s) && JobSpacedAt(s, id) && Enabled(s, e) && Moves(e)
    requires e.p in s.w.tokens && q in s.w.tokens && q != e.p && s.w.tokens[q].id == id
    requires s'.configs == s.configs && s'.w.now == s.w.now && s'.cancelled == s.cancelled
    requires s'.ended == if e.Return? then s.ended[s.w.tokens[e.p].id := s.w.now] else s.ended
    ensures id in s'.configs && TokenSpaced(s', id, s.w.tokens[q])
  {
    JobOf(s, id);
    TokenOf(s, id, q);
    if e.Return? && s.w.tokens[e.p].id == id {
      TokenOf(s, id, e.p);
      MoveKeepsSpacing(s, e, s.w.tokens[e.p]);
      SoleOwner(s, id, e.p);
    }
    hide *;
    BystanderSpaced(s, s', id, s.w.tokens[q]);
  }

  lemma MovedNotes(s: State, p: nat, e: Event)
    requires Moves(e) && p in s.w.tokens && s.w.tokens[p].id in s.configs
    ensures var s' := Moved(s, p, e);
            && s'.configs == s.configs && s'.w.now == s.w.now && s'.cancelled == s.cancelled
            && s'.ended == if e.Return? then s.ended[s.w.tokens[p].id := s.w.now] else s.ended
  {
    MovedSame(s, p, e);
    MovedHistory(s, p, e);
    hide Moved;
  }

  lemma NoFork(s: State, p: nat, e: Event)
    requires p in s.w.tokens && s.w.tokens[p].id in s.configs
    ensures s.configs[s.w.tokens[p].id].intervalFromCompletion ==> !Forks(s, s.w.tokens[p], e)
  {
  }

  lemma TokensAfterMove(s: State, e: Event, id: JobId, q: nat)
    requires Safe(s) && InPace(s) && JobSpacedAt(s, id) && Enabled(s, e) && Moves(e)
    requires q in Moved(s, e.p, e).w.tokens && Moved(s, e.p, e).w.tokens[q].id == id
    ensures id in Moved(s, e.p, e).configs && TokenSpaced(Moved(s, e.p, e), id, Moved(s, e.p, e).w.tokens[q])
  {
    MoverIs(s, e);
    var p := e.p;
    var s' := Moved(s, p, e);
    hide *;
    MovedNotes(s, p, e);
    MovedToken(s, p, e, q);
    SpacedByMove(s, e, p, id, q, s'.w.tokens[q], s');
  }

  lemma SpacedByMove(s: State, e: Event, p: nat, id: JobId, q: nat, t': Token, s': State)
    requires Safe(s) && InPace(s) && JobSpacedAt(s, id) && Enabled(s, e) && Moves(e) && p == e.p
    requires p in s.w.tokens && s.w.tokens[p].id in s.configs && t'.id == id
    requires var t := s.w.tokens[p];
             || (q in s.w.tokens && t' == s.w.tokens[q] && q != p)
             || (q == p && Heir(s, t, e) == Some(t'))
             || (Forks(s, t, e) && t' == t.(pc := SingleQueued))
    requires s'.configs == s.configs && s'.w.now == s.w.now && s'.cancelled == s.cancelled
    requires s'.ended == if e.Return? then s.ended[s.w.tokens[p].id := s.w.now] else s.ended
    ensures id in s'.configs && TokenSpaced(s', id, t')
  {
    hide Safe, InPace, JobSpacedAt, Enabled, Heir, Forks, TokenSpaced;
    JobOf(s, id);
    NoFork(s, p, e);
    if q == p && Heir(s, s.w.tokens[p], e) == Some(t') {
      HeirSpaced(s, e, id, t', s');
    } else {
      OtherSpaced(s, e, id, q, s');
    }
  }

  /** Only its report takes a returned run out of the window between return and report. */
  lemma StillReturned(s: State, e: Event, p: nat)
    requires Base(s) && Enabled(s, e) && Moves(e) && p in s.w.tokens && Returned(s.w.tokens[p].pc)
    requires s.w.tokens[p].id in s.configs && s.configs[s.w.tokens[p].id].intervalFromCompletion
    ensures var s' := Moved(s, e.p, e);
            p in s'.w.tokens && s'.w.tokens[p].id == s.w.tokens[p].id && Returned(s'.w.tokens[p].pc)
  {
    MoverIs(s, e);
    if p == e.p {
      FinishStaysReturned(s, e);
    }
    hide Base, Enabled, Heir, Moved;
    MovedTokens(s, e.p, e);
  }

  lemma FinishStaysReturned(s: State, e: Event)
    requires Base(s) && Enabled(s, e) && Moves(e) && Returned(s.w.tokens[e.p].pc)
    requires s.w.tokens[e.p].id in s.configs && s.configs[s.w.tokens[e.p].id].intervalFromCompletion
    ensures var heir := Heir(s, s.w.tokens[e.p], e);
            heir.Some? && heir.value.id == s.w.tokens[e.p].id && Returned(heir.value.pc)
  {
    assert e.Finish?;
    hide Base;
  }

  /** The return itself opens that window. */
  lemma ReturnOpens(s: State, e: Event, id: JobId)
    requires Safe(s) && InPace(s) && JobSpacedAt(s, id) && Enabled(s, e) && e.Return? && s.w.tokens[e.p].id == id
    ensures BetweenReturnAndReport(Moved(s, e.p, e), id)
  {
    var s' := Moved(s, e.p, e);
    MoverIs(s, e);
    JobOf(s, id);
    TokenOf(s, id, e.p);
    MoveKeepsSpacing(s, e, s.w.tokens[e.p]);
    hide Safe, InPace, JobSpacedAt, Enabled, Moved, Heir, Paced, TokenSpaced;
    MovedTokens(s, e.p, e);
    HeirIsSame(s, s.w.tokens[e.p], e);
    assert s'.w.tokens[e.p].id == id && Returned(s'.w.tokens[e.p].pc);
  }

  lemma LastRunAfterMove(s: State, e: Event, id: JobId)
    requires Safe(s) && InPace(s) && JobSpacedAt(s, id) && Enabled(s, e) && Moves(e)
    ensures LastRunKnown(Moved(s, e.p, e), id)
  {
    MoverIs(s, e);
    JobOf(s, id);
    if e.Return? && s.w.tokens[e.p].id == id {
      ReturnOpens(s, e, id);
    } else {
      if BetweenReturnAndReport(s, id) {
        var p :| p in s.w.tokens && s.w.tokens[p].id == id && Returned(s.w.tokens[p].pc);
        StillReturned(s, e, p);
      }
      hide Moved, Enabled, Safe, InPace, TokenSpaced, Undisturbed, Returned;
      MovedSame(s, e.p, e);
      MovedHistory(s, e.p, e);
    }
  }

  lemma SpacedAfterMove(s: State, e: Event, id: JobId)
    requires Safe(s) && InPace(s) && JobSpacedAt(s, id) && Enabled(s, e) && Moves(e)
    ensures id in Moved(s, e.p, e).configs && JobSpaced(Moved(s, e.p, e), id)
  {
    var s' := Moved(s, e.p, e);
    JobOf(s, id);
    MovedSame(s, e.p, e);
    LastRunAfterMove(s, e, id);
    hide Moved, TokenSpaced, LastRunKnown, Safe, InPace, JobSpacedAt, Enabled;
    forall q | q in s'.w.tokens && s'.w.tokens[q].id == id ensures TokenSpaced(s', id, s'.w.tokens[q]) {
      TokensAfterMove(s, e, id, q);
    }
  }

  // ---- A reschedule ----

  /** At a reschedule of the job itself nothing is between return and report, so the last run is known. */
  lemma SenderKnowsLastRun(s: State, id: JobId, p: nat)
    requires Safe(s) && JobSpacedAt(s, id) && p in s.w.tokens && s.w.tokens[p].id == id && s.w.tokens[p].owes
    requires Sends(s.w.tokens[p].pc)
    ensures id in s.ended && id in s.w.jobs && !s.cancelled ==> s.w.jobs[id].lastRun >= s.ended[id]
  {
    SoleOwner(s, id, p);
    hide Safe;
    forall q | q in s.w.tokens && s.w.tokens[q].id == id ensures !Returned(s.w.tokens[q].pc) {
      assert TokenSpaced(s, id, s.w.tokens[q]);
    }
  }

  lemma NewTimerWaits(s: State, p: nat, f: Time -> Time, id: JobId)
    requires Safe(s) && JobSpacedAt(s, id) && Enabled(s, SendOut(p, f)) && s.w.tokens[p].id == id && id in s.ended
    ensures Answer(s, id, f).Rearm? && !s.cancelled ==>
              Answer(s, id, f).next >= s.ended[id] + Rest(s.configs[id].schedule)
  {
    if id in s.w.jobs && !s.cancelled {
      JobOf(s, id);
      SenderKnowsLastRun(s, id, p);
      hide JobSpacedAt, TimersOwned, OneChain, SentOnce, PokesQuiet, ArmedInOrder;
      RearmWaits(s.w.jobs[id], f, s.w.now, s.ended[id]);
    }
  }

  /**
    What a reschedule leaves of its own job: the sender on its way out, and perhaps a timer that waits out
    the rest.
  */
  lemma OwnTokenAfterSend(s: State, p: nat, f: Time -> Time, id: JobId, q: nat, s': State)
    requires Safe(s) && InPace(s) && JobSpacedAt(s, id) && Enabled(s, SendOut(p, f)) && s.w.tokens[p].id == id
    requires q in Sent(s, p, f).w.tokens && s'.configs == s.configs && s'.ended == s.ended && s'.w.now == s.w.now
    requires s'.cancelled == s.cancelled
    requires Sent(s, p, f).w.tokens[q].id == id
    ensures TokenSpaced(s', id, Sent(s, p, f).w.tokens[q])
  {
    SenderIs(s, p, f);
    hide Safe, InPace, JobSpacedAt, Enabled, Sent, Answer, AfterSend, TokenSpaced;
    SentToken(s, p, f, q);
    SpacedBySend(s, p, f, id, q, Sent(s, p, f).w.tokens[q], s');
  }

  lemma SpacedBySend(s: State, p: nat, f: Time -> Time, id: JobId, q: nat, t': Token, s': State)
    requires Safe(s) && s.w.Valid() && InPace(s) && JobSpacedAt(s, id) && Enabled(s, SendOut(p, f))
    requires p in s.w.tokens && s.w.tokens[p].id == id && Sends(s.w.tokens[p].pc) && t'.id == id
    requires s'.configs == s.configs && s'.ended == s.ended && s'.w.now == s.w.now && s'.cancelled == s.cancelled
    requires var t := s.w.tokens[p];
             || (q in s.w.tokens && t' == s.w.tokens[q] && q != p)
             || (q == p && AfterSend(t.pc).Some? && t' == t.(owes := false, pc := AfterSend(t.pc).value))
             || (Answer(s, id, f).Rearm? && t' == Token(id, q, true, Armed(Answer(s, id, f).next)))
    ensures id in s'.configs && TokenSpaced(s', id, t')
  {
    var t := s.w.tokens[p];
    hide Safe, InPace, JobSpacedAt, Enabled, Answer, AfterSend, TokenSpaced;
    JobOf(s, id);
    if q in s.w.tokens && t' == s.w.tokens[q] && q != p {
      TokenOf(s, id, q);
      BystanderSpaced(s, s', id, t');
    } else if q == p && AfterSend(t.pc) == Some(t'.pc) && !t'.owes {
      TokenOf(s, id, p);
      SendKeepsSpacing(s, t);
      QuietSpaced(s', id, t');
    } else {
      if id in s.ended {
        NewTimerWaits(s, p, f, id);
      }
      TimerSpaced(s', id, t');
    }
  }

  lemma SenderIs(s: State, p: nat, f: Time -> Time)
    requires Safe(s) && Enabled(s, SendOut(p, f))
    ensures s.w.Valid() && Base(s) && p in s.w.tokens && Sends(s.w.tokens[p].pc) && s.w.tokens[p].owes
  {
    hide TimersOwned, OneChain, SentOnce, PokesQuiet, ArmedInOrder;
  }

  lemma QuietSpaced(s: State, id: JobId, t: Token)
    requires id in s.configs && !t.owes && t.pc in {Run(ReportLock), Run(ReportSkip)}
    ensures TokenSpaced(s, id, t)
  {
  }

  lemma TimerSpaced(s: State, id: JobId, t: Token)
    requires id in s.configs && t.owes && t.pc.Armed?
    requires id in s.ended && !s.cancelled ==> t.pc.at >= s.ended[id] + Rest(s.configs[id].schedule)
    ensures TokenSpaced(s, id, t)
  {
  }

  lemma TokensAfterSend(s: State, p: nat, f: Time -> Time, id: JobId, q: nat)
    requires Safe(s) && InPace(s) && JobSpacedAt(s, id) && Enabled(s, SendOut(p, f))
    requires q in Sent(s, p, f).w.tokens && Sent(s, p, f).w.tokens[q].id == id
    ensures id in Sent(s, p, f).configs && TokenSpaced(Sent(s, p, f), id, Sent(s, p, f).w.tokens[q])
  {
    var s' := Sent(s, p, f);
    SentRemembers(s, p, f);
    JobOf(s, id);
    hide InPace, JobSpacedAt, Sent, TokenSpaced, TimersOwned, OneChain, SentOnce, PokesQuiet, ArmedInOrder;
    if s.w.tokens[p].id == id {
      OwnTokenAfterSend(s, p, f, id, q, s');
    } else {
      SentToken(s, p, f, q);
      TokenOf(s, id, q);
      BystanderSpaced(s, s', id, s'.w.tokens[q]);
    }
  }

  lemma LastRunAfterSend(s: State, p: nat, f: Time -> Time, id: JobId)
    requires Safe(s) && JobSpacedAt(s, id) && Enabled(s, SendOut(p, f))
    ensures LastRunKnown(Sent(s, p, f), id)
  {
    var s', t := Sent(s, p, f), s.w.tokens[p];
    SendTouchesNoRuns(s, p, f);
    SentRemembers(s, p, f);
    OthersAfterSent(s, p, f);
    if t.id == id {
      SenderKnowsLastRun(s, id, p);
    } else if BetweenReturnAndReport(s, id) {
      var q :| q in s.w.tokens && s.w.tokens[q].id == id && Returned(s.w.tokens[q].pc);
      assert q in s'.w.tokens && s'.w.tokens[q] == s.w.tokens[q];
    }
    hide Sent, OneChain, SentOnce, PokesQuiet, ArmedInOrder, TimersOwned, Enabled, TokenSpaced, Undisturbed, Returned;
  }

  lemma SpacedAfterSend(s: State, p: nat, f: Time -> Time, id: JobId)
    requires Safe(s) && InPace(s) && JobSpacedAt(s, id) && Enabled(s, SendOut(p, f))
    ensures id in Sent(s, p, f).configs && JobSpaced(Sent(s, p, f), id)
  {
    var s' := Sent(s, p, f);
    SentRemembers(s, p, f);
    JobOf(s, id);
    LastRunAfterSend(s, p, f, id);
    hide Sent, TokenSpaced, LastRunKnown, Safe, InPace, JobSpacedAt, Enabled;
    forall q | q in s'.w.tokens && s'.w.tokens[q].id == id ensures TokenSpaced(s', id, s'.w.tokens[q]) {
      TokensAfterSend(s, p, f, id, q);
    }
  }

  // ---- A report ----

  lemma TokensAfterReport(s: State, p: nat, delivered: bool, id: JobId, q: nat)
    requires Safe(s) && InPace(s) && JobSpacedAt(s, id) && Enabled(s, Report(p, delivered))
    requires q in Reported(s, p, delivered).w.tokens && Reported(s, p, delivered).w.tokens[q].id == id
    ensures id in Reported(s, p, delivered).configs
    ensures TokenSpaced(Reported(s, p, delivered), id, Reported(s, p, delivered).w.tokens[q])
  {
    var s' := Reported(s, p, delivered);
    assert p in s.w.tokens && Reports(s.w.tokens[p].pc);
    hide Reported, Safe, InPace, JobSpacedAt, AfterReport, TokenSpaced, Enabled;
    JobOf(s, id);
    ReportedConfigs(s, p, delivered);
    TokenOf(s, id, q);
    if q != p {
      BystanderSpaced(s, s', id, s'.w.tokens[q]);
    } else {
      ReporterSpaced(s, id, s.w.tokens[p], s');
    }
  }

  lemma ReporterSpaced(s: State, id: JobId, t: Token, s': State)
    requires id in s.configs && s'.configs == s.configs && s'.cancelled == s.cancelled && t.id == id
    requires Reports(t.pc) && TokenSpaced(s, id, t)
    requires Paced(t.pc, true)
    ensures AfterReport(t.pc).Some? ==> TokenSpaced(s', id, t.(pc := AfterReport(t.pc).value))
  {
    ReportKeepsSpacing(s, t);
    hide Rest, Paced;
  }

  /** A report other than that of a returned run leaves the window and the last run alone. */
  lemma LastRunUntouched(s: State, p: nat, delivered: bool, id: JobId)
    requires InPace(s) && JobSpacedAt(s, id) && Base(s) && p in s.w.tokens && Reports(s.w.tokens[p].pc)
    requires s.w.tokens[p].id == id ==> s.w.tokens[p].pc in {Run(ReportLock), Run(ReportSkip)}
    ensures LastRunKnown(Reported(s, p, delivered), id)
  {
    var s' := Reported(s, p, delivered);
    ReportedFrame(s, p, delivered);
    ReportTouchesRuns(s, p, delivered);
    hide Reported, AfterReport, InPace, Base, Undisturbed, TokenSpaced, LimitReached;
    if BetweenReturnAndReport(s, id) {
      var q :| q in s.w.tokens && s.w.tokens[q].id == id && Returned(s.w.tokens[q].pc);
      assert q != p && s'.w.tokens[q] == s.w.tokens[q];
    }
  }

  /** The report of a returned run moves the last run to now, unless the run limit is reached. */
  lemma LastRunMoves(s: State, p: nat, delivered: bool, id: JobId)
    requires JobSpacedAt(s, id) && Base(s) && p in s.w.tokens && s.w.tokens[p].pc == Run(ReportLast)
    requires s.w.tokens[p].id == id
    requires Enabled(s, Report(p, delivered)) && Tallied(Reported(s, p, delivered))
    requires Undisturbed(Reported(s, p, delivered), id)
    ensures LastRunKnown(Reported(s, p, delivered), id)
  {
    var s' := Reported(s, p, delivered);
    JobOf(s, id);
    assert delivered || s.cancelled;
    assert s'.cancelled == s.cancelled;
    ReportedFrame(s, p, delivered);
    ReportTouchesRuns(s, p, delivered);
    assert id in s'.w.jobs ==> s'.w.jobs[id].config == s.configs[id];
    hide Reported, AfterReport, Base, JobSpacedAt, CountOf, Put, Enabled;
    if id in s'.w.jobs && delivered {
      assert !LimitReached(s'.w.jobs[id]);
    }
  }

  lemma SpacedAfterReport(s: State, p: nat, delivered: bool, id: JobId)
    requires Safe(s) && InPace(s) && JobSpacedAt(s, id) && Enabled(s, Report(p, delivered))
    requires Tallied(Reported(s, p, delivered)) && Undisturbed(Reported(s, p, delivered), id)
    ensures JobSpaced(Reported(s, p, delivered), id)
  {
    var s', t := Reported(s, p, delivered), s.w.tokens[p];
    hide Reported, TokenSpaced, LastRunKnown, TimersOwned, OneChain;
    hide SentOnce, PokesQuiet, ArmedInOrder, JobSpacedAt, InPace;
    JobOf(s, id);
    ReportedConfigs(s, p, delivered);
    if t.id == id {
      TokenOf(s, id, p);
    }
    if t.id == id && t.pc == Run(ReportLast) {
      LastRunMoves(s, p, delivered, id);
    } else {
      NotReportFirst(t.pc, t.id == id);
      LastRunUntouched(s, p, delivered, id);
    }
    forall q | q in s'.w.tokens && s'.w.tokens[q].id == id ensures TokenSpaced(s', id, s'.w.tokens[q]) {
      TokensAfterReport(s, p, delivered, id, q);
    }
  }

  lemma ReportedConfigs(s: State, p: nat, delivered: bool)
    requires p in s.w.tokens && Reports(s.w.tokens[p].pc)
    ensures var s' := Reported(s, p, delivered);
            && s'.configs == s.configs && s'.ended == s.ended && s'.w.now == s.w.now && s'.cancelled == s.cancelled
            && (forall q :: q in s'.w.tokens && q != p ==> q in s.w.tokens && s'.w.tokens[q] == s.w.tokens[q])
            && (p in s'.w.tokens ==> AfterReport(s.w.tokens[p].pc).Some?
                                     && s'.w.tokens[p] == s.w.tokens[p].(pc := AfterReport(s.w.tokens[p].pc).value))
  {
    ReportedFrame(s, p, delivered);
    hide Reported, AfterReport;
  }

  lemma NotReportFirst(pc: Pc, own: bool)
    requires Reports(pc) && (own ==> Paced(pc, true) && pc != Run(ReportLast))
    ensures own ==> pc in {Run(ReportLock), Run(ReportSkip)}
  {
  }

  // ---- The other events ----

  lemma SpacedAfterShrinking(s: State, s': State, id: JobId)
    requires JobSpacedAt(s, id) && Shrinks(s, s') && RunsUntouched(s, s')
    ensures JobSpaced(s', id)
  {
    JobOf(s, id);
    hide TokenSpaced, Undisturbed;
    forall q | q in s'.w.tokens && s'.w.tokens[q].id == id ensures TokenSpaced(s', id, s'.w.tokens[q]) {
      BystanderSpaced(s, s', id, s'.w.tokens[q]);
    }
    if id in s'.w.jobs && BetweenReturnAndReport(s, id) {
      var q :| q in s.w.tokens && s.w.tokens[q].id == id && Returned(s.w.tokens[q].pc);
      assert q in s'.w.tokens && s'.w.tokens[q] == s.w.tokens[q];
    }
  }

  /** The job and its tokens are left alone. */
  ghost predicate LeftAlone(s: State, s': State, id: JobId) {
    && s'.w.now == s.w.now && s'.cancelled == s.cancelled && s'.ended == s.ended
    && id in s'.configs && id in s.configs
    && s'.configs[id] == s.configs[id]
    && (id in s'.w.jobs ==> id in s.w.jobs && s'.w.jobs[id] == s.w.jobs[id])
    && (forall q :: q in s.w.tokens && s.w.tokens[q].id == id ==> q in s'.w.tokens && s'.w.tokens[q] == s.w.tokens[q])
    && (forall q :: q in s'.w.tokens && s'.w.tokens[q].id == id ==> q in s.w.tokens && s'.w.tokens[q] == s.w.tokens[q])
  }

  lemma SpacedWhenLeftAlone(s: State, s': State, id: JobId)
    requires JobSpacedAt(s, id) && LeftAlone(s, s', id)
    ensures JobSpaced(s', id)
  {
    hide TokenSpaced, Undisturbed;
    forall q | q in s'.w.tokens && s'.w.tokens[q].id == id ensures TokenSpaced(s', id, s'.w.tokens[q]) {
      BystanderSpaced(s, s', id, s'.w.tokens[q]);
    }
    if BetweenReturnAndReport(s, id) {
      var q :| q in s.w.tokens && s.w.tokens[q].id == id && Returned(s.w.tokens[q].pc);
      assert q in s'.w.tokens && s'.w.tokens[q] == s.w.tokens[q];
    }
  }

  lemma RunNowLeavesAlone(s: State, x: JobId, id: JobId)
    requires Base(s) && id in s.configs && x != id
    ensures LeftAlone(s, Poked(s, x), id)
  {
    assert s.w.nextId !in s.w.tokens;
  }

  lemma RegisterLeavesAlone(s: State, x: JobId, j: Job, f: Time -> Time, id: JobId)
    requires Base(s) && Enabled(s, Register(x, j, f)) && id in s.configs && x != id
    ensures LeftAlone(s, Registered(s, x, j, f), id)
  {
    assert s.w.nextId !in s.w.tokens;
    hide PrepareFirstRun, Begun;
  }

  /** A job that has only just been registered has no tokens but its first, and never ran. */
  lemma SpacedWhenRegistered(s: State, id: JobId, j: Job, f: Time -> Time)
    requires Base(s) && EndedKnown(s) && Enabled(s, Register(id, j, f))
    ensures id in Registered(s, id, j, f).configs && JobSpaced(Registered(s, id, j, f), id)
  {
    var s' := Registered(s, id, j, f);
    assert id !in s.ended;
    NewTokensOnly(s, id, j, f);
    hide Registered, Base, EndedKnown;
  }

  lemma NewTokensOnly(s: State, id: JobId, j: Job, f: Time -> Time)
    requires Base(s) && Enabled(s, Register(id, j, f))
    ensures var s' := Registered(s, id, j, f);
            && id in s'.configs && s'.ended == s.ended
            && forall q :: q in s'.w.tokens && s'.w.tokens[q].id == id ==>
                             s'.w.tokens[q].owes && (s'.w.tokens[q].pc.Armed? || s'.w.tokens[q].pc.Sending?)
  {
    assert forall q :: q in s.w.tokens ==> s.w.tokens[q].id != id;
    hide PrepareFirstRun, Begun;
  }

  lemma JobSpacedKept(s: State, e: Event, id: JobId)
    requires CountInv(s) && Spaced(s) && Enabled(s, e) && Tallied(Apply(s, e)) && Undisturbed(Apply(s, e), id)
    ensures JobSpaced(Apply(s, e), id)
  {
    assert s.w.Valid() && Safe(s) && InPace(s) && EndedKnown(s);
    assert id in Apply(s, e).configs;
    HistoryKept(s, e);
    if id in s.configs {
      UndisturbedBefore(s, Apply(s, e), id);
      assert JobSpacedAt(s, id);
      hide *;
      KnownJobSpacedKept(s, e, id);
    } else {
      hide CountInv, Undisturbed, Safe, EndedKnown, Apply, JobSpaced;
      NewJobSpaced(s, e);
    }
  }

  lemma NewJobSpaced(s: State, e: Event)
    requires Safe(s) && EndedKnown(s) && Enabled(s, e) && e.Register?
    ensures e.id in Apply(s, e).configs && JobSpaced(Apply(s, e), e.id)
  {
    hide JobSpaced, Registered, TimersOwned, OneChain, SentOnce, PokesQuiet, ArmedInOrder, EndedKnown;
    RegisterApplies(s, e);
    SpacedWhenRegistered(s, e.id, e.job, e.f);
  }

  lemma KnownJobSpacedKept(s: State, e: Event, id: JobId)
    requires Safe(s) && InPace(s) && JobSpacedAt(s, id) && Enabled(s, e) && Tallied(Apply(s, e))
    requires Undisturbed(Apply(s, e), id)
    ensures JobSpaced(Apply(s, e), id)
  {
    hide TimersOwned, OneChain, SentOnce, PokesQuiet, ArmedInOrder;
    hide Moved, Sent, Reported, JobSpaced, Apply, JobSpacedAt;
    hide InPace, Tallied;
    if Moves(e) {
      MoveApplies(s, e);
      SpacedAfterMove(s, e, id);
    } else if e.SendOut? {
      SendApplies(s, e);
      SpacedAfterSend(s, e.p, e.f, id);
    } else if e.Report? {
      ReportApplies(s, e);
      SpacedAfterReport(s, e.p, e.delivered, id);
    } else {
      HandlerSpaced(s, e, id);
    }
  }

  lemma HandlerSpaced(s: State, e: Event, id: JobId)
    requires Safe(s) && JobSpacedAt(s, id) && Enabled(s, e) && Undisturbed(Apply(s, e), id)
    requires !Moves(e) && !e.SendOut? && !e.Report?
    ensures JobSpaced(Apply(s, e), id)
  {
    JobOf(s, id);
    hide TimersOwned, OneChain, SentOnce, PokesQuiet, ArmedInOrder;
    hide JobSpaced, Apply, JobSpacedAt, Shrinks, Registered, Poked;
    hide LeftAlone;
    hide Remembers, Enabled, RunsLeft;
    if e.Register? {
      RegisterApplies(s, e);
      RegisterLeavesAlone(s, e.id, e.job, e.f, id);
      SpacedWhenLeftAlone(s, Registered(s, e.id, e.job, e.f), id);
    } else if e.RunNow? {
      assert e.id != id by { HistoryKept(s, e); }
      LiveToRun(s, e.id);
      RunNowPokes(s, e.id);
      RunNowLeavesAlone(s, e.id, id);
      SpacedWhenLeftAlone(s, Poked(s, e.id), id);
    } else {
      EventShrinks(s, e);
      OnlyCompletionsTouchRuns(s, e);
      SpacedAfterShrinking(s, Apply(s, e), id);
    }
  }

  lemma EndedKnownKept(s: State, e: Event)
    requires Safe(s) && EndedKnown(s) && Enabled(s, e)
    ensures EndedKnown(Apply(s, e))
  {
    HistoryKept(s, e);
    ReturnerKnown(s, e);
    hide Apply, CountOf, Safe, Enabled;
  }

  lemma ReturnerKnown(s: State, e: Event)
    requires Safe(s) && Enabled(s, e)
    ensures s.w.now > ZERO && (e.Return? ==> e.p in s.w.tokens && s.w.tokens[e.p].id in s.configs)
  {
    hide TimersOwned, OneChain, SentOnce, PokesQuiet, ArmedInOrder;
  }

  // ---- Whole executions ----

  ghost predicate SpaceInv(s: State) {
    CountInv(s) && Spaced(s)
  }

  lemma SpaceInvKept(s: State, e: Event)
    requires SpaceInv(s) && Enabled(s, e)
    ensures SpaceInv(Apply(s, e))
  {
    CountInvKept(s, e);
    EndedKnownKept(s, e);
    forall id | Undisturbed(Apply(s, e), id) ensures JobSpaced(Apply(s, e), id) {
      JobSpacedKept(s, e, id);
    }
    hide CountInv, Undisturbed, JobSpaced, EndedKnown, Apply;
  }

  lemma SpaceInvInitially(s: State)
    requires Initial(s)
    ensures SpaceInv(s)
  {
  }

  lemma SpaceInvNext(s: State, e: Event, s': State)
    requires SpaceInv(s) && Next(s, e, s')
    ensures SpaceInv(s')
  {
    SpaceInvKept(s, e);
  }

  lemma {:induction false} SpaceInvAlways(states: seq<State>, events: seq<Event>)
    requires Execution(states, events)
    ensures forall i :: 0 <= i < |states| ==> SpaceInv(states[i])
  {
    hide SpaceInv, Initial, Next;
    if events == [] {
      SpaceInvInitially(states[0]);
    } else {
      var n := |events| - 1;
      assert forall i :: 0 <= i < n ==>
                           Next(states[i], events[i], states[i + 1])
                           && Next(states[..n + 1][i], events[..n][i], states[..n + 1][i + 1]);
      SpaceInvAlways(states[..n + 1], events[..n]);
      assert SpaceInv(states[..n + 1][n]);
      SpaceInvNext(states[n], events[n], states[n + 1]);
      assert forall i :: 0 <= i <= n ==> states[..n + 1][i] == states[i];
    }
  }

  /**
    Without limit mode, RunNow or a used-up run limit, a run of a job with interval from completion starts
    no earlier than its rest after the last return of the job's function, however many skipped runs lie
    between, cancelled or not, and never while another run is in progress.
  */
  lemma RestBetweenRuns(states: seq<State>, events: seq<Event>, i: nat, p: nat)
    requires Execution(states, events) && i < |events| && events[i] == Announce(p)
    requires p in states[i].w.tokens && Undisturbed(states[i], states[i].w.tokens[p].id)
    ensures var s, id := states[i], states[i].w.tokens[p].id;
            && (id in s.ended ==> s.w.now >= s.ended[id] + Rest(s.configs[id].schedule))
            && (forall q :: q in s.w.tokens && s.w.tokens[q].id == id && q != p ==>
                              s.w.tokens[q].pc in {Run(ReportLock), Run(ReportSkip)})
  {
    SpaceInvAlways(states, events);
    assert SpaceInv(states[i]) && Next(states[i], events[i], states[i + 1]);
    hide Execution;
    StartsRested(states[i], p);
  }

  lemma StartsRested(s: State, p: nat)
    requires SpaceInv(s) && Enabled(s, Announce(p)) && Undisturbed(s, s.w.tokens[p].id)
    ensures var id := s.w.tokens[p].id;
            && (id in s.ended ==> s.w.now >= s.ended[id] + Rest(s.configs[id].schedule))
            && (forall q :: q in s.w.tokens && s.w.tokens[q].id == id && q != p ==>
                              s.w.tokens[q].pc in {Run(ReportLock), Run(ReportSkip)})
  {
    var id := s.w.tokens[p].id;
    assert TokenSpaced(s, id, s.w.tokens[p]);
    SoleOwner(s, id, p);
    hide Safe, Settled, Unbroken, InPace, CountedOnce, Tallied, ReapedFairly, LastRunKnown, Rest;
    forall q | q in s.w.tokens && s.w.tokens[q].id == id && q != p
      ensures s.w.tokens[q].pc in {Run(ReportLock), Run(ReportSkip)} {
      assert TokenSpaced(s, id, s.w.tokens[q]);
    }
  }

  /** When a run of such a job returns, the instant is recorded: `ended` is the last return. */
  lemma ReturnsAreRecorded(states: seq<State>, events: seq<Event>, i: nat)
    requires Execution(states, events) && i < |events|
    ensures Base(states[i]) && Enabled(states[i], events[i])
    ensures var s, e := states[i], events[i];
            states[i + 1].ended == if e.Return? then s.ended[s.w.tokens[e.p].id := s.w.now] else s.ended
  {
    InvAlways(states, events);
    assert Inv(states[i]) && Next(states[i], events[i], states[i + 1]);
    hide Execution;
    HistoryKept(states[i], events[i]);
  }
}
