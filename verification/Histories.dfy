/** What the protocol's state remembers is what its events did: each record grows with its own event only. */
module Histories {
  import opened Times
  import opened Jobs
  import opened Worlds
  import opened Protocol
  import opened Effects

  /** Reschedule messages are recorded when they are sent, RunNow activations when they are made. */
  ghost predicate MessagesRecorded(s: State, e: Event, s': State) {
    && (e.SendOut? ==> e.p in s.w.tokens && s.w.tokens[e.p].owes && s'.sent == s.sent + [s.w.tokens[e.p].act])
    && (!e.SendOut? ==> s'.sent == s.sent)
    && s'.pokes == s.pokes + (if e.RunNow? then {s.w.nextId} else {})
    && s'.poked == s.poked + (if e.RunNow? then {e.id} else {})
    && (e.RunNow? ==> s.w.nextId in s'.w.tokens && s'.w.tokens[s.w.nextId].act == s.w.nextId
                      && s'.w.tokens[s.w.nextId].id == e.id)
    && s'.initial == if e.Register? then s.initial[e.id := e.job.runCount] else s.initial
  }

  /** A job counts as exhausted when its schedule answers zero to where its reschedule goes on from. */
  ghost predicate ExhaustionTrue(s: State, e: Event, s': State) {
    && s.exhausted <= s'.exhausted
    && forall id :: id in s'.exhausted && id !in s.exhausted ==>
                      && e.SendOut? && e.p in s.w.tokens && s.w.tokens[e.p].id == id && id in s.w.jobs
                      && forall from :: GoesOnFrom(s.w.jobs[id], s.w.now, from) ==> e.f(from) == ZERO
  }

  /** The instant recorded as armed last is one that the event has just listed for the job, and armed or dispatched. */
  ghost predicate ArmingTrue(s: State, e: Event, s': State) {
    forall id :: id in s'.armed && !(id in s.armed && s.armed[id] == s'.armed[id]) ==>
                   && id in s'.w.jobs && s'.armed[id] in s'.w.jobs[id].nextScheduled
                   && s.w.nextId in s'.w.tokens && s'.w.tokens[s.w.nextId].id == id
                   && s'.w.tokens[s.w.nextId].owes
                   && (s'.w.tokens[s.w.nextId].pc == Armed(s'.armed[id])
                       || (e.Register? && s'.w.tokens[s.w.nextId].pc == Sending))
  }

  lemma MessagesRecordedBy(s: State, e: Event)
    requires Safe(s) && Enabled(s, e)
    ensures MessagesRecorded(s, e, Apply(s, e))
  {
    hide TimersOwned, OneChain, SentOnce, PokesQuiet, ArmedInOrder, Moved, Reported, Sent, Registered, Apply;
    hide MessagesRecorded;
    if Moves(e) {
      MoveApplies(s, e);
      MovedRecords(s, e.p, e);
    } else if e.Report? {
      ReportApplies(s, e);
      ReportedRecords(s, e.p, e.delivered);
    } else if e.SendOut? {
      SendApplies(s, e);
      SentRecords(s, e.p, e.f);
    } else if e.Register? {
      RegisterApplies(s, e);
      RegisteredRecords(s, e.id, e.job, e.f);
    } else if e.RunNow? {
      LiveJob(s, e.id);
      RunNowPokes(s, e.id);
      PokedRecords(s, e.id);
    } else {
      EventShrinks(s, e);
      ShrinksRecords(s, e, Apply(s, e));
    }
  }

  lemma LiveJob(s: State, id: JobId)
    requires Enabled(s, RunNow(id))
    ensures id in s.w.jobs
  {
  }

  lemma MovedRecords(s: State, p: nat, e: Event)
    requires Moves(e) && p in s.w.tokens && s.w.tokens[p].id in s.configs
    ensures MessagesRecorded(s, e, Moved(s, p, e))
    ensures Moved(s, p, e).exhausted == s.exhausted && Moved(s, p, e).armed == s.armed
  {
    hide NextPc, NextOwes, Forks;
  }

  lemma ReportedRecords(s: State, p: nat, delivered: bool)
    requires p in s.w.tokens && Reports(s.w.tokens[p].pc)
    ensures MessagesRecorded(s, Report(p, delivered), Reported(s, p, delivered))
  {
    ReportedFrame(s, p, delivered);
    hide Reported;
  }

  lemma PokedRecords(s: State, id: JobId)
    ensures MessagesRecorded(s, RunNow(id), Poked(s, id))
  {
  }

  lemma SentRecords(s: State, p: nat, f: Time -> Time)
    requires s.w.Valid() && p in s.w.tokens && s.w.tokens[p].owes
    ensures MessagesRecorded(s, SendOut(p, f), Sent(s, p, f))
  {
    hide Reschedule, OnReschedule, AfterSend;
  }

  lemma RegisteredRecords(s: State, id: JobId, j: Job, f: Time -> Time)
    ensures MessagesRecorded(s, Register(id, j, f), Registered(s, id, j, f))
    ensures Registered(s, id, j, f).exhausted == s.exhausted
  {
    hide OnBegin, PrepareFirstRun;
  }

  lemma ShrinksRecords(s: State, e: Event, s': State)
    requires Shrinks(s, s') && !e.SendOut? && !e.RunNow? && !e.Register?
    ensures MessagesRecorded(s, e, s') && s'.armed == s.armed
  {
  }

  lemma ExhaustionTrueOf(s: State, e: Event)
    requires Safe(s) && Enabled(s, e)
    ensures ExhaustionTrue(s, e, Apply(s, e))
  {
    hide TimersOwned, OneChain, SentOnce, PokesQuiet, ArmedInOrder, Moved, Reported, Sent, Registered, Apply;
    hide ExhaustionTrue, MessagesRecorded;
    if Moves(e) {
      MoveApplies(s, e);
      MovedRecords(s, e.p, e);
      NothingExhausted(s, e, Moved(s, e.p, e));
    } else if e.Report? {
      ReportApplies(s, e);
      ReportedFrame(s, e.p, e.delivered);
      NothingExhausted(s, e, Reported(s, e.p, e.delivered));
    } else if e.SendOut? {
      SendApplies(s, e);
      SentExhausts(s, e.p, e.f);
    } else if e.Register? {
      RegisterApplies(s, e);
      RegisteredRecords(s, e.id, e.job, e.f);
      NothingExhausted(s, e, Registered(s, e.id, e.job, e.f));
    } else {
      OthersExhaustNothing(s, e);
      NothingExhausted(s, e, Apply(s, e));
    }
  }

  lemma NothingExhausted(s: State, e: Event, s': State)
    requires s'.exhausted == s.exhausted
    ensures ExhaustionTrue(s, e, s')
  {
  }

  lemma OthersExhaustNothing(s: State, e: Event)
    requires Base(s) && Enabled(s, e) && !Moves(e) && !e.Report? && !e.SendOut? && !e.Register?
    ensures Apply(s, e).exhausted == s.exhausted
  {
    hide Removed, OnTiming, OnRunNow, Ascending;
  }

  lemma SentExhausts(s: State, p: nat, f: Time -> Time)
    requires s.w.Valid() && p in s.w.tokens
    ensures ExhaustionTrue(s, SendOut(p, f), Sent(s, p, f))
  {
    var id := s.w.tokens[p].id;
    if id in s.w.jobs {
      assert Sorted(s.w.jobs[id].nextScheduled);
      forall from | GoesOnFrom(s.w.jobs[id], s.w.now, from)
        ensures Reschedule(s.w.jobs[id], f, s.w.now).Exhausted? ==> f(from) == ZERO
      {
        RescheduleExactly(s.w.jobs[id], f, s.w.now, from);
      }
    }
    hide Reschedule, OnReschedule, AfterSend, GoesOnFrom;
  }

  lemma ArmingTrueOf(s: State, e: Event)
    requires Safe(s) && Enabled(s, e)
    ensures ArmingTrue(s, e, Apply(s, e))
  {
    hide TimersOwned, OneChain, SentOnce, PokesQuiet, ArmedInOrder, Moved, Reported, Sent, Registered, Apply;
    hide ArmingTrue, MessagesRecorded, Shrinks, Poked;
    if Moves(e) {
      MoveApplies(s, e);
      MovedRecords(s, e.p, e);
      NothingArmed(s, e, Moved(s, e.p, e));
    } else if e.Report? {
      ReportApplies(s, e);
      ReportedFrame(s, e.p, e.delivered);
      NothingArmed(s, e, Reported(s, e.p, e.delivered));
    } else if e.SendOut? {
      SendApplies(s, e);
      SentArms(s, e.p, e.f);
    } else if e.Register? {
      RegisterApplies(s, e);
      RegisteredArms(s, e.id, e.job, e.f);
    } else if e.RunNow? {
      LiveJob(s, e.id);
      RunNowPokes(s, e.id);
      PokedArms(s, e.id);
      NothingArmed(s, e, Poked(s, e.id));
    } else {
      EventShrinks(s, e);
      ShrinksRecords(s, e, Apply(s, e));
      NothingArmed(s, e, Apply(s, e));
    }
  }

  lemma NothingArmed(s: State, e: Event, s': State)
    requires s'.armed == s.armed
    ensures ArmingTrue(s, e, s')
  {
  }

  lemma PokedArms(s: State, id: JobId)
    ensures Poked(s, id).armed == s.armed
  {
  }

  lemma SentArms(s: State, p: nat, f: Time -> Time)
    requires s.w.Valid() && p in s.w.tokens
    ensures ArmingTrue(s, SendOut(p, f), Sent(s, p, f))
  {
    var id := s.w.tokens[p].id;
    if id in s.w.jobs && Reschedule(s.w.jobs[id], f, s.w.now).Rearm? {
      var t := Reschedule(s.w.jobs[id], f, s.w.now).next;
      InsertedElements(s.w.jobs[id].nextScheduled, LowerBound(s.w.jobs[id].nextScheduled, t), t);
    }
    hide Reschedule, AfterSend, Inserted, LowerBound, StopTimer;
  }

  lemma RegisteredArms(s: State, id: JobId, j: Job, f: Time -> Time)
    requires Enabled(s, Register(id, j, f))
    ensures ArmingTrue(s, Register(id, j, f), Registered(s, id, j, f))
  {
    BeginArms(s.w, id, j, f);
    hide PrepareFirstRun, OnBegin, Enabled;
  }

  lemma BeginArms(w: World, id: JobId, j: Job, f: Time -> Time)
    ensures var first, w' := PrepareFirstRun(j, f, w.now), OnBegin(w, id, j, f);
            !first.Drop? ==>
              && id in w'.jobs && first.at in w'.jobs[id].nextScheduled && w.nextId in w'.tokens
              && w'.tokens[w.nextId].id == id && w'.tokens[w.nextId].owes
              && (w'.tokens[w.nextId].pc == Armed(first.at) || w'.tokens[w.nextId].pc == Sending)
  {
    var first := PrepareFirstRun(j, f, w.now);
    if !first.Drop? {
      InsertedElements(j.nextScheduled, LowerBound(j.nextScheduled, first.at), first.at);
    }
    hide PrepareFirstRun, Inserted, LowerBound, StopTimer;
  }

  /** In every execution the records behind the other results are the events themselves. */
  lemma RecordsAreTrue(states: seq<State>, events: seq<Event>, k: nat)
    requires Execution(states, events) && k < |events|
    ensures MessagesRecorded(states[k], events[k], states[k + 1])
    ensures ExhaustionTrue(states[k], events[k], states[k + 1])
    ensures ArmingTrue(states[k], events[k], states[k + 1])
  {
    InvAlways(states, events);
    assert Inv(states[k]);
    StepOf(states, events, k);
    hide *;
    MessagesRecordedBy(states[k], events[k]);
    ExhaustionTrueOf(states[k], events[k]);
    ArmingTrueOf(states[k], events[k]);
  }
}
