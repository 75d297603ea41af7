/** Activations run at most once, and what is reported about their runs is true. */
module Runs {
  import opened Times
  import opened Jobs
  import opened Worlds
  import opened Protocol
  import opened Effects
  import opened Counting
  import Spacing
  import Beats

  /** An activation of a job. */
  type Activation = (nat, JobId)

  function ActivationOf(t: Token): Activation { (t.act, t.id) }

  /** The activation may still run its job's function, or is running it. */
  predicate Ahead(pc: Pc) {
    && !(pc in {Handed, Turned, Clashed})
    && (pc.Run? ==> pc.stage in {Checking, Locking, Asking, Ready, ReportFirst, Announcing, Working})
  }

  /** It has not begun to. */
  predicate Unstarted(pc: Pc) {
    Ahead(pc) && pc != Run(Working)
  }

  /** The function has returned. */
  predicate Over(pc: Pc) {
    pc in {Run(Finishing), Run(ReportLast), Run(Closing)}
  }

  // ---- What the events say ----

  /** Event `k` announces a run of `a`. */
  ghost predicate Announces(states: seq<State>, events: seq<Event>, k: nat, a: Activation) {
    && k < |events| && k < |states| && events[k].Announce? && events[k].p in states[k].w.tokens
    && ActivationOf(states[k].w.tokens[events[k].p]) == a
  }

  /** Event `k` is the return of the job's function in a run of `a`. */
  ghost predicate Returns(states: seq<State>, events: seq<Event>, k: nat, a: Activation) {
    && k < |events| && k < |states| && events[k].Return? && events[k].p in states[k].w.tokens
    && ActivationOf(states[k].w.tokens[events[k].p]) == a
  }

  /** The activations announced, and those returned, before event `n`. */
  ghost function Begun(states: seq<State>, events: seq<Event>, n: nat): set<Activation>
    requires n <= |events| == |states| - 1
  {
    if n == 0 then {}
    else Begun(states, events, n - 1) + if events[n - 1].Announce? then Mover(states[n - 1], events[n - 1]) else {}
  }

  ghost function Done(states: seq<State>, events: seq<Event>, n: nat): set<Activation>
    requires n <= |events| == |states| - 1
  {
    if n == 0 then {}
    else Done(states, events, n - 1) + if events[n - 1].Return? then Mover(states[n - 1], events[n - 1]) else {}
  }

  function Mover(s: State, e: Event): set<Activation>
    requires Moves(e)
  {
    if e.p in s.w.tokens then {ActivationOf(s.w.tokens[e.p])} else {}
  }

  lemma {:induction false} BegunByEvent(states: seq<State>, events: seq<Event>, n: nat, a: Activation)
    requires n <= |events| == |states| - 1
    ensures a in Begun(states, events, n) <==> exists k: nat :: k < n && Announces(states, events, k, a)
  {
    if n > 0 {
      BegunByEvent(states, events, n - 1, a);
      assert events[n - 1].Announce? && a in Mover(states[n - 1], events[n - 1]) <==>
             Announces(states, events, n - 1, a);
    }
  }

  lemma {:induction false} DoneByEvent(states: seq<State>, events: seq<Event>, n: nat, a: Activation)
    requires n <= |events| == |states| - 1
    ensures a in Done(states, events, n) <==> exists k: nat :: k < n && Returns(states, events, k, a)
  {
    if n > 0 {
      DoneByEvent(states, events, n - 1, a);
      assert events[n - 1].Return? && a in Mover(states[n - 1], events[n - 1]) <==>
             Returns(states, events, n - 1, a);
    }
  }

  // ---- The invariant ----

  ghost predicate NotIn(act: nat, record: set<Activation>) {
    forall a :: a in record ==> a.0 != act
  }

  /** How far a token has got agrees with the events so far. */
  predicate Recorded(t: Token, begun: set<Activation>, done: set<Activation>) {
    && (t.pc == Run(Working) ==> ActivationOf(t) in begun)
    && (Over(t.pc) ==> ActivationOf(t) in done)
  }

  ghost predicate StillTo(t: Token, begun: set<Activation>, done: set<Activation>) {
    (Ahead(t.pc) ==> NotIn(t.act, done)) && (Unstarted(t.pc) ==> NotIn(t.act, begun))
  }

  ghost predicate TokensTrue(s: State, begun: set<Activation>, done: set<Activation>) {
    forall p :: p in s.w.tokens ==> Recorded(s.w.tokens[p], begun, done) && StillTo(s.w.tokens[p], begun, done)
  }

  ghost predicate AheadAt(s: State, p: nat) {
    p in s.w.tokens && Ahead(s.w.tokens[p].pc)
  }

  /** Of the tokens of an activation only one may still run. */
  ghost predicate OneRun(s: State) {
    forall p, q :: AheadAt(s, p) && AheadAt(s, q) && s.w.tokens[p].act == s.w.tokens[q].act ==> p == q
  }

  ghost predicate ActsKnown(s: State, record: set<Activation>) {
    forall a :: a in record ==> a.0 < s.w.nextId
  }

  ghost predicate RunInv(s: State, begun: set<Activation>, done: set<Activation>) {
    TokensTrue(s, begun, done) && OneRun(s) && ActsKnown(s, begun) && ActsKnown(s, done)
  }

  function BegunAfter(s: State, e: Event, begun: set<Activation>): set<Activation> {
    begun + if e.Announce? then Mover(s, e) else {}
  }

  function DoneAfter(s: State, e: Event, done: set<Activation>): set<Activation> {
    done + if e.Return? then Mover(s, e) else {}
  }

  /** From one program point of an activation to the next. */
  ghost predicate GoesOn(pc: Pc, pc': Pc, begins: bool, ends: bool) {
    && (Ahead(pc') ==> Ahead(pc)) && (Unstarted(pc') ==> Unstarted(pc))
    && (pc' == Run(Working) ==> begins)
    && (Over(pc') ==> Over(pc) || ends)
  }

  /** Moving on never brings a run back. */
  lemma AdvanceGoesOn(s: State, e: Event)
    requires Base(s) && Enabled(s, e) && (Moves(e) || e.SendOut? || e.Report?)
    ensures var t, t' := s.w.tokens[e.p], Advanced(s, e);
            t'.Some? ==>
              && GoesOn(t.pc, t'.value.pc, e.Announce?, e.Return?)
              && (Moves(e) && Forks(s, t, e) ==> Unstarted(t.pc) && !Ahead(t'.value.pc))
    ensures e.Announce? ==> Unstarted(s.w.tokens[e.p].pc)
    ensures e.Announce? && Advanced(s, e).Some? ==> Advanced(s, e).value.pc == Run(Working)
    ensures e.Return? ==> s.w.tokens[e.p].pc == Run(Working)
    ensures e.Return? && Advanced(s, e).Some? ==> !Ahead(Advanced(s, e).value.pc)
  {
    MoverKnown(s, e);
    var t := s.w.tokens[e.p];
    if e.SendOut? {
      SendGoesOn(t.pc);
    } else if e.Report? {
      ReportGoesOn(t.pc);
    } else {
      MoveGoesOn(s, e, t);
    }
    hide Base, Ahead, Unstarted, Over, GoesOn, Heir, AfterSend, AfterReport, Forks;
  }

  lemma SendGoesOn(pc: Pc)
    requires Sends(pc)
    ensures AfterSend(pc).Some? ==> GoesOn(pc, AfterSend(pc).value, false, false)
  {
  }

  lemma ReportGoesOn(pc: Pc)
    requires Reports(pc)
    ensures AfterReport(pc).Some? ==> GoesOn(pc, AfterReport(pc).value, false, false)
  {
  }

  lemma MoveGoesOn(s: State, e: Event, t: Token)
    requires Moves(e) && t.id in s.configs && e.p in s.w.tokens && s.w.tokens[e.p] == t && Enabled(s, e)
    ensures var heir := Heir(s, t, e);
            && (heir.Some? ==> GoesOn(t.pc, heir.value.pc, e.Announce?, e.Return?))
            && (heir.Some? && Forks(s, t, e) ==> Unstarted(t.pc) && !Ahead(heir.value.pc))
            && (heir.Some? && e.Announce? ==> heir.value.pc == Run(Working))
            && (heir.Some? && e.Return? ==> !Ahead(heir.value.pc))
    ensures (e.Announce? ==> Unstarted(t.pc)) && (e.Return? ==> t.pc == Run(Working))
  {
  }

  // ---- One event ----

  /** What the mover's activation has behind it. */
  lemma MoverHas(s: State, e: Event, begun: set<Activation>, done: set<Activation>)
    requires Base(s) && Enabled(s, e) && RunInv(s, begun, done) && (e.Announce? || e.Return?)
    ensures e.p in s.w.tokens && AheadAt(s, e.p)
    ensures Mover(s, e) == {ActivationOf(s.w.tokens[e.p])} && s.w.tokens[e.p].act < s.w.nextId
  {
    MoverKnown(s, e);
    AdvanceGoesOn(s, e);
    hide Enabled, Moves, RunInv;
  }

  /** A token left alone is not of the activation whose run begins or returns, if it may still run. */
  lemma BystanderTrue(s: State, e: Event, begun: set<Activation>, done: set<Activation>, q: nat)
    requires Base(s) && Enabled(s, e) && RunInv(s, begun, done) && q in s.w.tokens
    requires Moves(e) ==> q != e.p
    ensures var t := s.w.tokens[q];
            Recorded(t, BegunAfter(s, e, begun), DoneAfter(s, e, done))
            && StillTo(t, BegunAfter(s, e, begun), DoneAfter(s, e, done))
  {
    if e.Announce? || e.Return? {
      MoverHas(s, e, begun, done);
      assert AheadAt(s, q) ==> s.w.tokens[q].act != s.w.tokens[e.p].act;
    }
    hide Base, Enabled, Ahead, Unstarted, Over;
  }

  lemma HeirTrue(s: State, e: Event, begun: set<Activation>, done: set<Activation>)
    requires Base(s) && Enabled(s, e) && RunInv(s, begun, done) && (Moves(e) || e.SendOut? || e.Report?)
    ensures Advanced(s, e).Some? ==>
              Recorded(Advanced(s, e).value, BegunAfter(s, e, begun), DoneAfter(s, e, done))
              && StillTo(Advanced(s, e).value, BegunAfter(s, e, begun), DoneAfter(s, e, done))
  {
    MoverKnown(s, e);
    AdvancedIsSame(s, e);
    AdvanceGoesOn(s, e);
    hide Base, Enabled, Advanced, Ahead, Unstarted, Over, Forks, Moves, BegunAfter, DoneAfter, Recorded, StillTo;
    hide OneRun, ActsKnown, GoesOn;
    RecordsAfter(s, e, begun, done);
    if Advanced(s, e).Some? {
      GoesOnTrue(s.w.tokens[e.p], Advanced(s, e).value, e.Announce?, e.Return?, begun, done);
    }
  }

  lemma RecordsAfter(s: State, e: Event, begun: set<Activation>, done: set<Activation>)
    requires e.Announce? || e.Return? ==> e.p in s.w.tokens
    ensures BegunAfter(s, e, begun) == begun + if e.Announce? then {ActivationOf(s.w.tokens[e.p])} else {}
    ensures DoneAfter(s, e, done) == done + if e.Return? then {ActivationOf(s.w.tokens[e.p])} else {}
  {
  }

  /** The same of the values alone. */
  lemma GoesOnTrue(t: Token, t': Token, begins: bool, ends: bool, begun: set<Activation>, done: set<Activation>)
    requires GoesOn(t.pc, t'.pc, begins, ends) && ActivationOf(t') == ActivationOf(t)
    requires Recorded(t, begun, done) && StillTo(t, begun, done)
    requires (begins ==> t'.pc == Run(Working)) && (ends ==> !Ahead(t'.pc))
    ensures var begun', done' := begun + (if begins then {ActivationOf(t)} else {}),
                                 done + (if ends then {ActivationOf(t)} else {});
            Recorded(t', begun', done') && StillTo(t', begun', done')
  {
    hide Ahead, Over;
  }

  lemma MoverIn(s: State, e: Event)
    requires (e.Announce? || e.Return?) && e.p in s.w.tokens
    ensures Moves(e) && Mover(s, e) == {ActivationOf(s.w.tokens[e.p])}
  {
  }

  /** A queued copy stands where its original stood; a new activation has an identity of its own. */
  lemma NewcomerTrue(s: State, e: Event, begun: set<Activation>, done: set<Activation>, t: Token)
    requires Base(s) && Enabled(s, e) && RunInv(s, begun, done)
    requires || NewToken(s, e, t)
             || (Moves(e) && Forks(s, s.w.tokens[e.p], e) && t == s.w.tokens[e.p].(pc := SingleQueued))
    ensures Recorded(t, BegunAfter(s, e, begun), DoneAfter(s, e, done))
            && StillTo(t, BegunAfter(s, e, begun), DoneAfter(s, e, done))
  {
    if NewToken(s, e, t) {
      NewTokenIs(s, e, t);
      assert !Moves(e);
    } else {
      MoverKnown(s, e);
      AdvanceGoesOn(s, e);
      assert e.Enqueue?;
    }
    hide Base, Enabled, Advanced, Forks, Moves, NewToken;
  }

  lemma TokenTrue(s: State, e: Event, begun: set<Activation>, done: set<Activation>, s': State, q: nat)
    requires Base(s) && Enabled(s, e) && RunInv(s, begun, done) && q in s'.w.tokens && Accounted(s, e, s', q)
    ensures Recorded(s'.w.tokens[q], BegunAfter(s, e, begun), DoneAfter(s, e, done))
            && StillTo(s'.w.tokens[q], BegunAfter(s, e, begun), DoneAfter(s, e, done))
  {
    var t' := s'.w.tokens[q];
    MoverKnown(s, e);
    hide Base, Enabled, Advanced, NewToken, Forks, RunInv, Recorded, StillTo, BegunAfter, DoneAfter;
    if q in s.w.tokens && t' == s.w.tokens[q] && (Moves(e) ==> q != e.p) {
      BystanderTrue(s, e, begun, done, q);
    } else if (Moves(e) || e.SendOut? || e.Report?) && q == e.p && Advanced(s, e) == Some(t') {
      HeirTrue(s, e, begun, done);
    } else {
      NewcomerTrue(s, e, begun, done, t');
    }
  }

  /** A token that may run afterwards stems from one that might before, of the same activation, or is new. */
  lemma RunInherited(s: State, e: Event, s': State, q: nat) returns (p: nat)
    requires Base(s) && Enabled(s, e) && AheadAt(s', q) && Accounted(s, e, s', q)
    ensures || (AheadAt(s, p) && s.w.tokens[p].act == s'.w.tokens[q].act
                && (q == p || (q == s.w.nextId && Moves(e) && e.p == p && Forks(s, s.w.tokens[p], e))))
            || s'.w.tokens[q].act == s.w.nextId == q
  {
    p := q;
    var t' := s'.w.tokens[q];
    MoverKnown(s, e);
    if q in s.w.tokens && t' == s.w.tokens[q] {
    } else if (Moves(e) || e.SendOut? || e.Report?) && q == e.p && Advanced(s, e) == Some(t') {
      AdvanceGoesOn(s, e);
      AdvancedIsSame(s, e);
    } else if Moves(e) && Forks(s, s.w.tokens[e.p], e) && t' == s.w.tokens[e.p].(pc := SingleQueued) {
      p := e.p;
      ForkerIsAhead(s, e);
    } else {
      NewTokenIs(s, e, t');
    }
    hide Base, Enabled, Advanced, NewToken, Forks, Ahead;
  }

  lemma ForkerIsAhead(s: State, e: Event)
    requires Moves(e) && e.p in s.w.tokens && s.w.tokens[e.p].id in s.configs && Forks(s, s.w.tokens[e.p], e)
    ensures Ahead(s.w.tokens[e.p].pc)
  {
  }

  /** Of an original and its queued copy only the copy may still run. */
  lemma OriginalStops(s: State, e: Event, s': State)
    requires Base(s) && Enabled(s, e) && Moves(e) && e.p in s'.w.tokens && Accounted(s, e, s', e.p)
    requires Forks(s, s.w.tokens[e.p], e)
    ensures !AheadAt(s', e.p)
  {
    MoverIs(s, e);
    AdvanceGoesOn(s, e);
    hide Base, Enabled, Advanced, NewToken, Forks, Ahead;
  }

  lemma OneRunKept(s: State, e: Event, s': State, q: nat, r: nat)
    requires Base(s) && Enabled(s, e) && OneRun(s) && AheadAt(s', q) && AheadAt(s', r)
    requires s'.w.tokens[q].act == s'.w.tokens[r].act && Accounted(s, e, s', q) && Accounted(s, e, s', r)
    ensures q == r
  {
    var p := RunInherited(s, e, s', q);
    var p' := RunInherited(s, e, s', r);
    AheadKnown(s);
    hide *;
    if AheadAt(s, p) && AheadAt(s, p') {
      OnlyRun(s, p, p');
    }
    if q != r {
      OriginalStops(s, e, s');
    }
  }

  lemma AheadKnown(s: State)
    requires Base(s)
    ensures forall p: nat :: AheadAt(s, p) ==> p in s.w.tokens && s.w.tokens[p].act < s.w.nextId && p < s.w.nextId
  {
  }

  lemma OnlyRun(s: State, p: nat, p': nat)
    requires OneRun(s)
    ensures AheadAt(s, p) && AheadAt(s, p') && s.w.tokens[p].act == s.w.tokens[p'].act ==> p == p'
  {
  }

  lemma RunInvKept(s: State, e: Event, begun: set<Activation>, done: set<Activation>)
    requires Safe(s) && Enabled(s, e) && RunInv(s, begun, done)
    ensures RunInv(Apply(s, e), BegunAfter(s, e, begun), DoneAfter(s, e, done))
  {
    ConfigsKept(s, e);
    assert Base(s) && OneRun(s);
    if e.Announce? || e.Return? { MoverHas(s, e, begun, done); }
    hide *;
    TokensTrueKept(s, e, begun, done);
    OneRunAfter(s, e);
    RecordKnownAfter(s, e, begun, done, Apply(s, e));
    AllHold(Apply(s, e), BegunAfter(s, e, begun), DoneAfter(s, e, done));
  }

  lemma AllHold(s: State, begun: set<Activation>, done: set<Activation>)
    requires TokensTrue(s, begun, done) && OneRun(s) && ActsKnown(s, begun) && ActsKnown(s, done)
    ensures RunInv(s, begun, done)
  {
  }

  lemma TokensTrueKept(s: State, e: Event, begun: set<Activation>, done: set<Activation>)
    requires Safe(s) && Base(s) && Enabled(s, e) && RunInv(s, begun, done)
    ensures TokensTrue(Apply(s, e), BegunAfter(s, e, begun), DoneAfter(s, e, done))
  {
    var s' := Apply(s, e);
    hide Safe, Base, Enabled, Apply, Accounted, Recorded, StillTo, RunInv, BegunAfter, DoneAfter;
    forall q | q in s'.w.tokens
      ensures Recorded(s'.w.tokens[q], BegunAfter(s, e, begun), DoneAfter(s, e, done))
      ensures StillTo(s'.w.tokens[q], BegunAfter(s, e, begun), DoneAfter(s, e, done))
    {
      TokensAccounted(s, e, q);
      TokenTrue(s, e, begun, done, s', q);
    }
  }

  lemma OneRunAfter(s: State, e: Event)
    requires Safe(s) && Base(s) && Enabled(s, e) && OneRun(s)
    ensures OneRun(Apply(s, e))
  {
    var s' := Apply(s, e);
    hide Safe, Base, Enabled, Apply, Accounted, Ahead;
    forall q, r | AheadAt(s', q) && AheadAt(s', r) && s'.w.tokens[q].act == s'.w.tokens[r].act ensures q == r {
      TokensAccounted(s, e, q);
      TokensAccounted(s, e, r);
      OneRunKept(s, e, s', q, r);
    }
  }

  lemma RecordKnownAfter(s: State, e: Event, begun: set<Activation>, done: set<Activation>, s': State)
    requires Extends(s, s') && RunInv(s, begun, done)
    requires e.Announce? || e.Return? ==> e.p in s.w.tokens && s.w.tokens[e.p].act < s.w.nextId
    ensures ActsKnown(s', BegunAfter(s, e, begun)) && ActsKnown(s', DoneAfter(s, e, done))
  {
  }

  // ---- Whole executions ----

  lemma {:induction false} RunInvAlways(states: seq<State>, events: seq<Event>, n: nat)
    requires Execution(states, events) && n < |states|
    ensures RunInv(states[n], Begun(states, events, n), Done(states, events, n))
  {
    hide *;
    Lengths(states, events);
    if n == 0 {
      NothingRunYet(states, events);
    } else {
      BegunStep(states, events, n);
      RunInvAlways(states, events, n - 1);
      SafeAt(states, events, n - 1);
      RunInvKept(states[n - 1], events[n - 1], Begun(states, events, n - 1), Done(states, events, n - 1));
    }
  }

  lemma Lengths(states: seq<State>, events: seq<Event>)
    requires Execution(states, events)
    ensures |states| == |events| + 1 && Initial(states[0])
  {
    hide Initial, Next;
  }

  lemma NothingRunYet(states: seq<State>, events: seq<Event>)
    requires |states| == |events| + 1 && Initial(states[0])
    ensures RunInv(states[0], Begun(states, events, 0), Done(states, events, 0))
  {
  }

  lemma BegunStep(states: seq<State>, events: seq<Event>, n: nat)
    requires 0 < n <= |events| == |states| - 1
    ensures Begun(states, events, n) == BegunAfter(states[n - 1], events[n - 1], Begun(states, events, n - 1))
    ensures Done(states, events, n) == DoneAfter(states[n - 1], events[n - 1], Done(states, events, n - 1))
  {
  }

  lemma SafeAt(states: seq<State>, events: seq<Event>, k: nat)
    requires Execution(states, events) && k < |events|
    ensures Safe(states[k]) && Base(states[k]) && Enabled(states[k], events[k])
    ensures states[k + 1] == Apply(states[k], events[k])
  {
    InvAlways(states, events);
    assert Inv(states[k]);
    StepOf(states, events, k);
    hide *;
  }

  lemma EventOf(states: seq<State>, events: seq<Event>, k: nat)
    requires Execution(states, events) && k < |events|
    ensures Safe(states[k]) && Base(states[k]) && Enabled(states[k], events[k])
    ensures states[k + 1] == Apply(states[k], events[k])
    ensures RunInv(states[k], Begun(states, events, k), Done(states, events, k))
  {
    SafeAt(states, events, k);
    RunInvAlways(states, events, k);
    hide *;
  }

  /** Where the activation of an event stands. */
  lemma AtEvent(states: seq<State>, events: seq<Event>, k: nat, a: Activation)
    requires Execution(states, events) && k < |events|
    ensures Announces(states, events, k, a) ==> a !in Begun(states, events, k) && a !in Done(states, events, k)
    ensures Returns(states, events, k, a) ==> a in Begun(states, events, k) && a !in Done(states, events, k)
    ensures Finishes(states, events, k, a) ==> a in Done(states, events, k)
  {
    EventOf(states, events, k);
    hide Execution, Enabled, Apply, Base, Safe, RunInv, Begun, Done;
    if events[k].Announce? || events[k].Return? || events[k].Finish? {
      AtMover(states[k], events[k], Begun(states, events, k), Done(states, events, k));
    }
  }

  lemma AtMover(s: State, e: Event, begun: set<Activation>, done: set<Activation>)
    requires Base(s) && Enabled(s, e) && RunInv(s, begun, done) && (e.Announce? || e.Return? || e.Finish?)
    ensures e.p in s.w.tokens
    ensures var a := ActivationOf(s.w.tokens[e.p]);
            && (e.Announce? ==> a !in begun && a !in done)
            && (e.Return? ==> a in begun && a !in done)
            && (e.Finish? ==> a in done)
  {
    MoverIs(s, e);
    hide Base, Enabled, OneRun, ActsKnown;
  }

  /** Event `k` is the report of the end of a run of `a`. */
  ghost predicate Finishes(states: seq<State>, events: seq<Event>, k: nat, a: Activation) {
    && k < |events| && k < |states| && events[k].Finish? && events[k].p in states[k].w.tokens
    && ActivationOf(states[k].w.tokens[events[k].p]) == a
  }

  /** No activation begins its run twice, or after it has returned; and none returns twice, or without beginning. */
  lemma ActivationRunsOnce(states: seq<State>, events: seq<Event>, k: nat, a: Activation)
    requires Execution(states, events) && k < |events|
    ensures Announces(states, events, k, a) ==>
              forall l: nat :: l < k ==> !Announces(states, events, l, a) && !Returns(states, events, l, a)
    ensures Returns(states, events, k, a) ==>
              && (forall l: nat :: l < k ==> !Returns(states, events, l, a))
              && exists l: nat :: l < k && Announces(states, events, l, a)
  {
    AtEvent(states, events, k, a);
    BegunByEvent(states, events, k, a);
    DoneByEvent(states, events, k, a);
    hide Execution, Announces, Returns, Finishes, Begun, Done;
  }

  // ---- No run is lost ----

  /** What ends an activation short of its function's return, or is that return. */
  ghost predicate EndsRun(s: State, e: Event, p: nat)
    requires p in s.w.tokens && s.w.tokens[p].id in s.configs
  {
    var t, config := s.w.tokens[p], s.configs[s.w.tokens[p].id];
    if Moves(e) && e.p == p then
      || (e.Return? && t.pc == Run(Working))
      || (e.Quit? && s.cancelled)
      || (e.Route? && TurnedAway(s.limitMode, config.singletonMode, e.room))
      || (e.Route? && s.limitMode.None? && (t.id !in s.w.jobs || (config.singletonMode.None? && s.cancelled)))
      || (e.Take? && (t.id !in s.w.jobs || (e.clash && t.pc == Queued && config.singletonMode.Some?)))
      || (e.Check? && (s.cancelled || t.id !in s.w.jobs || StopOver(config, s.w.now)))
      || (e.Lock? && !e.ok) || (e.Ask? && !e.ok)
    else
      // removing a job stops its waiting timer
      (e.Remove? || e.Reap?) && e.id == t.id && t.pc.Armed?
  }

  /** A reschedule mode turns an activation away when there is no room; that of the scheduler comes first. */
  predicate TurnedAway(limitMode: Option<LimitMode>, singletonMode: Option<LimitMode>, room: bool) {
    !room && (limitMode == Some(LimitModeReschedule)
              || (limitMode.None? && singletonMode == Some(LimitModeReschedule)))
  }

  predicate StopOver(config: Config, now: Time) {
    config.stopTime != ZERO && now > config.stopTime
  }

  ghost predicate SomeAhead(s: State, a: Activation) {
    exists q :: AheadAt(s, q) && ActivationOf(s.w.tokens[q]) == a
  }

  lemma MoveKeepsRun(s: State, e: Event)
    requires Base(s) && Enabled(s, e) && Moves(e) && AheadAt(s, e.p)
    ensures s.w.tokens[e.p].id in s.configs
    ensures var t := s.w.tokens[e.p];
            || (Heir(s, t, e).Some? && Ahead(Heir(s, t, e).value.pc))
            || Forks(s, t, e)
            || EndsRun(s, e, e.p)
  {
    MoverIs(s, e);
    JobConfig(s, s.w.tokens[e.p].id);
    hide Base;
  }

  lemma JobConfig(s: State, id: JobId)
    requires Base(s)
    ensures id in s.w.jobs ==> id in s.configs && s.w.jobs[id].config == s.configs[id]
  {
  }

  lemma MovedKeepsRun(s: State, e: Event, p: nat)
    requires Base(s) && Enabled(s, e) && Moves(e) && AheadAt(s, p)
    ensures SomeAhead(Moved(s, e.p, e), ActivationOf(s.w.tokens[p])) || EndsRun(s, e, p)
  {
    MoverIs(s, e);
    var s' := Moved(s, e.p, e);
    MovedTokensAre(s, e.p, e);
    if p == e.p {
      MoveKeepsRun(s, e);
      HeirIsSame(s, s.w.tokens[p], e);
      hide Base, Enabled, Moved, Heir, Forks, EndsRun, Ahead;
      if Heir(s, s.w.tokens[p], e).Some? && Ahead(Heir(s, s.w.tokens[p], e).value.pc) {
        assert AheadAt(s', p);
      } else if Forks(s, s.w.tokens[p], e) {
        QueuedIsAhead();
        assert AheadAt(s', s.w.nextId);
      }
    } else {
      hide Base, Enabled, Moved, Heir, Forks, EndsRun, Ahead;
      assert AheadAt(s', p);
    }
  }

  lemma QueuedIsAhead()
    ensures Ahead(SingleQueued)
  {
  }

  /** Where a move leaves the tokens. */
  lemma MovedTokensAre(s: State, p: nat, e: Event)
    requires Moves(e) && p in s.w.tokens && s.w.tokens[p].id in s.configs && s.w.nextId !in s.w.tokens
    ensures var t, s' := s.w.tokens[p], Moved(s, p, e);
            && (forall q :: q in s.w.tokens && q != p ==> q in s'.w.tokens && s'.w.tokens[q] == s.w.tokens[q])
            && (Heir(s, t, e).Some? ==> p in s'.w.tokens && s'.w.tokens[p] == Heir(s, t, e).value)
            && (Forks(s, t, e) ==>
                  s.w.nextId in s'.w.tokens && s'.w.tokens[s.w.nextId] == t.(pc := SingleQueued))
  {
    hide NextPc, NextOwes, Forks;
  }

  /** An activation that may still run still may afterwards, unless the event is one of the ends of a run. */
  lemma NoRunLost(s: State, e: Event, p: nat)
    requires Safe(s) && Enabled(s, e) && AheadAt(s, p)
    ensures s.w.tokens[p].id in s.configs
    ensures SomeAhead(Apply(s, e), ActivationOf(s.w.tokens[p])) || EndsRun(s, e, p)
  {
    hide TimersOwned, OneChain, SentOnce, PokesQuiet, ArmedInOrder, Moved, Reported, Sent, Registered, Apply, Poked;
    hide EndsRun, Ahead, Shrinks, SomeAhead;
    if Moves(e) {
      MoveApplies(s, e);
      MovedKeepsRun(s, e, p);
    } else if e.SendOut? {
      SendApplies(s, e);
      SentKeepsRun(s, e.p, e.f, p);
    } else if e.Report? {
      ReportApplies(s, e);
      ReportedKeepsRun(s, e.p, e.delivered, p);
    } else if e.Register? {
      RegisterApplies(s, e);
      RegisteredKeepsRun(s, e.id, e.job, e.f, p);
    } else if e.RunNow? {
      LiveToRun(s, e.id);
      RunNowPokes(s, e.id);
      PokedKeepsRun(s, e.id, p);
    } else {
      HandlersKeepRun(s, e, p);
    }
  }
  /** A token left as it is keeps its activation going. */
  lemma Untouched(s: State, s': State, p: nat)
    requires AheadAt(s, p) && p in s'.w.tokens && s'.w.tokens[p] == s.w.tokens[p]
    ensures SomeAhead(s', ActivationOf(s.w.tokens[p]))
  {
    assert AheadAt(s', p);
  }

  lemma SentTokensAre(s: State, p: nat, f: Time -> Time)
    requires Safe(s) && Enabled(s, SendOut(p, f))
    ensures var t, s' := s.w.tokens[p], Sent(s, p, f);
            && (forall q :: q in s.w.tokens && q != p ==> q in s'.w.tokens && s'.w.tokens[q] == s.w.tokens[q])
            && (AfterSend(t.pc).Some? ==>
                  p in s'.w.tokens && s'.w.tokens[p] == t.(owes := false, pc := AfterSend(t.pc).value))
  {
    var t := s.w.tokens[p];
    var w := Put(s, p, t.(owes := false), AfterSend(t.pc)).w;
    AfterSendNotArmed(t.pc);
    assert s.w.Valid() && p in s.w.tokens && s.w.nextId !in s.w.tokens;
    if t.id in s.w.jobs {
      SenderOwes(s, p, f);
      SenderIsWholeChain(s, p);
    }
    hide *;
    Beats.PutIsValid(s, p, t.(owes := false), AfterSend(t.pc));
    PutTokens(s, p, t.(owes := false), AfterSend(t.pc));
    RescheduleKeepsTokens(w, t.id, f);
    SentWorld(s, p, f);
  }

  lemma SentWorld(s: State, p: nat, f: Time -> Time)
    requires s.w.Valid() && p in s.w.tokens
    ensures var t := s.w.tokens[p];
            var w := Put(s, p, t.(owes := false), AfterSend(t.pc)).w;
            w.Valid() && Sent(s, p, f).w == OnReschedule(w, t.id, f)
  {
    Beats.PutIsValid(s, p, s.w.tokens[p].(owes := false), AfterSend(s.w.tokens[p].pc));
    hide OnReschedule, Answer, AfterSend, Ascending, World.Valid;
  }

  lemma PutTokens(s: State, p: nat, t: Token, pc: Option<Pc>)
    requires p in s.w.tokens && s.w.nextId !in s.w.tokens && (pc.Some? ==> !pc.value.Armed?)
    ensures var w := Put(s, p, t, pc).w;
            && s.w.nextId !in w.tokens
            && (forall q :: q in s.w.tokens && q != p ==> q in w.tokens && w.tokens[q] == s.w.tokens[q])
            && (pc.Some? ==> p in w.tokens && w.tokens[p] == t.(pc := pc.value))
            && forall timer :: StopTimer(s.w.tokens, timer) == s.w.tokens ==> StopTimer(w.tokens, timer) == w.tokens
  {
    forall timer | StopTimer(s.w.tokens, timer) == s.w.tokens
      ensures StopTimer(Put(s, p, t, pc).w.tokens, timer) == Put(s, p, t, pc).w.tokens
    {
      StopsNothing(s.w.tokens, timer);
    }
  }

  lemma StopsNothing(tokens: map<nat, Token>, timer: Timer)
    ensures StopTimer(tokens, timer) == tokens <==>
            !(timer.Timer? && timer.tid in tokens && tokens[timer.tid].pc.Armed?)
  {
    if timer.Timer? && timer.tid in tokens && tokens[timer.tid].pc.Armed? {
      assert timer.tid !in StopTimer(tokens, timer);
    }
  }

  /** Rescheduling stops no timer when the job's own has fired. */
  lemma RescheduleKeepsTokens(w: World, id: JobId, f: Time -> Time)
    requires w.Valid() && w.nextId !in w.tokens
    requires id in w.jobs ==> StopTimer(w.tokens, w.jobs[id].timer) == w.tokens
    ensures forall q :: q in w.tokens ==>
                          q in OnReschedule(w, id, f).tokens && OnReschedule(w, id, f).tokens[q] == w.tokens[q]
  {
    hide Reschedule, Rearmed, StopTimer;
  }

  lemma SenderOwes(s: State, p: nat, f: Time -> Time)
    requires Base(s) && Enabled(s, SendOut(p, f))
    ensures Owing(s, p) && !s.w.tokens[p].pc.Armed?
  {
  }

  lemma AfterSendNotArmed(pc: Pc)
    ensures AfterSend(pc).Some? ==> !AfterSend(pc).value.Armed?
    ensures Sends(pc) && Ahead(pc) ==> AfterSend(pc).Some? && Ahead(AfterSend(pc).value)
  {
  }

  lemma SentKeepsRun(s: State, p: nat, f: Time -> Time, q: nat)
    requires Safe(s) && Enabled(s, SendOut(p, f)) && AheadAt(s, q)
    ensures SomeAhead(Sent(s, p, f), ActivationOf(s.w.tokens[q]))
  {
    SentTokensAre(s, p, f);
    if q == p {
      AfterSendNotArmed(s.w.tokens[p].pc);
      hide Safe, Ahead, AfterSend, Sent;
      assert AheadAt(Sent(s, p, f), p);
    } else {
      hide Safe, Enabled, Ahead, AfterSend, Sent;
      Untouched(s, Sent(s, p, f), q);
    }
  }

  lemma ReportedKeepsRun(s: State, p: nat, delivered: bool, q: nat)
    requires Base(s) && Enabled(s, Report(p, delivered)) && AheadAt(s, q)
    ensures SomeAhead(Reported(s, p, delivered), ActivationOf(s.w.tokens[q]))
  {
    ReportedFrame(s, p, delivered);
    AfterReportAhead(s.w.tokens[p].pc);
    hide Base, Ahead, AfterReport, Reported;
    if q == p {
      assert AheadAt(Reported(s, p, delivered), p);
    } else {
      Untouched(s, Reported(s, p, delivered), q);
    }
  }

  lemma AfterReportAhead(pc: Pc)
    ensures Reports(pc) && Ahead(pc) ==> AfterReport(pc).Some? && Ahead(AfterReport(pc).value)
  {
  }

  lemma RegisteredKeepsRun(s: State, id: JobId, j: Job, f: Time -> Time, q: nat)
    requires Base(s) && Enabled(s, Register(id, j, f)) && AheadAt(s, q)
    ensures SomeAhead(Registered(s, id, j, f), ActivationOf(s.w.tokens[q]))
  {
    assert s.w.nextId !in s.w.tokens;
    BeginKeepsTokens(s.w, id, j, f);
    hide Base, Enabled, OnBegin, PrepareFirstRun, Ahead;
    Untouched(s, Registered(s, id, j, f), q);
  }

  lemma BeginKeepsTokens(w: World, id: JobId, j: Job, f: Time -> Time)
    requires w.nextId !in w.tokens && (j.timer.Timer? ==> j.timer.tid !in w.tokens)
    ensures forall q :: q in w.tokens ==>
                          q in OnBegin(w, id, j, f).tokens && OnBegin(w, id, j, f).tokens[q] == w.tokens[q]
  {
    hide PrepareFirstRun;
  }

  lemma PokedKeepsRun(s: State, id: JobId, q: nat)
    requires Base(s) && AheadAt(s, q)
    ensures SomeAhead(Poked(s, id), ActivationOf(s.w.tokens[q]))
  {
    assert s.w.nextId !in s.w.tokens;
    hide Base, Ahead;
    Untouched(s, Poked(s, id), q);
  }

  lemma HandlersKeepRun(s: State, e: Event, q: nat)
    requires Base(s) && TimersOwned(s) && Enabled(s, e) && AheadAt(s, q)
    requires e.Tick? || e.Cancel? || e.Remove? || e.HandleTiming? || e.LoseTiming? || e.Reap?
    ensures s.w.tokens[q].id in s.configs
    ensures SomeAhead(Apply(s, e), ActivationOf(s.w.tokens[q])) || EndsRun(s, e, q)
  {
    if e.Remove? || e.Reap? {
      RemovedTokens(s, e.id);
    }
    if q in Apply(s, e).w.tokens {
      assert Apply(s, e).w.tokens[q] == s.w.tokens[q] by { hide Base, TimersOwned, OnTiming; }
      hide Base, TimersOwned, Ahead, Apply, Enabled;
      Untouched(s, Apply(s, e), q);
    } else {
      hide Ahead, OnTiming, Ascending;
    }
  }

  lemma RemovedTokens(s: State, id: JobId)
    requires Base(s) && TimersOwned(s)
    ensures forall q :: q in Removed(s.w, id).tokens ==> q in s.w.tokens && Removed(s.w, id).tokens[q] == s.w.tokens[q]
    ensures forall q :: q in s.w.tokens && q !in Removed(s.w, id).tokens ==>
                          s.w.tokens[q].id == id && s.w.tokens[q].pc.Armed?
  {
  }

  /** Event `k` ends a run of `a`. */
  ghost predicate Ends(states: seq<State>, events: seq<Event>, k: nat, a: Activation) {
    k < |events| && k < |states|
    && exists p :: p in states[k].w.tokens && states[k].w.tokens[p].id in states[k].configs
                   && ActivationOf(states[k].w.tokens[p]) == a && EndsRun(states[k], events[k], p)
  }

  /**
    No run is lost: an activation that may still run keeps that chance through every execution until its
    function returns, or it is turned away, refused or skipped, finds its job gone or stopped or the executor
    cancelled, or its timer is stopped with the job.
  */
  lemma {:induction false} NoRunLostInExecution(states: seq<State>, events: seq<Event>, i: nat, k: nat, a: Activation)
    requires Execution(states, events) && i <= k < |states| && SomeAhead(states[i], a)
    ensures SomeAhead(states[k], a) || exists l: nat :: i <= l < k && Ends(states, events, l, a)
    decreases k - i
  {
    hide *;
    Lengths(states, events);
    if i < k {
      NoRunLostInExecution(states, events, i, k - 1, a);
      if SomeAhead(states[k - 1], a) {
        SafeAt(states, events, k - 1);
        AheadNext(states, events, k - 1, a);
      }
    }
  }

  lemma AheadNext(states: seq<State>, events: seq<Event>, k: nat, a: Activation)
    requires k < |events| && k + 1 < |states| && Safe(states[k]) && Base(states[k]) && Enabled(states[k], events[k])
    requires states[k + 1] == Apply(states[k], events[k]) && SomeAhead(states[k], a)
    ensures SomeAhead(states[k + 1], a) || Ends(states, events, k, a)
  {
    var p :| AheadAt(states[k], p) && ActivationOf(states[k].w.tokens[p]) == a;
    hide Safe, Base, Enabled, Apply, EndsRun;
    NoRunLost(states[k], events[k], p);
  }

  // ---- Timing reports ----

  function StartReport(s: State, t: Token): Timing { Timing(t.id, t.act, s.w.now, ZERO) }

  function EndReport(s: State, t: Token): Timing { Timing(t.id, t.act, ZERO, s.w.now) }

  /** A report joins the channel only when a run is announced, or after it has ended. */
  lemma ReportsAppear(s: State, e: Event, m: Timing)
    requires Safe(s) && Enabled(s, e) && m in Apply(s, e).timings && m !in s.timings
    ensures (e.Announce? || e.Finish?) && e.p in s.w.tokens
    ensures e.Announce? ==> m == StartReport(s, s.w.tokens[e.p])
    ensures e.Finish? ==> m == EndReport(s, s.w.tokens[e.p])
  {
    hide TimersOwned, OneChain, SentOnce, PokesQuiet, ArmedInOrder, Moved, Reported, Sent, Registered, Apply, Poked;
    if Moves(e) {
      MoveApplies(s, e);
      MovedReports(s, e.p, e);
    } else if e.Report? {
      ReportApplies(s, e);
      ReportedFrame(s, e.p, e.delivered);
    } else if e.SendOut? {
      SendApplies(s, e);
      SentReports(s, e.p, e.f);
    } else if e.Register? {
      RegisterApplies(s, e);
      RegisteredReports(s, e.id, e.job, e.f);
    } else {
      HandlerReports(s, e);
    }
  }

  lemma MovedReports(s: State, p: nat, e: Event)
    requires Moves(e) && p in s.w.tokens && s.w.tokens[p].id in s.configs
    ensures var t := s.w.tokens[p];
            Moved(s, p, e).timings ==
            s.timings + if e.Announce? then multiset{StartReport(s, t)}
            else if e.Finish? then multiset{EndReport(s, t)} else multiset{}
    ensures Moved(s, p, e).reaping == s.reaping
  {
    hide NextPc, NextOwes, Forks;
  }

  lemma SentReports(s: State, p: nat, f: Time -> Time)
    requires s.w.Valid() && p in s.w.tokens
    ensures Sent(s, p, f).timings == s.timings && Sent(s, p, f).reaping == s.reaping
  {
    hide Reschedule, OnReschedule, AfterSend;
  }

  lemma RegisteredReports(s: State, id: JobId, j: Job, f: Time -> Time)
    ensures Registered(s, id, j, f).timings == s.timings && Registered(s, id, j, f).reaping == s.reaping
  {
    hide OnBegin, PrepareFirstRun;
  }

  lemma HandlerReports(s: State, e: Event)
    requires Base(s) && Enabled(s, e) && !Moves(e) && !e.Report? && !e.SendOut? && !e.Register?
    ensures Apply(s, e).timings <= s.timings
  {
    hide Removed, OnTiming, OnRunNow;
  }

  /** Every report in the channel was sent by one such event. */
  lemma {:induction false} ReportOrigin(states: seq<State>, events: seq<Event>, n: nat, m: Timing) returns (k: nat)
    requires Execution(states, events) && n < |states| && m in states[n].timings
    ensures k < n && k < |events|
    ensures || (Announces(states, events, k, (m.act, m.id))
                && m == Timing(m.id, m.act, states[k].w.now, ZERO))
            || (Finishes(states, events, k, (m.act, m.id)) && m == Timing(m.id, m.act, ZERO, states[k].w.now))
  {
    if n > 0 {
      if m in states[n - 1].timings {
        k := ReportOrigin(states, events, n - 1, m);
      } else {
        k := n - 1;
        EventOf(states, events, k);
        hide Apply, Enabled, Safe, Base, RunInv;
        ReportsAppear(states[k], events[k], m);
      }
    }
  }

  lemma {:induction false} ClockGoesOn(states: seq<State>, events: seq<Event>, l: nat, k: nat)
    requires Execution(states, events) && l <= k < |states|
    ensures ZERO < states[l].w.now <= states[k].w.now
    decreases k - l
  {
    hide *;
    Lengths(states, events);
    if l < k {
      ClockStep(states, events, k - 1);
      ClockGoesOn(states, events, l, k - 1);
    } else {
      ClockStarted(states, events, l);
    }
  }

  lemma ClockStep(states: seq<State>, events: seq<Event>, k: nat)
    requires Execution(states, events) && k < |events|
    ensures states[k].w.now <= states[k + 1].w.now
  {
    EventOf(states, events, k);
    hide Apply, Enabled, Safe, Base, RunInv, CountOf, Execution;
    Spacing.HistoryKept(states[k], events[k]);
  }

  lemma ClockStarted(states: seq<State>, events: seq<Event>, k: nat)
    requires Execution(states, events) && k < |states|
    ensures states[k].w.now > ZERO
  {
    InvAlways(states, events);
    assert Inv(states[k]);
    hide Execution, Settled, Unbroken, TimersOwned, OneChain, SentOnce, PokesQuiet, ArmedInOrder;
  }

  /**
    What is reported is true: a report with a start time is of a run announced at that time and not returned
    then; one with a completion time is of a run whose function had returned by that time; and each is one
    or the other.
  */
  lemma ReportsAreTrue(states: seq<State>, events: seq<Event>, n: nat, m: Timing)
    requires Execution(states, events) && n < |states| && m in states[n].timings
    ensures (m.startedAt != ZERO) != (m.completedAt != ZERO)
    ensures m.startedAt != ZERO ==>
              exists k: nat :: k < n && Announces(states, events, k, (m.act, m.id)) && states[k].w.now == m.startedAt
                               && forall l: nat :: l <= k ==> !Returns(states, events, l, (m.act, m.id))
    ensures m.completedAt != ZERO ==>
              exists k: nat :: k < n && Returns(states, events, k, (m.act, m.id)) && states[k].w.now <= m.completedAt
  {
    var a := (m.act, m.id);
    var k := ReportOrigin(states, events, n, m);
    hide *;
    hide Announces, Returns, Finishes, Begun, Done;
    ClockGoesOn(states, events, k, k);
    AtEvent(states, events, k, a);
    DoneByEvent(states, events, k, a);
    Lengths(states, events);
    if Announces(states, events, k, a) {
      NotBoth(states, events, k, a);
    } else {
      var l: nat :| l < k && Returns(states, events, l, a);
      ClockGoesOn(states, events, l, k);
    }
  }

  lemma NotBoth(states: seq<State>, events: seq<Event>, k: nat, a: Activation)
    requires Announces(states, events, k, a)
    ensures !Returns(states, events, k, a)
  {
  }

  // ---- Removal under a run limit ----

  /** A removal is asked for by exactly the reports with a completion time for a job that used up its runs. */
  ghost predicate AsksRemoval(s: State, e: Event, id: JobId) {
    && e.HandleTiming? && e.m in s.timings && e.m.id == id && e.m.completedAt != ZERO
    && id in s.w.jobs && s.w.jobs[id].config.limitRunsTo.Some?
    && s.w.jobs[id].runCount >= s.w.jobs[id].config.limitRunsTo.value
  }

  lemma RemovalAsked(s: State, e: Event, id: JobId)
    requires Safe(s) && Enabled(s, e)
    ensures Apply(s, e).reaping[id] > s.reaping[id] <==> AsksRemoval(s, e, id)
  {
    hide TimersOwned, OneChain, SentOnce, PokesQuiet, ArmedInOrder, Moved, Reported, Sent, Registered, Apply;
    if Moves(e) {
      MoveApplies(s, e);
      MovedReports(s, e.p, e);
    } else if e.Report? {
      ReportApplies(s, e);
      ReportedFrame(s, e.p, e.delivered);
    } else if e.SendOut? {
      SendApplies(s, e);
      SentReports(s, e.p, e.f);
    } else if e.Register? {
      RegisterApplies(s, e);
      RegisteredReports(s, e.id, e.job, e.f);
    } else {
      HandlersAsk(s, e, id);
    }
  }

  lemma HandlersAsk(s: State, e: Event, id: JobId)
    requires Base(s) && Enabled(s, e) && !Moves(e) && !e.Report? && !e.SendOut? && !e.Register?
    ensures Apply(s, e).reaping[id] > s.reaping[id] <==> AsksRemoval(s, e, id)
  {
    if e.HandleTiming? {
      TimingAsks(s, e.m, id);
      hide TimingHandled, Ascending;
    } else {
      hide Removed, OnRunNow, Ascending;
    }
  }

  lemma TimingAsks(s: State, m: Timing, id: JobId)
    ensures TimingHandled(s, m).reaping[id] > s.reaping[id] <==>
            && m.id == id && m.completedAt != ZERO && id in s.w.jobs && s.w.jobs[id].config.limitRunsTo.Some?
            && s.w.jobs[id].runCount >= s.w.jobs[id].config.limitRunsTo.value
  {
  }

  /**
    A run limit never removes a job under a run that used it up: a removal is asked for exactly when a report
    of completion finds the runs used up, and the function has returned in the run that it reports, earlier in
    the execution.
  */
  lemma RemovalAfterReturn(states: seq<State>, events: seq<Event>, k: nat, id: JobId)
    requires Execution(states, events) && k < |events|
    ensures states[k + 1].reaping[id] > states[k].reaping[id] <==> AsksRemoval(states[k], events[k], id)
    ensures AsksRemoval(states[k], events[k], id) ==>
              exists l: nat :: l < k && Returns(states, events, l, (events[k].m.act, id))
  {
    EventOf(states, events, k);
    hide Apply, Enabled, Safe, Base, RunInv, Returns, Execution;
    RemovalAsked(states[k], events[k], id);
    if AsksRemoval(states[k], events[k], id) {
      ReportsAreTrue(states, events, k, events[k].m);
    }
  }
}
