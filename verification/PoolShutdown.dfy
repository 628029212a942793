/** Concurrent calls of Shutdown: who may close scaleStop, and when it is closed twice.

    Shutdown loads the state, stores stateStopping and closes the channel in three steps. The
    invariant says what holds while no two calls are between the first and the last of them; the
    runs at the end show that any two that are can panic, by their own steps and nobody else's. */
module PoolShutdown {
  import opened PoolProtocol
  import opened PoolThreads
  import opened PoolDrain
  import opened PoolRuns

  /** A Shutdown between its load of the state and its close of scaleStop. */
  predicate Inside(pc: Pc) {
    pc == Life(ShutdownStore) || pc == Life(ShutdownScale)
  }

  /** At most one Shutdown is inside, and nobody has closed scaleStop before it. */
  ghost predicate Single(s: Pool) {
    && (forall t, u | t in s.threads && u in s.threads && Inside(s.threads[t]) && Inside(s.threads[u]) :: t == u)
    && (forall t | t in s.threads :: s.threads[t] != Life(Crashed))
    && (forall t | t in s.threads && s.threads[t] == Life(ShutdownScale) :: Closing(s.life.phase))
    && (s.life.scaleClosed ==> Closing(s.life.phase) && forall t | t in s.threads :: !Inside(s.threads[t]))
  }

  /** A Shutdown that finds the pool open and goes on to stop it. */
  predicate Enters(e: Event) {
    e.step == Moves(Life(ShutdownStore))
  }

  predicate Occupied(s: Pool, t: Tid) {
    exists u :: u in s.threads && u != t && Inside(s.threads[u])
  }

  /** No Shutdown goes on while another one is inside. */
  ghost predicate Alone(states: seq<Pool>, events: seq<Event>) {
    |states| == |events| + 1 && forall i | 0 <= i < |events| && Enters(events[i]) :: !Occupied(states[i], events[i].t)
  }

  // ---- Steps ----

  /** A step that moves one thread, which is and stays outside, and leaves the lifecycle alone. */
  lemma OutsideSingle(s: Pool, s': Pool, t: Tid)
    requires Single(s) && s'.life == s.life && t in s'.threads && s'.threads == s.threads[t := s'.threads[t]]
    requires !s'.threads[t].Life?
    ensures Single(s')
  {
  }

  lemma ControlSingle(c: Config, s: Pool, s': Pool, t: Tid, pc': Pc)
    requires Single(s) && Control(c, s, s', t, pc') && (pc' == Life(ShutdownStore) ==> !Occupied(s, t))
    ensures Single(s')
  {
    hide LoopMoves, ExecMoves, SubmitMoves;
  }

  lemma LivesSingle(c: Config, s: Pool, s': Pool, t: Tid, k: LifeStep)
    requires Single(s) && Lives(c, s, s', t, k)
    ensures Single(s')
  {
    hide WaitOver;
    if k == StoreStopping {
      hide Closing;
      assert Closing(s'.life.phase) by { assert s'.life.phase == Stopping; }
    } else if k != Spawn && k != CloseScale {
      LivesOutside(c, s, s', t, k);
      hide Lives;
    }
  }

  lemma LivesOutside(c: Config, s: Pool, s': Pool, t: Tid, k: LifeStep)
    requires Lives(c, s, s', t, k) && k != Spawn && k != StoreStopping && k != CloseScale
    ensures t in s'.threads && s'.threads == s.threads[t := s'.threads[t]] && !Inside(s'.threads[t])
            && s'.threads[t] != Life(Crashed)
    ensures s'.life.scaleClosed == s.life.scaleClosed && (Closing(s.life.phase) ==> Closing(s'.life.phase))
  {
    hide WaitOver;
  }

  lemma CallsSingle(s: Pool, s': Pool, t: Tid, k: CallStep)
    requires Single(s) && Calls(s, s', t, k)
    ensures Single(s')
  {
  }

  lemma SameSingle(s: Pool, s': Pool)
    requires Single(s) && s'.life == s.life && s'.threads == s.threads
    ensures Single(s')
  {
  }

  /** Steps of workers on their jobs and of clients outside the lifecycle. */
  lemma JobStep(c: Config, s: Pool, s': Pool, t: Tid, step: Step)
    requires Next(c, s, s', t, step) && !step.Moves? && !step.Calling? && !step.Living? && !step.Environment?
             && !step.Purge?
    ensures s'.life == s.life && t in s'.threads && s'.threads == s.threads[t := s'.threads[t]]
    ensures !s'.threads[t].Life? && !PcOf(s, t).Life?
  {
    hide Takes, RunsBasic, Prepares, Reserves, Concludes, PutsBack, Begins, Submits, Replays, TakesDead, Moved,
      HeapFull;
    match step
    case Taking(k) => TakesWork(s, s', t, k);
    case Basics(k) => RunsBasicWork(s, s', t, k);
    case Preparing(k) => PreparesWork(s, s', t, k);
    case Reserving(k) => ReservesWork(s, s', t, k);
    case Concluding(k) => ConcludesWork(s, s', t, k);
    case Putting(k) => PutsBackWork(c, s, s', t, k);
    case Leaving => LeavesWork(s, s', t);
    case Submitting(k) => SubmitsServe(c, s, s', t, k);
    case Replaying(k) => ReplaysServe(c, s, s', t, k);
    case _ => OthersServe(c, s, s', t, step);
  }

  lemma StepSingle(c: Config, s: Pool, s': Pool, t: Tid, step: Step)
    requires Single(s) && Next(c, s, s', t, step) && (Enters(Event(t, step)) ==> !Occupied(s, t))
    ensures Single(s')
  {
    hide Control, Calls, Lives, Single, Moved, Occupied;
    match step
    case Moves(pc) => ControlSingle(c, s, s', t, pc);
    case Calling(k) => CallsSingle(s, s', t, k);
    case Living(k) => LivesSingle(c, s, s', t, k);
    case Environment(_) => SameSingle(s, s');
    case Purge => SameSingle(s, s');
    case _ =>
      hide Next;
      JobStep(c, s, s', t, step);
      OutsideSingle(s, s', t);
  }

  lemma InitSingle(c: Config, s: Pool)
    requires Init(c, s)
    ensures Single(s)
  {
  }

  lemma {:induction false} RunSingle(c: Config, states: seq<Pool>, events: seq<Event>, i: nat)
    requires IsRun(c, states, events) && Alone(states, events) && i < |states|
    ensures Single(states[i])
  {
    hide Next, Init, Single, Occupied;
    if i == 0 {
      InitSingle(c, states[0]);
    } else {
      var s, s', t, step := states[i - 1], states[i], events[i - 1].t, events[i - 1].step;
      assert Next(c, s, s', t, step);
      RunSingle(c, states, events, i - 1);
      StepSingle(c, s, s', t, step);
    }
  }

  // ---- Who closes scaleStop twice ----

  ghost predicate ClosedBefore(events: seq<Event>, i: nat) {
    exists m | 0 <= m < i :: m < |events| && events[m].step == Living(CloseScale)
  }

  lemma ScaleStep(c: Config, s: Pool, s': Pool, t: Tid, step: Step)
    requires Next(c, s, s', t, step)
    ensures s'.life.scaleClosed <==> s.life.scaleClosed || (step.Living? && step.life.CloseScale?)
  {
    hide Control, Moved, Lives, Takes, RunsBasic, Prepares, Reserves, Concludes, PutsBack, Leaves, Begins, Submits;
    hide Accepts, Replays, TakesDead, Calls, Outside, Purges;
    match step
    case Moves(pc) => ControlLife(c, s, s', t, pc);
    case Calling(k) => CallsScale(s, s', t, k);
    case Living(k) => ScaleLife(c, s, s', t, k);
    case Environment(k) => OutsideLife(s, s', k);
    case Purge => PurgesLife(s, s');
    case _ =>
      hide Next;
      JobStep(c, s, s', t, step);
  }

  lemma ScaleLife(c: Config, s: Pool, s': Pool, t: Tid, k: LifeStep)
    requires Lives(c, s, s', t, k)
    ensures s'.life.scaleClosed <==> s.life.scaleClosed || k.CloseScale?
  {
    hide WaitOver;
    if !k.CloseScale? { assert s'.life.scaleClosed == s.life.scaleClosed; }
  }

  lemma CallsScale(s: Pool, s': Pool, t: Tid, k: CallStep)
    requires Calls(s, s', t, k)
    ensures s'.life.scaleClosed == s.life.scaleClosed
  {
  }

  lemma OutsideLife(s: Pool, s': Pool, k: EnvStep)
    requires Outside(s, s', k)
    ensures s'.life == s.life
  {
  }

  lemma PurgesLife(s: Pool, s': Pool)
    requires Purges(s, s')
    ensures s'.life == s.life
  {
    hide Moved;
  }

  lemma ControlLife(c: Config, s: Pool, s': Pool, t: Tid, pc': Pc)
    requires Control(c, s, s', t, pc')
    ensures s'.life == s.life
  {
  }

  lemma {:induction false} ScaleClosedExactly(c: Config, states: seq<Pool>, events: seq<Event>, i: nat)
    requires IsRun(c, states, events) && i < |states|
    ensures states[i].life.scaleClosed <==> ClosedBefore(events, i)
  {
    hide Next;
    if i > 0 {
      ScaleClosedExactly(c, states, events, i - 1);
      assert Next(c, states[i - 1], states[i], events[i - 1].t, events[i - 1].step);
      ScaleStep(c, states[i - 1], states[i], events[i - 1].t, events[i - 1].step);
      assert ClosedBefore(events, i) <==> ClosedBefore(events, i - 1) || events[i - 1].step == Living(CloseScale);
    }
  }

  // ---- Main results ----

  /** Closing scaleStop panics if and only if somebody has closed it before. */
  lemma SecondCloseCrashes(c: Config, states: seq<Pool>, events: seq<Event>, i: nat)
    requires IsRun(c, states, events) && i < |events| && events[i].step == Living(CloseScale)
    ensures events[i].t in states[i + 1].threads
    ensures states[i + 1].threads[events[i].t] == Life(Crashed) <==> ClosedBefore(events, i)
  {
    ScaleClosedExactly(c, states, events, i);
    assert Lives(c, states[i], states[i + 1], events[i].t, CloseScale);
    hide Next, Init;
  }

  /** If no Shutdown goes on while another is between its load and its close, nobody ever panics. */
  lemma AloneNeverCrashes(c: Config, states: seq<Pool>, events: seq<Event>, i: nat, t: Tid)
    requires IsRun(c, states, events) && Alone(states, events) && i < |states| && t in states[i].threads
    ensures states[i].threads[t] != Life(Crashed)
  {
    hide Next, Init;
    RunSingle(c, states, events, i);
  }

  /** r is a run that begins with the first i events of the other and goes on with steps of Start,
      Shutdown and Terminate calls already under way. */
  ghost predicate GoesOn(c: Config, states: seq<Pool>, events: seq<Event>, i: nat, r: Trace) {
    && i <= |events| < |states| && IsRun(c, r.states, r.events) && i <= |r.events|
    && r.states[..i + 1] == states[..i + 1] && r.events[..i] == events[..i]
    && forall k | i <= k < |r.events| :: r.events[k].step.Living?
  }

  ghost predicate HasCrashed(s: Pool) {
    exists t :: t in s.threads && s.threads[t] == Life(Crashed)
  }

  lemma PrefixGoesOn(c: Config, states: seq<Pool>, events: seq<Event>, i: nat) returns (r: Trace)
    requires IsRun(c, states, events) && i <= |events|
    ensures GoesOn(c, states, events, i, r) && Reaches(c, r, states[i])
  {
    hide Next, Init;
    r := Trace(states[..i + 1], events[..i]);
  }

  lemma GoOn(c: Config, states: seq<Pool>, events: seq<Event>, i: nat, r: Trace, s: Pool, s': Pool, t: Tid, k: LifeStep)
    returns (r': Trace)
    requires GoesOn(c, states, events, i, r) && Reaches(c, r, s) && Lives(c, s, s', t, k)
    ensures GoesOn(c, states, events, i, r') && Reaches(c, r', s')
  {
    hide Lives, Init;
    r' := Extend(c, r, s, s', t, Living(k));
    hide Next;
  }

  /** A Shutdown that is inside goes on to close scaleStop. */
  lemma Finishes(c: Config, states: seq<Pool>, events: seq<Event>, i: nat, r: Trace, s: Pool, t: Tid)
    returns (r': Trace, s': Pool)
    requires GoesOn(c, states, events, i, r) && Reaches(c, r, s) && t in s.threads && t.Client? && Inside(s.threads[t])
    ensures GoesOn(c, states, events, i, r') && Reaches(c, r', s') && s'.life.scaleClosed
    ensures t in s'.threads && s'.threads == s.threads[t := s'.threads[t]]
    ensures s.life.scaleClosed ==> s'.threads[t] == Life(Crashed)
  {
    hide GoesOn, Reaches;
    r', s' := r, s;
    if s.threads[t] == Life(ShutdownStore) {
      s' := s.(life := s.life.(phase := Stopping), threads := s.threads[t := Life(ShutdownScale)]);
      r' := GoOn(c, states, events, i, r, s, s', t, StoreStopping);
    }
    var s2 := s'.(life := s'.life.(scaleClosed := true),
                  threads := s'.threads[t := Life(if s'.life.scaleClosed then Crashed else CloseFirst(true))]);
    r' := GoOn(c, states, events, i, r', s', s2, t, CloseScale);
    s' := s2;
  }

  /** As soon as one goes on while another is inside, the two of them can panic by themselves. */
  lemma OverlapCanCrash(c: Config, states: seq<Pool>, events: seq<Event>, i: nat) returns (r: Trace, s: Pool)
    requires IsRun(c, states, events) && i < |events| && Enters(events[i]) && Occupied(states[i], events[i].t)
    ensures GoesOn(c, states, events, i + 1, r) && Reaches(c, r, s) && HasCrashed(s)
  {
    var t := events[i].t;
    var u :| u in states[i].threads && u != t && Inside(states[i].threads[u]);
    RunStaffed(c, states, events, i);
    assert Control(c, states[i], states[i + 1], t, Life(ShutdownStore));
    assert t.Client? && u.Client? by { EntersHere(c, states[i], states[i + 1], t, u); }
    hide Next, Init, Staffed, Control;
    r := PrefixGoesOn(c, states, events, i + 1);
    r, s := Finishes(c, states, events, i + 1, r, states[i + 1], u);
    r, s := Finishes(c, states, events, i + 1, r, s, t);
  }

  lemma EntersHere(c: Config, s: Pool, s': Pool, t: Tid, u: Tid)
    requires Staffed(c, s) && Control(c, s, s', t, Life(ShutdownStore)) && u in s.threads && Inside(s.threads[u])
    ensures t.Client? && u.Client?
  {
    hide LoopMoves, ExecMoves, SubmitMoves;
    assert t.Worker? ==> t in s.threads;
  }

  /** A run can be continued from one of its states to a panic, by calls already under way, if and
      only if some Shutdown goes on in it while another is inside. */
  lemma CrashesExactlyByOverlap(c: Config, states: seq<Pool>, events: seq<Event>)
    requires IsRun(c, states, events)
    ensures !Alone(states, events) <==>
              exists i: nat, r: Trace :: GoesOn(c, states, events, i, r) && HasCrashed(r.states[|r.events|])
  {
    hide Next, Init;
    if !Alone(states, events) {
      var i: nat :| i < |events| && Enters(events[i]) && Occupied(states[i], events[i].t);
      var r, s := OverlapCanCrash(c, states, events, i);
      assert GoesOn(c, states, events, i + 1, r);
    } else {
      forall i: nat, r: Trace | GoesOn(c, states, events, i, r) ensures !HasCrashed(r.states[|r.events|]) {
        StaysAlone(c, states, events, i, r);
        forall t | t in r.states[|r.events|].threads ensures r.states[|r.events|].threads[t] != Life(Crashed) {
          AloneNeverCrashes(c, r.states, r.events, |r.events|, t);
        }
      }
    }
  }

  lemma StaysAlone(c: Config, states: seq<Pool>, events: seq<Event>, i: nat, r: Trace)
    requires Alone(states, events) && GoesOn(c, states, events, i, r)
    ensures Alone(r.states, r.events)
  {
    hide Next, Init, Occupied;
    forall k | 0 <= k < |r.events| && Enters(r.events[k]) ensures !Occupied(r.states[k], r.events[k].t) {
      assert r.events[..i][k] == events[..i][k] && r.states[..i + 1][k] == states[..i + 1][k];
    }
  }

  /** In every configuration some run does panic: two clients call Shutdown on a running pool. */
  lemma TwoShutdownsCanCrash(c: Config) returns (r: Trace)
    requires Normal(c)
    ensures IsRun(c, r.states, r.events) && |r.states| == |r.events| + 1 && HasCrashed(r.states[|r.events|])
  {
    hide Next, Init;
    var base, r0, s := Boot(c, map[]);
    var r1, s1 := Walk(c, base, r0, s, Client(0), [Idle, Life(ShutdownLoad), Life(ShutdownStore)]);
    var r2, s2 := Walk(c, base, r1, s1, Client(1), [Idle, Life(ShutdownLoad)]);
    var s3 := s2.(threads := s2.threads[Client(1) := Life(ShutdownStore)]);
    r := SecondEnters(c, base, r2, s2, s3);
    var i := |r2.events|;
    assert Occupied(s2, Client(1)) by { assert Client(0) in s2.threads && Inside(s2.threads[Client(0)]); }
    var r4, s4 := OverlapCanCrash(c, r.states, r.events, i);
    r := r4;
  }

  /** Client 1 goes on as well. */
  lemma SecondEnters(c: Config, base: Trace, r: Trace, s: Pool, s': Pool) returns (r': Trace)
    requires Goes(c, base, r, s) && s.life.phase == Running
    requires Client(1) in s.threads && s.threads[Client(1)] == Life(ShutdownLoad)
    requires s' == s.(threads := s.threads[Client(1) := Life(ShutdownStore)])
    ensures r' == Trace(r.states + [s'], r.events + [Event(Client(1), Moves(Life(ShutdownStore)))])
    ensures Reaches(c, r', s') && |r.states| == |r.events| + 1 && r.states[|r.events|] == s
  {
    assert Control(c, s, s', Client(1), Life(ShutdownStore));
    hide Control;
    r' := Extend(c, r, s, s', Client(1), Moves(Life(ShutdownStore)));
  }

  // ---- What a termination leaves ----

  /** Some caller of Terminate or Shutdown is at one of these points. */
  predicate CallerAt(s: Pool, at: set<LifePc>) {
    exists t :: t in s.threads && s.threads[t].Life? && s.threads[t].y in at
  }

  const CLOSES_BASIC: set<LifePc> := {TerminateCancel, CloseFirst(true), CloseFirst(false)}
  const CLOSES_FAST: set<LifePc> := CLOSES_BASIC + {CloseSecond(true), CloseSecond(false)}
  const CLOSES_HEAP: set<LifePc> := CLOSES_FAST + {CloseThird(true), CloseThird(false)}

  /** Whatever has not yet been done after a termination, or after a shutdown that saw all workers
      leave, somebody is about to do. */
  ghost predicate Winding(s: Pool) {
    && (s.life.phase == Terminated ==>
          && (s.life.ctxDone || CallerAt(s, {TerminateCancel}))
          && (s.life.basicClosed || CallerAt(s, CLOSES_BASIC))
          && (s.life.fastClosed || CallerAt(s, CLOSES_FAST))
          && (s.life.heapClosed || CallerAt(s, CLOSES_HEAP)))
    && (s.life.phase == Stopped ==> s.life.ctxDone || CallerAt(s, {ShutdownCancel}))
  }

  lemma CallersStay(s: Pool, s': Pool, at: set<LifePc>)
    requires CallerAt(s, at)
    requires forall t | t in s.threads && s.threads[t].Life? && s.threads[t].y in at ::
               t in s'.threads && s'.threads[t].Life? && s'.threads[t].y in at
    ensures CallerAt(s', at)
  {
  }

  /** Callers that are about to do something stay where they are. */
  lemma SameWinding(s: Pool, s': Pool)
    requires Winding(s)
    requires s'.life == s.life
             || (s'.life == s.life.(phase := s'.life.phase) && s'.life.phase in {Running, Paused, Stopping})
    requires forall t | t in s.threads && s.threads[t].Life? && (s.threads[t].y in CLOSES_HEAP + {ShutdownCancel}) ::
               t in s'.threads && s'.threads[t] == s.threads[t]
    ensures Winding(s')
  {
    if CallerAt(s, {TerminateCancel}) { CallersStay(s, s', {TerminateCancel}); }
    if CallerAt(s, CLOSES_BASIC) { CallersStay(s, s', CLOSES_BASIC); }
    if CallerAt(s, CLOSES_FAST) { CallersStay(s, s', CLOSES_FAST); }
    if CallerAt(s, CLOSES_HEAP) { CallersStay(s, s', CLOSES_HEAP); }
    if CallerAt(s, {ShutdownCancel}) { CallersStay(s, s', {ShutdownCancel}); }
    hide CallerAt;
  }

  /** Caller t moves on from a point that is in some of the sets. */
  lemma MovesWinding(s: Pool, s': Pool, t: Tid, at: set<LifePc>)
    requires CallerAt(s, at) && t in s.threads && t in s'.threads && s'.threads == s.threads[t := s'.threads[t]]
    requires s.threads[t].Life? && s.threads[t].y in at ==> s'.threads[t].Life? && s'.threads[t].y in at
    ensures CallerAt(s', at)
  {
    CallersStay(s, s', at);
  }

  lemma ClosesWinding(c: Config, s: Pool, s': Pool, t: Tid, k: LifeStep)
    requires Winding(s) && Lives(c, s, s', t, k) && (k == CloseQueue || k == CancelContext)
    ensures Winding(s')
  {
    hide WaitOver;
    var y := s.threads[t].y;
    if CallerAt(s, {TerminateCancel}) && !y.TerminateCancel? { MovesWinding(s, s', t, {TerminateCancel}); }
    if CallerAt(s, CLOSES_BASIC) && !y.CloseFirst? { MovesWinding(s, s', t, CLOSES_BASIC); }
    if CallerAt(s, CLOSES_FAST) && !y.CloseSecond? { MovesWinding(s, s', t, CLOSES_FAST); }
    if CallerAt(s, CLOSES_HEAP) && !y.CloseThird? { MovesWinding(s, s', t, CLOSES_HEAP); }
    if CallerAt(s, {ShutdownCancel}) && !y.ShutdownCancel? { MovesWinding(s, s', t, {ShutdownCancel}); }
    hide CallerAt;
  }

  lemma LivesWinding(c: Config, s: Pool, s': Pool, t: Tid, k: LifeStep)
    requires Staffed(c, s) && Winding(s) && Lives(c, s, s', t, k)
    ensures Winding(s')
  {
    if k == CloseQueue || k == CancelContext {
      ClosesWinding(c, s, s', t, k);
    } else if k == StoreStopped {
      hide WaitOver, Staffed;
      assert s'.threads[t] == Life(ShutdownCancel) && CallerAt(s', {ShutdownCancel});
    } else {
      LivesFrame(c, s, s', t, k);
      hide WaitOver, Staffed, CallerAt;
      if k == CloseScale || k == EndStart {
        RelabelWinding(s, s', t);
      } else {
        SameWinding(s, s');
      }
    }
  }

  lemma RelabelWinding(s: Pool, s': Pool, t: Tid)
    requires Winding(s) && t in s.threads && t in s'.threads && s'.threads == s.threads[t := s'.threads[t]]
    requires s'.life == s.life.(scaleClosed := s'.life.scaleClosed, startDone := s'.life.startDone)
    requires !(s.threads[t].Life? && s.threads[t].y in CLOSES_HEAP + {ShutdownCancel})
    ensures Winding(s')
  {
    if CallerAt(s, {TerminateCancel}) { MovesWinding(s, s', t, {TerminateCancel}); }
    if CallerAt(s, CLOSES_BASIC) { MovesWinding(s, s', t, CLOSES_BASIC); }
    if CallerAt(s, CLOSES_FAST) { MovesWinding(s, s', t, CLOSES_FAST); }
    if CallerAt(s, CLOSES_HEAP) { MovesWinding(s, s', t, CLOSES_HEAP); }
    if CallerAt(s, {ShutdownCancel}) { MovesWinding(s, s', t, {ShutdownCancel}); }
    hide CallerAt;
  }

  lemma CallsWinding(s: Pool, s': Pool, t: Tid, k: CallStep)
    requires Winding(s) && Calls(s, s', t, k)
    ensures Winding(s')
  {
    if k == Terminate {
      if s.life.phase == Terminated {
        SameWinding(s, s');
      } else {
        assert s'.threads[t] == Life(TerminateCancel);
        assert CallerAt(s', {TerminateCancel}) && CallerAt(s', CLOSES_BASIC) && CallerAt(s', CLOSES_FAST);
        assert CallerAt(s', CLOSES_HEAP);
      }
    } else {
      SameWinding(s, s');
    }
  }

  lemma ControlWinding(c: Config, s: Pool, s': Pool, t: Tid, pc': Pc)
    requires Winding(s) && Control(c, s, s', t, pc')
    ensures Winding(s')
  {
    hide LoopMoves, ExecMoves, SubmitMoves;
    SameWinding(s, s');
  }

  lemma StepWinding(c: Config, s: Pool, s': Pool, t: Tid, step: Step)
    requires Staffed(c, s) && Winding(s) && Next(c, s, s', t, step)
    ensures Winding(s')
  {
    hide Control, Calls, Lives, Winding, Moved, Staffed, CallerAt;
    match step
    case Moves(pc) => ControlWinding(c, s, s', t, pc);
    case Calling(k) => CallsWinding(s, s', t, k);
    case Living(k) => LivesWinding(c, s, s', t, k);
    case Environment(k) => OutsideLife(s, s', k); SameWinding(s, s');
    case Purge => SameWinding(s, s');
    case _ =>
      hide Next;
      JobStep(c, s, s', t, step);
      SameWinding(s, s');
  }

  lemma {:induction false} RunWinding(c: Config, states: seq<Pool>, events: seq<Event>, i: nat)
    requires IsRun(c, states, events) && i < |states|
    ensures Winding(states[i])
  {
    hide Next, Winding, Staffed;
    if i == 0 {
      InitWinding(c, states[0]);
    } else {
      hide Init;
      RunWinding(c, states, events, i - 1);
      RunStaffed(c, states, events, i - 1);
      StepWinding(c, states[i - 1], states[i], events[i - 1].t, events[i - 1].step);
    }
  }

  lemma InitWinding(c: Config, s: Pool)
    requires Init(c, s)
    ensures Winding(s)
  {
  }

  /** Once the callers of Terminate and Shutdown are through, a terminated pool has its context cancelled
      and all its queues closed, and a stopped one its context cancelled. */
  lemma EndsAreComplete(c: Config, states: seq<Pool>, events: seq<Event>, i: nat)
    requires IsRun(c, states, events) && i < |states|
    requires forall t | t in states[i].threads && states[i].threads[t].Life? ::
               states[i].threads[t].y !in CLOSES_HEAP + {ShutdownCancel}
    ensures var life := states[i].life;
      && (life.phase == Terminated ==> life.ctxDone && life.basicClosed && life.fastClosed && life.heapClosed)
      && (life.phase == Stopped ==> life.ctxDone)
  {
    hide Next, Init;
    RunWinding(c, states, events, i);
  }
}
