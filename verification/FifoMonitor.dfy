/** queue/fifo.go as a monitor: every mutex-protected body is one step. */
module FifoMonitor {
  import opened Options
  import opened Fifo

  /** Callers block on the condition variables notFull and notEmpty. A woken one holds nothing until it runs
      again, so anybody may overtake it. */
  datatype Monitor<T> = Monitor(
    q: Queue<T>,
    pushAsleep: set<nat>, pushWoken: set<nat>,   // callers of Push waiting on notFull
    popAsleep: set<nat>, popWoken: set<nat>,     // callers of Pop waiting on notEmpty
    values: map<nat, T>,                         // what each waiting pusher wants to push
    pushed: seq<T>, popped: seq<T>)              // history

  ghost predicate Init<T>(m: Monitor<T>) {
    && m.q.capacity >= 1 && m.q.items == [] && !m.q.closed
    && m.pushAsleep == m.pushWoken == m.popAsleep == m.popWoken == {}
    && m.pushed == m.popped == []
  }

  datatype Step<T> =
    | TryPush(v: T)
    | Push(t: nat, v: T)      // a new call of Push
    | PushAgain(t: nat)       // a woken pusher re-tests its loop condition
    | TryPop                  // also each poll of PopTimeout
    | Pop(t: nat)
    | PopAgain(t: nat)
    | Close

  /** Cond.Signal: one sleeper, if any, becomes runnable. */
  ghost predicate Signalled(asleep: set<nat>, woken: set<nat>, asleep': set<nat>, woken': set<nat>) {
    if asleep == {} then asleep' == asleep && woken' == woken
    else exists u | u in asleep :: asleep' == asleep - {u} && woken' == woken + {u}
  }

  /** A push body that finds room: append and signal notEmpty. */
  ghost predicate Stores<T>(m: Monitor<T>, m': Monitor<T>, v: T) {
    && Offer(m.q, v) == (m'.q, true)
    && Signalled(m.popAsleep, m.popWoken, m'.popAsleep, m'.popWoken)
    && m'.pushed == m.pushed + [v] && m'.popped == m.popped
  }

  /** A pop body that finds a value: remove it and signal notFull. */
  ghost predicate Removes<T>(m: Monitor<T>, m': Monitor<T>) {
    && Take(m.q).1.Some? && m'.q == Take(m.q).0
    && Signalled(m.pushAsleep, m.pushWoken, m'.pushAsleep, m'.pushWoken)
    && m'.popped == m.popped + [Take(m.q).1.value] && m'.pushed == m.pushed
  }

  ghost predicate Free<T>(m: Monitor<T>, t: nat) {
    t !in m.pushAsleep + m.pushWoken + m.popAsleep + m.popWoken
  }

  /** The body of Push run by t, which is not asleep: m0 is m with t no longer waiting. */
  ghost predicate PushBody<T>(m0: Monitor<T>, m': Monitor<T>, t: nat, v: T) {
    if !m0.q.closed && |m0.q.items| == m0.q.capacity then
      m' == m0.(pushAsleep := m0.pushAsleep + {t}, values := m0.values[t := v])
    else if m0.q.closed then m' == m0
    else Stores(m0, m', v) && m'.pushAsleep == m0.pushAsleep && m'.pushWoken == m0.pushWoken && m'.values == m0.values
  }

  ghost predicate PopBody<T>(m0: Monitor<T>, m': Monitor<T>, t: nat) {
    if !m0.q.closed && m0.q.items == [] then m' == m0.(popAsleep := m0.popAsleep + {t})
    else if m0.q.items == [] then m' == m0
    else Removes(m0, m') && m'.popAsleep == m0.popAsleep && m'.popWoken == m0.popWoken && m'.values == m0.values
  }

  ghost predicate Next<T>(m: Monitor<T>, m': Monitor<T>, step: Step<T>) {
    match step
    case TryPush(v) =>
      if Offer(m.q, v).1 then
        Stores(m, m', v) && m'.pushAsleep == m.pushAsleep && m'.pushWoken == m.pushWoken && m'.values == m.values
      else m' == m
    case Push(t, v) => Free(m, t) && PushBody(m, m', t, v)
    case PushAgain(t) =>
      t in m.pushWoken && t in m.values && PushBody(m.(pushWoken := m.pushWoken - {t}), m', t, m.values[t])
    case TryPop =>
      if m.q.items != [] then
        Removes(m, m') && m'.popAsleep == m.popAsleep && m'.popWoken == m.popWoken && m'.values == m.values
      else m' == m
    case Pop(t) => Free(m, t) && PopBody(m, m', t)
    case PopAgain(t) => t in m.popWoken && PopBody(m.(popWoken := m.popWoken - {t}), m', t)
    case Close =>
      m' == m.(q := m.q.(closed := true),
               pushWoken := m.pushWoken + m.pushAsleep, pushAsleep := {},
               popWoken := m.popWoken + m.popAsleep, popAsleep := {})
  }

  /** The invariant of every state. Its third and second last lines say that no wakeup is lost:
      while somebody sleeps, the woken callers are enough to use up every free slot (every value). */
  ghost predicate Inv<T>(m: Monitor<T>) {
    InvBut(m, 0, 0)
  }

  /** The invariant when `pushes` woken pushers and `pops` woken poppers have just started running. */
  ghost predicate InvBut<T>(m: Monitor<T>, pushes: nat, pops: nat) {
    && m.q.capacity >= 1 && |m.q.items| <= m.q.capacity
    && m.pushAsleep !! m.pushWoken && m.popAsleep !! m.popWoken
    && (forall t | t in m.pushAsleep + m.pushWoken :: t in m.values && t !in m.popAsleep + m.popWoken)
    && (m.q.closed ==> m.pushAsleep == m.popAsleep == {})
    && (m.pushAsleep != {} ==> |m.pushWoken| + pushes >= m.q.capacity - |m.q.items|)
    && (m.popAsleep != {} ==> |m.popWoken| + pops >= |m.q.items|)
    && m.pushed == m.popped + m.q.items
  }

  /** Waking one of the sleepers never lowers their number plus the number already woken. */
  lemma SignalKeeps(asleep: set<nat>, woken: set<nat>, asleep': set<nat>, woken': set<nat>)
    requires asleep !! woken && Signalled(asleep, woken, asleep', woken')
    ensures asleep' !! woken' && asleep' + woken' == asleep + woken
    ensures |woken'| == |woken| + (if asleep == {} then 0 else 1)
    ensures asleep' != {} ==> asleep != {}
  {
  }

  lemma StoresInv<T>(m: Monitor<T>, m': Monitor<T>, v: T)
    requires InvBut(m, 1, 0) && Stores(m, m', v)
    requires m'.pushAsleep == m.pushAsleep && m'.pushWoken == m.pushWoken && m'.values == m.values
    ensures Inv(m')
  {
    SignalKeeps(m.popAsleep, m.popWoken, m'.popAsleep, m'.popWoken);
    assert forall t | t in m'.popAsleep + m'.popWoken :: t in m.popAsleep + m.popWoken;
  }

  lemma RemovesInv<T>(m: Monitor<T>, m': Monitor<T>)
    requires InvBut(m, 0, 1) && Removes(m, m')
    requires m'.popAsleep == m.popAsleep && m'.popWoken == m.popWoken && m'.values == m.values
    ensures Inv(m')
  {
    SignalKeeps(m.pushAsleep, m.pushWoken, m'.pushAsleep, m'.pushWoken);
    assert forall t | t in m'.pushAsleep + m'.pushWoken :: t in m.pushAsleep + m.pushWoken;
  }

  lemma PushBodyInv<T>(m: Monitor<T>, m': Monitor<T>, t: nat, v: T)
    requires InvBut(m, 1, 0) && Free(m, t) && PushBody(m, m', t, v)
    ensures Inv(m')
  {
    if !m.q.closed && |m.q.items| < m.q.capacity {
      StoresInv(m, m', v);
    }
  }

  lemma PopBodyInv<T>(m: Monitor<T>, m': Monitor<T>, t: nat)
    requires InvBut(m, 0, 1) && Free(m, t) && PopBody(m, m', t)
    ensures Inv(m')
  {
    if m.q.items != [] {
      RemovesInv(m, m');
    }
  }

  lemma StepInv<T>(m: Monitor<T>, m': Monitor<T>, step: Step<T>)
    requires Inv(m) && Next(m, m', step)
    ensures Inv(m')
  {
    match step
    case TryPush(v) => if Offer(m.q, v).1 { StoresInv(m, m', v); }
    case Push(t, v) => PushBodyInv(m, m', t, v);
    case PushAgain(t) =>
      assert |m.pushWoken - {t}| == |m.pushWoken| - 1;
      PushBodyInv(m.(pushWoken := m.pushWoken - {t}), m', t, m.values[t]);
    case TryPop => if m.q.items != [] { RemovesInv(m, m'); }
    case Pop(t) => PopBodyInv(m, m', t);
    case PopAgain(t) =>
      assert |m.popWoken - {t}| == |m.popWoken| - 1;
      PopBodyInv(m.(popWoken := m.popWoken - {t}), m', t);
    case Close =>
  }

  ghost predicate Run<T>(states: seq<Monitor<T>>, steps: seq<Step<T>>) {
    && |states| == |steps| + 1 && Init(states[0])
    && forall i | 0 <= i < |steps| :: Next(states[i], states[i + 1], steps[i])
  }

  lemma {:induction false} RunInv<T>(states: seq<Monitor<T>>, steps: seq<Step<T>>, k: nat)
    requires Run(states, steps) && k < |states|
    ensures Inv(states[k])
  {
    if k > 0 {
      RunInv(states, steps, k - 1);
      StepInv(states[k - 1], states[k], steps[k - 1]);
    }
  }

  // ---- Main results ----

  /** No lost wakeup, in every reachable state and for both conditions. Once every woken caller
      has run, a pusher still asleep faces a full open queue and a popper still asleep an empty
      open queue, so nobody sleeps beside work it could do; after Close nobody sleeps. */
  lemma NoLostWakeup<T>(states: seq<Monitor<T>>, steps: seq<Step<T>>, k: nat)
    requires Run(states, steps) && k < |states|
    ensures var m := states[k];
      && (m.q.closed ==> m.pushAsleep == {} && m.popAsleep == {})
      && (m.pushAsleep != {} ==> |m.pushWoken| >= m.q.capacity - |m.q.items|)
      && (m.popAsleep != {} ==> |m.popWoken| >= |m.q.items|)
      && (m.pushWoken == {} && m.pushAsleep != {} ==> |m.q.items| == m.q.capacity)
      && (m.popWoken == {} && m.popAsleep != {} ==> m.q.items == [])
  {
    RunInv(states, steps, k);
  }

  /** Values come out in the order they went in, each once, across blocking and non-blocking
      callers; what went in and has not come out is what the buffer holds. */
  lemma FirstInFirstOut<T>(states: seq<Monitor<T>>, steps: seq<Step<T>>, k: nat)
    requires Run(states, steps) && k < |states|
    ensures states[k].pushed == states[k].popped + states[k].q.items
    ensures |states[k].q.items| <= states[k].q.capacity
  {
    RunInv(states, steps, k);
  }

  /** Closing is final, and nothing enters a closed queue. */
  lemma {:induction false} ClosedForGood<T>(states: seq<Monitor<T>>, steps: seq<Step<T>>, j: nat, k: nat)
    requires Run(states, steps) && j <= k < |states| && states[j].q.closed
    ensures states[k].q.closed && states[k].pushed == states[j].pushed
  {
    if j < k {
      ClosedForGood(states, steps, j, k - 1);
      assert Next(states[k - 1], states[k], steps[k - 1]);
    }
  }

  /** What a non-blocking call does to what went in and came out, in an open or a closed queue. */
  lemma TryOutcomes<T>(states: seq<Monitor<T>>, steps: seq<Step<T>>, k: nat)
    requires Run(states, steps) && k < |steps|
    ensures var (m, m') := (states[k], states[k + 1]);
      && (steps[k].TryPush? ==>
            && m'.popped == m.popped
            && m'.pushed == m.pushed + if !m.q.closed && |m.q.items| < m.q.capacity then [steps[k].v] else [])
      && (steps[k].TryPop? ==>
            && m'.pushed == m.pushed
            && m'.popped == m.popped + if m.q.items != [] then [m.q.items[0]] else [])
  {
    assert Next(states[k], states[k + 1], steps[k]);
  }

  ghost function Awake(asleep: set<nat>, woken: set<nat>): (r: (set<nat>, set<nat>))
    ensures Signalled(asleep, woken, r.0, r.1)
  {
    if asleep == {} then (asleep, woken)
    else
      var u :| u in asleep;
      (asleep - {u}, woken + {u})
  }

  /** As long as there are values, TryPop can hand out the oldest. */
  lemma TryPopCan<T>(m: Monitor<T>) returns (m': Monitor<T>)
    requires m.q.items != []
    ensures Next(m, m', TryPop)
    ensures m'.q == m.q.(items := m.q.items[1..]) && m'.popped == m.popped + [m.q.items[0]] && m'.pushed == m.pushed
  {
    var (asleep, woken) := Awake(m.pushAsleep, m.pushWoken);
    m' := m.(q := m.q.(items := m.q.items[1..]), pushAsleep := asleep, pushWoken := woken,
             popped := m.popped + [m.q.items[0]]);
  }

  /** Nothing is stuck in a queue, closed or not: every run goes on, by pops alone, to a state in
      which everything that was pushed has been popped. */
  lemma {:induction false} CanBeDrained<T>(states: seq<Monitor<T>>, steps: seq<Step<T>>)
    returns (states': seq<Monitor<T>>, steps': seq<Step<T>>)
    requires Run(states, steps)
    ensures Run(states', steps') && states <= states' && steps <= steps'
    ensures forall i | |steps| <= i < |steps'| :: steps'[i] == TryPop
    ensures var (m, m') := (states[|steps|], states'[|steps'|]);
      m'.q == m.q.(items := []) && m'.pushed == m'.popped == m.pushed
    decreases |states[|steps|].q.items|
  {
    var m := states[|steps|];
    if m.q.items == [] {
      states', steps' := states, steps;
      RunInv(states, steps, |steps|);
    } else {
      var m1 := TryPopCan(m);
      var states1, steps1 := states + [m1], steps + [TryPop];
      hide Next;
      assert Run(states1, steps1);
      states', steps' := CanBeDrained(states1, steps1);
    }
  }
}
