/** How consumers of the delayed queue (queue/priority.go) sleep and are woken, one step per mutex-protected body. */
module PriorityWake {
  import opened PriorityQueue

  datatype Pc =
    | Outside
    | PopTop                          // in Pop, about to lock and look at the heap
    | CondWait                        // in Pop, asleep on notEmpty
    | PopParked(timer: int)           // in Pop, in the select on timer and wake
    | TimedTop(deadline: int)         // in PopTimeout, about to look at the heap
    | TimedParked(timer: int, deadline: int)

  datatype World<V(==)> = World(q: Queue<V>, now: int, token: bool, consumers: map<nat, Pc>)

  datatype Step<V> =
    | Tick(to: int)
    | Push(it: Item<V>)
    | DropOldestPush(it: Item<V>)
    | Close
    | CallPop(c: nat) | CallPopTimeout(c: nat, timeout: int) | TryPop(c: nat, it: Item<V>)
    | Look(c: nat, it: Item<V>)       // one pass of the loop body; it is the heap's root if any
    | TimerFires(c: nat)
    | TakeToken(c: nat)

  /** signalLocked leaves a token in the channel; Signal makes one sleeper, if any, runnable. */
  ghost predicate Signals<V(!new)>(w: World<V>, w': World<V>, q': Queue<V>) {
    || ((forall c | c in w.consumers :: w.consumers[c] != CondWait) && w' == w.(q := q', token := true))
    || (exists c | c in w.consumers :: w.consumers[c] == CondWait &&
          w' == w.(q := q', token := true, consumers := w.consumers[c := PopTop]))
  }

  ghost predicate Removes<V>(w: World<V>, w': World<V>, c: nat, it: Item<V>) {
    && IsLeast(it, w.q.items) && it.runAt <= w.now
    && w' == w.(q := w.q.(items := w.q.items - multiset{it}), consumers := w.consumers[c := Outside])
  }

  function Min(a: int, b: int): int {
    if a < b then a else b
  }

  ghost predicate Looks<V>(w: World<V>, w': World<V>, c: nat, it: Item<V>)
    requires c in w.consumers
  {
    match w.consumers[c]
    case PopTop =>
      if w.q.items == multiset{} then
        w' == w.(consumers := w.consumers[c := if w.q.closed then Outside else CondWait])
      else if IsLeast(it, w.q.items) && it.runAt > w.now then
        w' == w.(consumers := w.consumers[c := PopParked(it.runAt)])
      else Removes(w, w', c, it)
    case TimedTop(deadline) =>
      if w.q.items == multiset{} then
        w' == w.(consumers := w.consumers[c :=
          if w.q.closed || deadline <= w.now then Outside else TimedParked(deadline, deadline)])
      else if deadline <= w.now then w' == w.(consumers := w.consumers[c := Outside])
      else if IsLeast(it, w.q.items) && it.runAt > w.now then
        w' == w.(consumers := w.consumers[c := TimedParked(Min(it.runAt, deadline), deadline)])
      else Removes(w, w', c, it)
    case _ => false
  }

  /** The loop a parked consumer returns to. */
  function Resumed(pc: Pc): Pc {
    match pc
    case PopParked(_) => PopTop
    case TimedParked(_, deadline) => TimedTop(deadline)
    case _ => pc
  }

  predicate Parked(pc: Pc) {
    pc.PopParked? || pc.TimedParked?
  }

  ghost predicate Next<V(!new)>(w: World<V>, w': World<V>, step: Step<V>) {
    match step
    case Tick(to) => w.now <= to && w' == w.(now := to)
    case Push(it) =>
      if w.q.closed || Full(w.q) then w' == w
      else Signals(w, w', w.q.(items := w.q.items + multiset{it}))
    case DropOldestPush(it) =>
      if w.q.closed then w' == w
      else if Full(w.q) then
        exists e | e in w.q.items :: IsLeast(e, w.q.items) &&
          Signals(w, w', w.q.(items := w.q.items - multiset{e} + multiset{it}))
      else Signals(w, w', w.q.(items := w.q.items + multiset{it}))
    case Close =>
      w' == w.(q := w.q.(closed := true), token := true,
               consumers := map c | c in w.consumers :: if w.consumers[c] == CondWait then PopTop else w.consumers[c])
    case CallPop(c) => c in w.consumers && w.consumers[c] == Outside && w' == w.(consumers := w.consumers[c := PopTop])
    case CallPopTimeout(c, timeout) =>
      c in w.consumers && w.consumers[c] == Outside
        && w' == w.(consumers := w.consumers[c := TimedTop(w.now + timeout)])
    case TryPop(c, it) => c in w.consumers && w.consumers[c] == Outside && Removes(w, w', c, it)
    case Look(c, it) => c in w.consumers && Looks(w, w', c, it)
    case TimerFires(c) =>
      && c in w.consumers && Parked(w.consumers[c]) && w.consumers[c].timer <= w.now
      && w' == w.(consumers := w.consumers[c := Resumed(w.consumers[c])])
    case TakeToken(c) =>
      && c in w.consumers && Parked(w.consumers[c]) && w.token
      && w' == w.(token := false, consumers := w.consumers[c := Resumed(w.consumers[c])])
  }

  ghost predicate Init<V>(w: World<V>) {
    && w.q.items == multiset{} && !w.q.closed && !w.token
    && forall c | c in w.consumers :: w.consumers[c] == Outside
  }

  ghost predicate Run<V(!new)>(states: seq<World<V>>, steps: seq<Step<V>>) {
    && |states| == |steps| + 1 && Init(states[0])
    && forall i | 0 <= i < |steps| :: Next(states[i], states[i + 1], steps[i])
  }

  /** With one consumer: parked without a token, its timer is due no later than any item; asleep
      on the condition, there is nothing to do. */
  ghost predicate Inv<V(!new)>(w: World<V>, c: nat) {
    && w.consumers.Keys == {c}
    && (Parked(w.consumers[c]) && !w.token ==> forall x | x in w.q.items :: w.consumers[c].timer <= x.runAt)
    && (w.consumers[c] == CondWait ==> w.q.items == multiset{} && !w.q.closed)
  }

  lemma LookInv<V(!new)>(w: World<V>, w': World<V>, c: nat, it: Item<V>)
    requires Inv(w, c) && Looks(w, w', c, it)
    ensures Inv(w', c)
  {
    if IsLeast(it, w.q.items) {
      forall x | x in w.q.items ensures it.runAt <= x.runAt {
        assert !Less(x, it);
      }
    }
  }

  lemma SignalsInv<V(!new)>(w: World<V>, w': World<V>, c: nat, q': Queue<V>)
    requires Inv(w, c) && Signals(w, w', q')
    ensures Inv(w', c)
  {
    assert c in w.consumers;
    if w.consumers[c] == CondWait {
      assert forall d | d in w.consumers :: d == c;
      assert w'.consumers[c] == PopTop;
    }
    assert w'.consumers.Keys == {c};
  }

  lemma StepInv<V(!new)>(w: World<V>, w': World<V>, c: nat, step: Step<V>)
    requires Inv(w, c) && Next(w, w', step)
    ensures Inv(w', c)
  {
    match step
    case Look(d, it) => LookInv(w, w', c, it);
    case Push(it) => if w' != w { SignalsInv(w, w', c, w'.q); }
    case DropOldestPush(it) => if w' != w { SignalsInv(w, w', c, w'.q); }
    case _ =>
  }

  lemma {:induction false} RunInv<V(!new)>(states: seq<World<V>>, steps: seq<Step<V>>, c: nat, k: nat)
    requires Run(states, steps) && k < |states| && states[0].consumers.Keys == {c}
    ensures Inv(states[k], c)
  {
    if k > 0 {
      RunInv(states, steps, c, k - 1);
      StepInv(states[k - 1], states[k], c, steps[k - 1]);
    }
  }

  /** A consumer is stuck when it sleeps, nothing pending can wake it, and an item is due. */
  ghost predicate Oversleeps<V(!new)>(w: World<V>, c: nat) {
    && c in w.consumers
    && (w.consumers[c] == CondWait || (Parked(w.consumers[c]) && !w.token && w.now < w.consumers[c].timer))
    && exists x | x in w.q.items :: x.runAt <= w.now
  }

  /** A single consumer never sleeps past the RunAt of any queued item, however late the item was
      pushed; and an item earlier than its timer means that a token is waiting for it. */
  lemma SingleConsumerWakes<V(!new)>(states: seq<World<V>>, steps: seq<Step<V>>, c: nat, k: nat)
    requires Run(states, steps) && k < |states| && states[0].consumers.Keys == {c}
    ensures !Oversleeps(states[k], c)
    ensures forall x | x in states[k].q.items ::
              c in states[k].consumers && Parked(states[k].consumers[c]) && x.runAt < states[k].consumers[c].timer ==>
                  states[k].token
  {
    RunInv(states, steps, c, k);
  }

  lemma Extend<V(!new)>(states: seq<World<V>>, steps: seq<Step<V>>, w: World<V>, step: Step<V>)
    returns (states': seq<World<V>>, steps': seq<Step<V>>)
    requires Run(states, steps) && Next(states[|states| - 1], w, step)
    ensures Run(states', steps') && states'[0] == states[0] && states'[|states'| - 1] == w
  {
    states', steps' := states + [w], steps + [step];
  }

  /** Consumer a is at pa, b at pb, every other consumer of the set is outside. */
  ghost function Scene<V(!new)>(consumers: set<nat>, a: nat, b: nat, q: Queue<V>, now: int, token: bool, pa: Pc,
                                pb: Pc): World<V> {
    World(q, now, token, map c | c in consumers :: if c == a then pa else if c == b then pb else Outside)
  }

  lemma SceneMoves<V(!new)>(consumers: set<nat>, a: nat, b: nat, q: Queue<V>, now: int, token: bool, pa: Pc, pb: Pc,
                            x: Pc)
    requires a in consumers && b in consumers && a != b
    ensures Scene(consumers, a, b, q, now, token, pa, pb).consumers[a := x]
            == Scene(consumers, a, b, q, now, token, x, pb).consumers
    ensures Scene(consumers, a, b, q, now, token, pa, pb).consumers[b := x]
            == Scene(consumers, a, b, q, now, token, pa, x).consumers
  {
  }

  /** Consumer b parks in PopTimeout before a late item. */
  lemma OneParks<V(!new)>(consumers: set<nat>, a: nat, b: nat, capacity: int, late: Item<V>)
    returns (states: seq<World<V>>, steps: seq<Step<V>>)
    requires a in consumers && b in consumers && a != b && late.runAt == 1000
    ensures Run(states, steps) && states[0].consumers.Keys == consumers && states[0].q.capacity == capacity
    ensures states[|states| - 1]
         == Scene(consumers, a, b, Queue(multiset{late}, capacity, false), 0, true, Outside, TimedParked(5, 5))
  {
    var q0: Queue<V> := Queue(multiset{}, capacity, false);
    var q := Queue(multiset{late}, capacity, false);
    var w0 := Scene(consumers, a, b, q0, 0, false, Outside, Outside);
    var w1 := Scene(consumers, a, b, q, 0, true, Outside, Outside);
    assert q0.items + multiset{late} == multiset{late};
    assert Signals(w0, w1, w1.q);
    states, steps := Extend([w0], [], w1, Push(late));
    SceneMoves(consumers, a, b, q, 0, true, Outside, Outside, TimedTop(5));
    var w2 := Scene(consumers, a, b, q, 0, true, Outside, TimedTop(5));
    states, steps := Extend(states, steps, w2, CallPopTimeout(b, 5));
    SceneMoves(consumers, a, b, q, 0, true, Outside, TimedTop(5), TimedParked(5, 5));
    states, steps := Extend(states, steps, Scene(consumers, a, b, q, 0, true, Outside, TimedParked(5, 5)),
                            Look(b, late));
  }

  /** Then consumer a parks in Pop, and time passes. */
  lemma BothPark<V(!new)>(consumers: set<nat>, a: nat, b: nat, capacity: int, late: Item<V>)
    returns (states: seq<World<V>>, steps: seq<Step<V>>)
    requires a in consumers && b in consumers && a != b && late.runAt == 1000
    ensures Run(states, steps) && states[0].consumers.Keys == consumers && states[0].q.capacity == capacity
    ensures states[|states| - 1]
         == Scene(consumers, a, b, Queue(multiset{late}, capacity, false), 10, true, PopParked(1000), TimedParked(5, 5))
  {
    var q := Queue(multiset{late}, capacity, false);
    states, steps := OneParks(consumers, a, b, capacity, late);
    SceneMoves(consumers, a, b, q, 0, true, Outside, TimedParked(5, 5), PopTop);
    states, steps := Extend(states, steps, Scene(consumers, a, b, q, 0, true, PopTop, TimedParked(5, 5)), CallPop(a));
    SceneMoves(consumers, a, b, q, 0, true, PopTop, TimedParked(5, 5), PopParked(1000));
    states, steps := Extend(states, steps, Scene(consumers, a, b, q, 0, true, PopParked(1000), TimedParked(5, 5)),
                            Look(a, late));
    states, steps := Extend(states, steps, Scene(consumers, a, b, q, 10, true, PopParked(1000), TimedParked(5, 5)),
                            Tick(10));
  }

  /** A due item arrives; it replaces the late one if there is room for one only. */
  lemma DueItemArrives<V(!new)>(w: World<V>, late: Item<V>, soon: Item<V>) returns (w': World<V>)
    requires w.q.items == multiset{late} && !w.q.closed && w.token
    requires forall c | c in w.consumers :: w.consumers[c] != CondWait
    ensures Next(w, w', DropOldestPush(soon)) && w' == w.(q := w.q.(items := w'.q.items)) && soon in w'.q.items
  {
    var items := if Full(w.q) then multiset{late} - multiset{late} + multiset{soon}
      else multiset{late} + multiset{soon};
    w' := w.(q := w.q.(items := items));
    assert IsLeast(late, w.q.items);
    assert Signals(w, w', w'.q);
  }

  /** The consumers are this set, the queue has this capacity, and c ends up stuck. */
  ghost predicate GetsStuck<V(!new)>(consumers: set<nat>, capacity: int, states: seq<World<V>>, steps: seq<Step<V>>,
                                     c: nat) {
    && Run(states, steps) && states[0].consumers.Keys == consumers && states[0].q.capacity == capacity
    && Oversleeps(states[|steps|], c)
  }

  /** With two consumers or more, b may take the token meant for both and leave empty-handed
      because its own deadline has passed, while a sleeps on past the due item. */
  lemma TwoConsumersMayOversleep<V(!new)>(consumers: set<nat>, a: nat, b: nat, capacity: int, v: V)
    returns (states: seq<World<V>>, steps: seq<Step<V>>)
    requires a in consumers && b in consumers && a != b
    ensures GetsStuck(consumers, capacity, states, steps, a)
  {
    var (late, soon) := (Item(v, 0, 0, 1000), Item(v, 0, 1, 10));
    states, steps := BothPark(consumers, a, b, capacity, late);
    var w1 := DueItemArrives(states[|states| - 1], late, soon);
    states, steps := Extend(states, steps, w1, DropOldestPush(soon));
    var w2, w3 := TokenIsWasted(consumers, a, b, w1.q, soon);
    hide Next;
    states, steps := Extend(states, steps, w2, TakeToken(b));
    states, steps := Extend(states, steps, w3, Look(b, soon));
  }

  lemma TokenIsWasted<V(!new)>(consumers: set<nat>, a: nat, b: nat, q: Queue<V>, soon: Item<V>)
    returns (w2: World<V>, w3: World<V>)
    requires a in consumers && b in consumers && a != b && soon in q.items && soon.runAt == 10
    ensures Next(Scene(consumers, a, b, q, 10, true, PopParked(1000), TimedParked(5, 5)), w2, TakeToken(b))
    ensures Next(w2, w3, Look(b, soon)) && Oversleeps(w3, a)
  {
    SceneMoves(consumers, a, b, q, 10, true, PopParked(1000), TimedParked(5, 5), TimedTop(5));
    w2 := Scene(consumers, a, b, q, 10, false, PopParked(1000), TimedTop(5));
    SceneMoves(consumers, a, b, q, 10, false, PopParked(1000), TimedTop(5), Outside);
    w3 := Scene(consumers, a, b, q, 10, false, PopParked(1000), Outside);
  }

  lemma LookKeepsConsumers<V(!new)>(w: World<V>, w': World<V>, c: nat, it: Item<V>)
    requires c in w.consumers && Looks(w, w', c, it)
    ensures w'.consumers.Keys == w.consumers.Keys
  {
    hide IsLeast;
  }

  lemma SignalKeepsConsumers<V(!new)>(w: World<V>, w': World<V>, q': Queue<V>)
    requires Signals(w, w', q')
    ensures w'.consumers.Keys == w.consumers.Keys
  {
  }

  lemma StepKeepsConsumers<V(!new)>(w: World<V>, w': World<V>, step: Step<V>)
    requires Next(w, w', step)
    ensures w'.consumers.Keys == w.consumers.Keys
  {
    hide Full, IsLeast, Looks, Signals;
    match step
    case Look(c, it) => LookKeepsConsumers(w, w', c, it);
    case Push(_) => PushKeepsConsumers(w, w', step);
    case DropOldestPush(_) => PushKeepsConsumers(w, w', step);
    case _ =>
  }

  lemma PushKeepsConsumers<V(!new)>(w: World<V>, w': World<V>, step: Step<V>)
    requires Next(w, w', step) && (step.Push? || step.DropOldestPush?)
    ensures w'.consumers.Keys == w.consumers.Keys
  {
    if w' != w {
      assert Signals(w, w', w'.q);
      SignalKeepsConsumers(w, w', w'.q);
    }
  }

  lemma {:induction false} ConsumersStay<V(!new)>(states: seq<World<V>>, steps: seq<Step<V>>, k: nat)
    requires Run(states, steps) && k < |states|
    ensures states[k].consumers.Keys == states[0].consumers.Keys
  {
    hide Next;
    if k > 0 {
      ConsumersStay(states, steps, k - 1);
      StepKeepsConsumers(states[k - 1], states[k], steps[k - 1]);
    }
  }

  /** Exactly when somebody can sleep past a due item: for every set of consumers and every
      capacity, if and only if there are at least two of them. */
  lemma OversleepingTakesTwo<V(!new)>(consumers: set<nat>, capacity: int, v: V)
    ensures (exists states: seq<World<V>>, steps: seq<Step<V>>, c :: GetsStuck(consumers, capacity, states, steps, c))
       <==> |consumers| >= 2
  {
    if |consumers| >= 2 {
      var a :| a in consumers;
      assert |consumers - {a}| >= 1;
      var b :| b in consumers - {a};
      var states, steps := TwoConsumersMayOversleep(consumers, a, b, capacity, v);
    } else {
      forall states: seq<World<V>>, steps: seq<Step<V>>, c ensures !GetsStuck(consumers, capacity, states, steps, c) {
        if GetsStuck(consumers, capacity, states, steps, c) {
          ConsumersStay(states, steps, |steps|);
          OnlyConsumer(consumers, c);
          SingleConsumerWakes(states, steps, c, |steps|);
        }
      }
    }
  }

  lemma OnlyConsumer(consumers: set<nat>, c: nat)
    requires c in consumers && |consumers| < 2
    ensures consumers == {c}
  {
    assert |consumers - {c}| == |consumers| - 1;
  }
}
