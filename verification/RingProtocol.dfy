/** The lock-free ring of queue/ring.go: every atomic access is one step. */
module RingProtocol {
  import opened Options

  // Any number of threads, in arbitrary interleavings. Counters are unbounded here; RingArithmetic shows
  // what the 64-bit code computes.

  /** The program counter of one thread, with the locals that are live there. */
  datatype Pc<T> =
    | Idle
    | PushLoad(v: T, pos: nat)       // about to load cell.seq
    | PushSwap(v: T, pos: nat)       // loaded seq == pos, about to CAS tail
    | PushReload(v: T)               // loaded seq > pos, about to reload tail
    | PushWrite(v: T, pos: nat)      // claimed pos, about to write cell.val
    | PushPublish(v: T, pos: nat)    // about to store cell.seq = pos + 1
    | PopLoad(pos: nat)
    | PopSwap(pos: nat)
    | PopReload
    | PopRead(pos: nat)              // claimed pos, about to read cell.val
    | PopClear(pos: nat, v: T)       // about to write cell.val = zero
    | PopRelease(pos: nat, v: T)     // about to store cell.seq = pos + mask + 1

  datatype Delivery<T> = Delivery(pos: nat, value: T)

  /** The shared memory, the threads, and four histories: the value and the thread of the push
      that claimed each position, the thread of the pop that claimed it, and what pops returned. */
  datatype Ring<T> = Ring(
    n: nat, head: nat, tail: nat,
    seqs: seq<int>, vals: seq<Option<T>>,
    threads: map<nat, Pc<T>>,
    log: seq<T>, pushers: seq<nat>, poppers: seq<nat>, delivered: seq<Delivery<T>>)

  /** `pos & mask`: the cell of a position. */
  function Slot(pos: int, n: nat): (i: int)
    requires n > 0
    ensures 0 <= i < n
  {
    pos % n
  }

  ghost predicate Init<T>(s: Ring<T>) {
    && s.n >= 2 && s.head == 0 && s.tail == 0
    && |s.seqs| == s.n && |s.vals| == s.n
    && (forall i | 0 <= i < s.n :: s.seqs[i] == i && s.vals[i] == None)
    && (forall t | t in s.threads :: s.threads[t] == Idle)
    && s.log == [] && s.pushers == [] && s.poppers == [] && s.delivered == []
  }

  // ---- Steps ----

  datatype Step<T> =
    | BeginPush(v: T) | LoadSeqPush | SwapTail | ReloadTail | WriteValue | Publish
    | BeginPop | LoadSeqPop | SwapHead | ReloadHead | ReadValue | ClearValue | Release

  /** Shapes every state has; they make the step relation well formed. */
  ghost predicate Shape<T>(s: Ring<T>) {
    s.n >= 2 && |s.seqs| == s.n && |s.vals| == s.n
  }

  ghost predicate Moves<T>(s: Ring<T>, s': Ring<T>, t: nat, pc: Pc<T>) {
    s' == s.(threads := s.threads[t := pc])
  }

  ghost predicate PushStep<T>(s: Ring<T>, s': Ring<T>, t: nat, step: Step<T>)
    requires Shape(s)
  {
    t in s.threads &&
    match (step, s.threads[t])
    case (BeginPush(v), Idle) => Moves(s, s', t, PushLoad(v, s.tail))
    case (LoadSeqPush, PushLoad(v, pos)) =>
      var seen := s.seqs[Slot(pos, s.n)];
      Moves(s, s', t, if seen == pos then PushSwap(v, pos) else if seen < pos then Idle else PushReload(v))
    case (SwapTail, PushSwap(v, pos)) =>
      if s.tail == pos then
        s' == s.(tail := pos + 1, log := s.log + [v], pushers := s.pushers + [t],
                 threads := s.threads[t := PushWrite(v, pos)])
      else Moves(s, s', t, PushLoad(v, pos))
    case (ReloadTail, PushReload(v)) => Moves(s, s', t, PushLoad(v, s.tail))
    case (WriteValue, PushWrite(v, pos)) =>
      s' == s.(vals := s.vals[Slot(pos, s.n) := Some(v)], threads := s.threads[t := PushPublish(v, pos)])
    case (Publish, PushPublish(v, pos)) =>
      s' == s.(seqs := s.seqs[Slot(pos, s.n) := pos + 1], threads := s.threads[t := Idle])
    case _ => false
  }

  ghost predicate PopStep<T>(s: Ring<T>, s': Ring<T>, t: nat, step: Step<T>)
    requires Shape(s)
  {
    t in s.threads &&
    match (step, s.threads[t])
    case (BeginPop, Idle) => Moves(s, s', t, PopLoad(s.head))
    case (LoadSeqPop, PopLoad(pos)) =>
      var seen := s.seqs[Slot(pos, s.n)];
      Moves(s, s', t, if seen == pos + 1 then PopSwap(pos) else if seen < pos + 1 then Idle else PopReload)
    case (SwapHead, PopSwap(pos)) =>
      if s.head == pos then
        s' == s.(head := pos + 1, poppers := s.poppers + [t], threads := s.threads[t := PopRead(pos)])
      else Moves(s, s', t, PopLoad(pos))
    case (ReloadHead, PopReload) => Moves(s, s', t, PopLoad(s.head))
    case (ReadValue, PopRead(pos)) =>
      var cell := s.vals[Slot(pos, s.n)];
      cell.Some? && Moves(s, s', t, PopClear(pos, cell.value))
    case (ClearValue, PopClear(pos, v)) =>
      s' == s.(vals := s.vals[Slot(pos, s.n) := None], threads := s.threads[t := PopRelease(pos, v)])
    case (Release, PopRelease(pos, v)) =>
      s' == s.(seqs := s.seqs[Slot(pos, s.n) := pos + s.n], threads := s.threads[t := Idle],
               delivered := s.delivered + [Delivery(pos, v)])
    case _ => false
  }

  /** Thread t takes one step. */
  ghost predicate Next<T>(s: Ring<T>, s': Ring<T>, t: nat, step: Step<T>) {
    Shape(s) && (PushStep(s, s', t, step) || PopStep(s, s', t, step))
  }

  // ---- The inductive invariant ----

  ghost predicate OwnsPush<T>(pc: Pc<T>, pos: int) {
    (pc.PushWrite? || pc.PushPublish?) && pc.pos == pos
  }

  ghost predicate OwnsPop<T>(pc: Pc<T>, pos: int) {
    (pc.PopRead? || pc.PopClear? || pc.PopRelease?) && pc.pos == pos
  }

  /** What the cell of position p holds, for the n newest positions p: emptied or free before
      head, claimed or published from head on. */
  ghost predicate CellOk<T>(s: Ring<T>, p: int)
    requires Shape(s) && |s.log| == s.tail && |s.pushers| == s.tail && |s.poppers| == s.head
    requires s.tail - s.n <= p < s.tail && s.head <= s.tail
  {
    var seen := s.seqs[Slot(p, s.n)];
    if p < s.head then
      || seen == p + s.n
      || (seen == p + 1 && 0 <= p && s.poppers[p] in s.threads && OwnsPop(s.threads[s.poppers[p]], p))
    else
      || (seen == p && 0 <= p && s.pushers[p] in s.threads && OwnsPush(s.threads[s.pushers[p]], p))
      || (seen == p + 1 && 0 <= p && s.vals[Slot(p, s.n)] == Some(s.log[p]))
  }

  /** What thread t may rely on at its program counter. */
  ghost predicate ThreadOk<T>(s: Ring<T>, t: nat, pc: Pc<T>)
    requires Shape(s) && |s.log| == s.tail && |s.pushers| == s.tail && |s.poppers| == s.head
    requires s.head <= s.tail
  {
    match pc
    case Idle => true
    case PushLoad(_, pos) => pos <= s.tail
    case PushSwap(_, pos) => pos <= s.tail && s.seqs[Slot(pos, s.n)] >= pos
    case PushReload(_) => true
    case PushWrite(v, pos) =>
      s.head <= pos < s.tail && s.seqs[Slot(pos, s.n)] == pos && s.log[pos] == v && s.pushers[pos] == t
    case PushPublish(v, pos) =>
      && s.head <= pos < s.tail && s.seqs[Slot(pos, s.n)] == pos && s.log[pos] == v && s.pushers[pos] == t
      && s.vals[Slot(pos, s.n)] == Some(v)
    case PopLoad(pos) => pos <= s.head
    case PopSwap(pos) => pos <= s.head && s.seqs[Slot(pos, s.n)] >= pos + 1
    case PopReload => true
    case PopRead(pos) =>
      && s.tail - s.n <= pos < s.head && s.seqs[Slot(pos, s.n)] == pos + 1 && s.poppers[pos] == t
      && s.vals[Slot(pos, s.n)] == Some(s.log[pos])
    case PopClear(pos, v) =>
      && s.tail - s.n <= pos < s.head && s.seqs[Slot(pos, s.n)] == pos + 1 && s.poppers[pos] == t
      && s.log[pos] == v
    case PopRelease(pos, v) =>
      && s.tail - s.n <= pos < s.head && s.seqs[Slot(pos, s.n)] == pos + 1 && s.poppers[pos] == t
      && s.log[pos] == v
  }

  ghost predicate DeliveredOk<T>(s: Ring<T>)
    requires |s.log| == s.tail && s.head <= s.tail
  {
    && (forall i | 0 <= i < |s.delivered| ::
          && s.delivered[i].pos < s.head && s.delivered[i].value == s.log[s.delivered[i].pos]
          && forall t | t in s.threads :: !OwnsPop(s.threads[t], s.delivered[i].pos))
    && (forall i, j | 0 <= i < j < |s.delivered| :: s.delivered[i].pos != s.delivered[j].pos)
  }

  ghost predicate Inv<T>(s: Ring<T>) {
    && Shape(s)
    && s.head <= s.tail <= s.head + s.n
    && |s.log| == s.tail && |s.pushers| == s.tail && |s.poppers| == s.head
    && (forall p | s.tail - s.n <= p < s.tail :: CellOk(s, p))
    && (forall t | t in s.threads :: ThreadOk(s, t, s.threads[t]))
    && DeliveredOk(s)
  }

  // ---- Slots ----

  /** A multiple of n strictly between -n and n is zero. */
  lemma SmallMultiple(k: int, n: int)
    requires 0 - n < k * n < n
    ensures k == 0
  {
    assert k >= 1 ==> k * n >= n;
    assert k <= -1 ==> k * n <= 0 - n;
  }

  lemma SlotsDistinct(p: int, q: int, n: nat)
    requires n > 0 && p < q < p + n
    ensures Slot(p, n) != Slot(q, n)
  {
    if p % n == q % n {
      assert q - p == (q / n - p / n) * n;
      SmallMultiple(q / n - p / n, n);
    }
  }

  lemma WindowDistinct(lo: int, n: nat)
    requires n > 0
    ensures forall p, q | lo <= p < q < lo + n :: Slot(p, n) != Slot(q, n)
  {
    forall p, q | lo <= p < q < lo + n ensures Slot(p, n) != Slot(q, n) {
      SlotsDistinct(p, q, n);
    }
  }

  lemma SlotShift(p: int, n: nat)
    requires n > 0
    ensures Slot(p - n, n) == Slot(p, n)
  {
    var k := p / n - 1 - (p - n) / n;
    assert p == n * (p / n) + p % n && p - n == n * ((p - n) / n) + (p - n) % n;
    assert k * n == (p - n) % n - p % n;
    SmallMultiple(k, n);
  }

  /** Every position has a representative among the n newest with the same cell. */
  lemma Representative(p: int, tail: nat, n: nat) returns (q: int)
    requires n > 0 && p < tail
    ensures p <= q && tail - n <= q < tail && Slot(p, n) == Slot(q, n)
    decreases tail - p
  {
    if tail - n <= p {
      q := p;
    } else {
      SlotShift(p + n, n);
      q := Representative(p + n, tail, n);
    }
  }

  // ---- The invariant is inductive ----

  lemma InitInv<T>(s: Ring<T>)
    requires Init(s)
    ensures Inv(s)
  {
    forall p | s.tail - s.n <= p < s.tail ensures CellOk(s, p) {
      SlotShift(p + s.n, s.n);
      assert (p + s.n) % s.n == p + s.n;
    }
  }

  /** The two load-then-swap races: a swap that succeeds at pos met the cell it had loaded. */
  lemma SwapTailCell<T>(s: Ring<T>, pos: nat)
    requires Inv(s) && pos == s.tail && s.seqs[Slot(pos, s.n)] >= pos
    ensures s.seqs[Slot(pos, s.n)] == pos && s.tail - s.n < s.head
  {
    SlotShift(pos, s.n);
    assert CellOk(s, pos - s.n);
  }

  lemma SwapHeadCell<T>(s: Ring<T>, pos: nat)
    requires Inv(s) && pos == s.head && s.seqs[Slot(pos, s.n)] >= pos + 1
    ensures pos < s.tail && s.seqs[Slot(pos, s.n)] == pos + 1 && s.vals[Slot(pos, s.n)] == Some(s.log[pos])
  {
    SlotShift(pos, s.n);
    assert s.tail - s.n <= pos - s.n ==> CellOk(s, pos - s.n);
    assert pos < s.tail ==> CellOk(s, pos);
  }

  lemma MovesInv<T>(s: Ring<T>, s': Ring<T>, t: nat, pc: Pc<T>)
    requires Inv(s) && t in s.threads && Moves(s, s', t, pc)
    requires ThreadOk(s, t, pc)
    requires forall p :: OwnsPush(s.threads[t], p) ==> OwnsPush(pc, p)
    requires forall p :: OwnsPop(s.threads[t], p) <==> OwnsPop(pc, p)
    ensures Inv(s')
  {
    forall p | s'.tail - s'.n <= p < s'.tail ensures CellOk(s', p) {
      assert CellOk(s, p);
    }
    forall u | u in s'.threads ensures ThreadOk(s', u, s'.threads[u]) {
      assert u == t || ThreadOk(s, u, s.threads[u]);
    }
  }

  lemma SwapTailInv<T>(s: Ring<T>, s': Ring<T>, t: nat)
    requires Inv(s) && t in s.threads && s.threads[t].PushSwap? && s.threads[t].pos == s.tail
    requires PushStep(s, s', t, SwapTail)
    ensures Inv(s')
  {
    var pos := s.tail;
    SwapTailCell(s, pos);
    SlotShift(pos, s.n);
    forall p | s'.tail - s'.n <= p < s'.tail ensures CellOk(s', p) {
      assert p == pos || CellOk(s, p);
    }
    forall u | u in s'.threads ensures ThreadOk(s', u, s'.threads[u]) {
      assert ThreadOk(s, u, s.threads[u]);
      if u != t && (exists p :: OwnsPop(s.threads[u], p)) {
        assert CellOk(s, pos - s.n);
      }
    }
  }

  lemma SwapHeadInv<T>(s: Ring<T>, s': Ring<T>, t: nat)
    requires Inv(s) && t in s.threads && s.threads[t].PopSwap? && s.threads[t].pos == s.head
    requires PopStep(s, s', t, SwapHead)
    ensures Inv(s')
  {
    var pos := s.head;
    SwapHeadCell(s, pos);
    forall p | s'.tail - s'.n <= p < s'.tail ensures CellOk(s', p) {
      assert CellOk(s, p);
    }
    forall u | u in s'.threads ensures ThreadOk(s', u, s'.threads[u]) {
      assert ThreadOk(s, u, s.threads[u]);
    }
  }

  lemma WriteInv<T>(s: Ring<T>, s': Ring<T>, t: nat)
    requires Inv(s) && PushStep(s, s', t, WriteValue)
    ensures Inv(s')
  {
    WindowDistinct(s.tail - s.n, s.n);
    assert ThreadOk(s, t, s.threads[t]);
    forall p | s'.tail - s'.n <= p < s'.tail ensures CellOk(s', p) {
      assert CellOk(s, p);
    }
    forall u | u in s'.threads ensures ThreadOk(s', u, s'.threads[u]) {
      assert ThreadOk(s, u, s.threads[u]);
    }
  }

  lemma ClearInv<T>(s: Ring<T>, s': Ring<T>, t: nat)
    requires Inv(s) && PopStep(s, s', t, ClearValue)
    ensures Inv(s')
  {
    WindowDistinct(s.tail - s.n, s.n);
    assert ThreadOk(s, t, s.threads[t]);
    forall p | s'.tail - s'.n <= p < s'.tail ensures CellOk(s', p) {
      assert CellOk(s, p);
    }
    forall u | u in s'.threads ensures ThreadOk(s', u, s'.threads[u]) {
      assert ThreadOk(s, u, s.threads[u]);
    }
  }

  /** Storing a larger seq into the cell its owner t lets go of. */
  lemma StoreInv<T>(s: Ring<T>, s': Ring<T>, t: nat, pos: nat, seen: int)
    requires Inv(s) && t in s.threads && (OwnsPush(s.threads[t], pos) || OwnsPop(s.threads[t], pos))
    requires seen >= s.seqs[Slot(pos, s.n)]
    requires s' == s.(seqs := s.seqs[Slot(pos, s.n) := seen], threads := s.threads[t := Idle],
                      delivered := s'.delivered)
    requires s.tail - s.n <= pos < s.tail && CellOk(s', pos) && DeliveredOk(s')
    ensures Inv(s')
  {
    WindowDistinct(s.tail - s.n, s.n);
    assert ThreadOk(s, t, s.threads[t]);
    forall p | s'.tail - s'.n <= p < s'.tail ensures CellOk(s', p) {
      assert CellOk(s, p);
      assert p == pos || Slot(p, s.n) != Slot(pos, s.n);
    }
    forall u | u in s'.threads ensures ThreadOk(s', u, s'.threads[u]) {
      assert ThreadOk(s, u, s.threads[u]);
    }
  }

  lemma PublishInv<T>(s: Ring<T>, s': Ring<T>, t: nat)
    requires Inv(s) && PushStep(s, s', t, Publish)
    ensures Inv(s')
  {
    var pos := s.threads[t].pos;
    assert ThreadOk(s, t, s.threads[t]);
    StoreInv(s, s', t, pos, pos + 1);
  }

  lemma ReleaseInv<T>(s: Ring<T>, s': Ring<T>, t: nat)
    requires Inv(s) && PopStep(s, s', t, Release)
    ensures Inv(s')
  {
    var pos := s.threads[t].pos;
    assert ThreadOk(s, t, s.threads[t]);
    forall u | u in s'.threads ensures !OwnsPop(s'.threads[u], pos) {
      assert ThreadOk(s, u, s.threads[u]);
    }
    StoreInv(s, s', t, pos, pos + s.n);
  }

  lemma PushStepInv<T>(s: Ring<T>, s': Ring<T>, t: nat, step: Step<T>)
    requires Inv(s) && PushStep(s, s', t, step)
    ensures Inv(s')
  {
    var pc := s.threads[t];
    assert ThreadOk(s, t, pc);
    match pc
    case PushWrite(_, _) => WriteInv(s, s', t);
    case PushPublish(_, _) => PublishInv(s, s', t);
    case PushSwap(_, pos) =>
      if pos == s.tail { SwapTailInv(s, s', t); } else { MovesInv(s, s', t, s'.threads[t]); }
    case Idle => MovesInv(s, s', t, s'.threads[t]);
    case PushLoad(_, _) => MovesInv(s, s', t, s'.threads[t]);
    case PushReload(_) => MovesInv(s, s', t, s'.threads[t]);
    case _ =>
  }

  lemma PopStepInv<T>(s: Ring<T>, s': Ring<T>, t: nat, step: Step<T>)
    requires Inv(s) && PopStep(s, s', t, step)
    ensures Inv(s')
  {
    var pc := s.threads[t];
    assert ThreadOk(s, t, pc);
    match pc
    case PopClear(_, _) => ClearInv(s, s', t);
    case PopRelease(_, _) => ReleaseInv(s, s', t);
    case PopSwap(pos) =>
      if pos == s.head { SwapHeadInv(s, s', t); } else { MovesInv(s, s', t, s'.threads[t]); }
    case Idle => MovesInv(s, s', t, s'.threads[t]);
    case PopLoad(_) => MovesInv(s, s', t, s'.threads[t]);
    case PopReload => MovesInv(s, s', t, s'.threads[t]);
    case PopRead(_) => MovesInv(s, s', t, s'.threads[t]);
    case _ =>
  }

  // ---- Runs ----

  /** A run: each state follows from the one before by one step of one thread. */
  ghost predicate Run<T>(states: seq<Ring<T>>, schedule: seq<(nat, Step<T>)>) {
    && |states| == |schedule| + 1 && Init(states[0])
    && forall i | 0 <= i < |schedule| :: Next(states[i], states[i + 1], schedule[i].0, schedule[i].1)
  }

  lemma {:induction false} RunInv<T>(states: seq<Ring<T>>, schedule: seq<(nat, Step<T>)>, k: nat)
    requires Run(states, schedule) && k < |states|
    ensures Inv(states[k])
  {
    if k == 0 {
      InitInv(states[0]);
    } else {
      RunInv(states, schedule, k - 1);
      assert Next(states[k - 1], states[k], schedule[k - 1].0, schedule[k - 1].1);
      if PushStep(states[k - 1], states[k], schedule[k - 1].0, schedule[k - 1].1) {
        PushStepInv(states[k - 1], states[k], schedule[k - 1].0, schedule[k - 1].1);
      } else {
        PopStepInv(states[k - 1], states[k], schedule[k - 1].0, schedule[k - 1].1);
      }
    }
  }

  // ---- Main results ----

  /** The abstract FIFO a ring state stands for. */
  ghost function Contents<T>(s: Ring<T>): seq<T>
    requires s.head <= s.tail == |s.log|
  {
    s.log[s.head..s.tail]
  }

  /** Refinement: the successful tail swap appends, the successful head swap removes the front
      element, which is the value the pop returns later; every other step leaves the FIFO alone. */
  lemma Refines<T>(states: seq<Ring<T>>, schedule: seq<(nat, Step<T>)>, i: nat)
    requires Run(states, schedule) && i < |schedule|
    ensures Inv(states[i]) && Inv(states[i + 1])
    ensures var s, s', t := states[i], states[i + 1], schedule[i].0;
      match (schedule[i].1, s.threads[t])
      case (SwapTail, PushSwap(v, pos)) =>
        if s.tail == pos then Contents(s') == Contents(s) + [v] && |Contents(s')| <= s.n
        else Contents(s') == Contents(s)
      case (SwapHead, PopSwap(pos)) =>
        if s.head == pos then Contents(s) != [] && Contents(s') == Contents(s)[1..] && s.log[pos] == Contents(s)[0]
        else Contents(s') == Contents(s)
      case _ => Contents(s') == Contents(s)
  {
    RunInv(states, schedule, i);
    RunInv(states, schedule, i + 1);
    var s, s', t := states[i], states[i + 1], schedule[i].0;
    assert Next(s, s', t, schedule[i].1);
    if schedule[i].1.SwapHead? && s.head == s.threads[t].pos {
      assert ThreadOk(s, t, s.threads[t]);
      SwapHeadCell(s, s.head);
    }
  }

  /** The pop that claimed pos returns what the push that claimed pos wrote; no position is
      delivered twice, and a delivered position was claimed by a push and by a pop. */
  lemma DeliveredOnce<T>(states: seq<Ring<T>>, schedule: seq<(nat, Step<T>)>, k: nat)
    requires Run(states, schedule) && k < |states|
    ensures var s := states[k];
      && |s.log| == s.tail
      && (forall i | 0 <= i < |s.delivered| ::
            s.delivered[i].pos < s.head <= s.tail && s.delivered[i].value == s.log[s.delivered[i].pos])
      && (forall i, j | 0 <= i < j < |s.delivered| :: s.delivered[i].pos != s.delivered[j].pos)
  {
    RunInv(states, schedule, k);
  }

  /** Two threads never own the value of the same cell. */
  lemma ExclusiveCells<T>(states: seq<Ring<T>>, schedule: seq<(nat, Step<T>)>, k: nat, t: nat, u: nat, p: nat, q: nat)
    requires Run(states, schedule) && k < |states|
    requires t in states[k].threads && u in states[k].threads && t != u && states[k].n > 0
    requires OwnsPush(states[k].threads[t], p) || OwnsPop(states[k].threads[t], p)
    requires OwnsPush(states[k].threads[u], q) || OwnsPop(states[k].threads[u], q)
    ensures Slot(p, states[k].n) != Slot(q, states[k].n)
  {
    RunInv(states, schedule, k);
    var s := states[k];
    assert ThreadOk(s, t, s.threads[t]) && ThreadOk(s, u, s.threads[u]);
    WindowDistinct(s.tail - s.n, s.n);
  }

  /** The seq of a cell only grows. */
  lemma SeqGrows<T>(states: seq<Ring<T>>, schedule: seq<(nat, Step<T>)>, k: nat, i: nat)
    requires Run(states, schedule) && k < |schedule| && i < states[k].n
    ensures i < |states[k].seqs| && i < |states[k + 1].seqs| && states[k].seqs[i] <= states[k + 1].seqs[i]
  {
    RunInv(states, schedule, k);
    var s, t := states[k], schedule[k].0;
    assert Next(s, states[k + 1], t, schedule[k].1);
    assert ThreadOk(s, t, s.threads[t]);
  }

  /** Whatever happened between a thread's load of seq and its compare-and-swap, a swap that
      succeeds finds the cell as it was loaded: free for position pos in a push, published at pos
      in a pop, with the value of the push that claimed pos. */
  lemma SwapsAreCurrent<T>(states: seq<Ring<T>>, schedule: seq<(nat, Step<T>)>, i: nat)
    requires Run(states, schedule) && i < |schedule| && schedule[i].0 in states[i].threads
    ensures var s, t := states[i], schedule[i].0;
      && Inv(s)
      && (schedule[i].1 == SwapTail && s.threads[t].PushSwap? && s.threads[t].pos == s.tail ==>
            s.tail < s.head + s.n && s.seqs[Slot(s.tail, s.n)] == s.tail)
      && (schedule[i].1 == SwapHead && s.threads[t].PopSwap? && s.threads[t].pos == s.head ==>
            && s.head < s.tail && s.seqs[Slot(s.head, s.n)] == s.head + 1
            && s.vals[Slot(s.head, s.n)] == Some(s.log[s.head]))
  {
    RunInv(states, schedule, i);
    var s, t := states[i], schedule[i].0;
    assert ThreadOk(s, t, s.threads[t]);
    if schedule[i].1 == SwapTail && s.threads[t].PushSwap? && s.threads[t].pos == s.tail {
      SwapTailCell(s, s.tail);
    }
    if schedule[i].1 == SwapHead && s.threads[t].PopSwap? && s.threads[t].pos == s.head {
      SwapHeadCell(s, s.head);
    }
  }

  /** A cell's seq never falls behind a position claimed on it. So an old position never makes a
      push give up (seq >= pos) nor a pop (seq > pos): it retries or tries its swap, and fails. */
  lemma OldPosition<T>(s: Ring<T>, pos: nat)
    requires Inv(s)
    ensures pos < s.tail ==> s.seqs[Slot(pos, s.n)] >= pos
    ensures pos < s.head ==> s.seqs[Slot(pos, s.n)] > pos
  {
    if pos < s.tail {
      var q := Representative(pos, s.tail, s.n);
      assert CellOk(s, q);
    }
  }

  /** When TryPush gives up at its seq load, tail == pos whatever time passed since pos was
      loaded, and either the ring is full or the pop of position pos - n is unfinished. */
  lemma PushRefused<T>(states: seq<Ring<T>>, schedule: seq<(nat, Step<T>)>, i: nat)
    requires Run(states, schedule) && i < |schedule| && schedule[i].1 == LoadSeqPush
    requires states[i + 1].threads[schedule[i].0] == Idle
    ensures var s := states[i];
      && Inv(s)
      && s.threads[schedule[i].0].pos == s.tail
      && (s.tail == s.head + s.n
          || (s.head > s.tail - s.n >= 0 && s.poppers[s.tail - s.n] in s.threads
              && OwnsPop(s.threads[s.poppers[s.tail - s.n]], s.tail - s.n)))
  {
    RunInv(states, schedule, i);
    var s, t := states[i], schedule[i].0;
    assert Next(s, states[i + 1], t, schedule[i].1);
    assert ThreadOk(s, t, s.threads[t]);
    OldPosition(s, s.threads[t].pos);
    SlotShift(s.tail, s.n);
    assert CellOk(s, s.tail - s.n);
  }

  /** When TryPop gives up at its seq load, head == pos, and either the ring is empty or the push
      of position pos is unfinished. */
  lemma PopRefused<T>(states: seq<Ring<T>>, schedule: seq<(nat, Step<T>)>, i: nat)
    requires Run(states, schedule) && i < |schedule| && schedule[i].1 == LoadSeqPop
    requires states[i + 1].threads[schedule[i].0] == Idle
    ensures var s := states[i];
      && Inv(s)
      && s.threads[schedule[i].0].pos == s.head
      && (s.tail == s.head
          || (s.pushers[s.head] in s.threads && OwnsPush(s.threads[s.pushers[s.head]], s.head)))
  {
    RunInv(states, schedule, i);
    var s, t := states[i], schedule[i].0;
    assert Next(s, states[i + 1], t, schedule[i].1);
    assert ThreadOk(s, t, s.threads[t]);
    OldPosition(s, s.threads[t].pos);
    assert s.head < s.tail ==> CellOk(s, s.head);
  }
}
