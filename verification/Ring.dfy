/** The ring of queue/ring.go as one thread alone sees it: a bounded FIFO queue in two arrays. */
module Rings {
  import opened Options
  import RingProtocol
  import opened RingArithmetic

  // With one thread every compare-and-swap succeeds and each retry loop runs once; RingProtocol has the
  // loops and the other threads.

  function Cell(pos: nat, n: nat): (i: nat)
    requires n > 0
    ensures i < n
  {
    RingProtocol.Slot(pos, n)
  }

  /** Cells of stored positions are published, the others free for their next position. */
  ghost predicate Stores<T>(seqs: seq<nat>, vals: seq<Option<T>>, head: nat, tail: nat, contents: seq<T>) {
    && |seqs| == |vals| >= 2 && head <= tail <= head + |seqs| && |contents| == tail - head
    && (forall k: nat | head <= k < tail ::
          seqs[Cell(k, |seqs|)] == k + 1 && vals[Cell(k, |seqs|)] == Some(contents[k - head]))
    && (forall k: nat | tail <= k < head + |seqs| :: seqs[Cell(k, |seqs|)] == k && vals[Cell(k, |seqs|)] == None)
  }

  /** A position and the one a lap later share a cell; all others of a lap have their own. */
  lemma Laps(head: nat, pos: nat, n: nat)
    requires n > 0 && head <= pos <= head + n
    ensures Cell(head + n, n) == Cell(head, n)
    ensures forall k: nat | head <= k < head + n && k != pos && k + n != pos :: Cell(k, n) != Cell(pos, n)
  {
    RingProtocol.SlotShift(head + n, n);
    forall k: nat | head <= k < head + n && k != pos && k + n != pos ensures Cell(k, n) != Cell(pos, n) {
      if k < pos { RingProtocol.SlotsDistinct(k, pos, n); } else { RingProtocol.SlotsDistinct(pos, k, n); }
    }
  }

  /** A push finds its own position in the cell exactly when there is room. */
  lemma PushStores<T>(seqs: seq<nat>, vals: seq<Option<T>>, head: nat, tail: nat, contents: seq<T>, v: T)
    requires Stores(seqs, vals, head, tail, contents)
    ensures var i := Cell(tail, |seqs|);
            if |contents| < |seqs| then
              seqs[i] == tail && Stores(seqs[i := tail + 1], vals[i := Some(v)], head, tail + 1, contents + [v])
            else seqs[i] < tail
  {
    var n := |seqs|;
    Laps(head, tail, n);
    if |contents| < n {
      var (i, seqs', vals') := (Cell(tail, n), seqs[Cell(tail, n) := tail + 1], vals[Cell(tail, n) := Some(v)]);
      forall k: nat | head <= k < tail + 1
        ensures seqs'[Cell(k, n)] == k + 1 && vals'[Cell(k, n)] == Some((contents + [v])[k - head]) {}
      forall k: nat | tail + 1 <= k < head + n ensures seqs'[Cell(k, n)] == k && vals'[Cell(k, n)] == None {}
    } else {
      assert seqs[Cell(head, n)] == head + 1;
    }
  }

  /** A pop finds the next position in the cell exactly when something is stored. */
  lemma PopStores<T>(seqs: seq<nat>, vals: seq<Option<T>>, head: nat, tail: nat, contents: seq<T>)
    requires Stores(seqs, vals, head, tail, contents)
    ensures var i := Cell(head, |seqs|);
            if contents != [] then
              && seqs[i] == head + 1 && vals[i] == Some(contents[0])
              && Stores(seqs[i := head + |seqs|], vals[i := None], head + 1, tail, contents[1..])
            else seqs[i] < head + 1
  {
    var n := |seqs|;
    Laps(head, head, n);
    if contents != [] {
      var (seqs', vals') := (seqs[Cell(head, n) := head + n], vals[Cell(head, n) := None]);
      forall k: nat | head + 1 <= k < tail
        ensures seqs'[Cell(k, n)] == k + 1 && vals'[Cell(k, n)] == Some(contents[1..][k - (head + 1)]) {}
      forall k: nat | tail <= k < head + 1 + n ensures seqs'[Cell(k, n)] == k && vals'[Cell(k, n)] == None {}
    } else {
      assert seqs[Cell(head, n)] == head;
    }
  }

  lemma FreshStores<T>(seqs: seq<nat>, vals: seq<Option<T>>)
    requires |seqs| == |vals| >= 2 && forall i | 0 <= i < |seqs| :: seqs[i] == i && vals[i] == None
    ensures Stores(seqs, vals, 0, 0, [])
  {
  }

  class Ring<T> {
    const mask: nat
    const seqs: array<nat>
    const vals: array<Option<T>>  // None is the zero value
    var head: nat
    var tail: nat
    ghost var contents: seq<T>

    ghost predicate Valid()
      reads this, seqs, vals
    {
      seqs.Length == mask + 1 && Stores(seqs[..], vals[..], head, tail, contents)
    }

    constructor (size: nat)
      requires size <= TWO_63
      ensures Valid() && contents == [] && fresh(seqs) && fresh(vals)
      ensures IsPowerOfTwo(mask + 1) && mask + 1 >= size
      ensures forall j: nat :: Pow2(j) >= size && Pow2(j) >= 2 ==> mask + 1 <= Pow2(j)
      ensures RingProtocol.Init(Started())
    {
      var n := RoundUp(size);
      var cells := new nat[n];
      for i := 0 to n
        invariant forall j | 0 <= j < i :: cells[j] == j
      {
        cells[i] := i;
      }
      mask, seqs, head, tail, contents := n - 1, cells, 0, 0, [];
      vals := new Option<T>[n](_ => None);
      new;
      FreshStores(seqs[..], vals[..]);
      hide Stores;
    }

    /** The protocol state a ring is in before any thread runs. */
    ghost function Started(): RingProtocol.Ring<T>
      reads this, seqs, vals
    {
      RingProtocol.Ring(mask + 1, head, tail, seqs[..], vals[..], map[], [], [], [], [])
    }

    method TryPush(v: T) returns (ok: bool)
      requires Valid()
      modifies this`tail, this`contents, seqs, vals
      ensures Valid() && ok == (|old(contents)| <= mask)
      ensures contents == old(contents) + (if ok then [v] else [])
    {
      PushStores(seqs[..], vals[..], head, tail, contents, v);
      assert |contents| <= mask + 1;
      hide Stores;
      var pos := tail;
      var cell := Cell(pos, mask + 1);
      if seqs[cell] < pos {
        return false;
      }
      tail := pos + 1;
      vals[cell] := Some(v);
      seqs[cell] := pos + 1;
      contents := contents + [v];
      return true;
    }

    method TryPop() returns (r: Option<T>)
      requires Valid()
      modifies this`head, this`contents, seqs, vals
      ensures Valid() && r == if old(contents) == [] then None else Some(old(contents)[0])
      ensures contents == if old(contents) == [] then [] else old(contents)[1..]
    {
      PopStores(seqs[..], vals[..], head, tail, contents);
      hide Stores;
      var pos := head;
      var cell := Cell(pos, mask + 1);
      if seqs[cell] < pos + 1 {
        return None;
      }
      head := pos + 1;
      r := vals[cell];
      vals[cell] := None;
      seqs[cell] := pos + mask + 1;
      contents := contents[1..];
    }
  }
}
