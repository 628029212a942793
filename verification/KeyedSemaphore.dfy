/** The per-key concurrency limit of rate_limiter.go. */
module KeyedSemaphore {

  type Key = string

  const NO_KEY: Key := ""

  /** `s.active[key]`: a missing entry reads as zero. */
  function Active(active: map<Key, int>, key: Key): int {
    if key in active then active[key] else 0
  }

  predicate Admits(active: map<Key, int>, key: Key, max: int) {
    key == NO_KEY || max <= 0 || Active(active, key) < max
  }

  /** The map after a successful tryAcquire; without a key or a positive limit nothing is counted. */
  function Acquired(active: map<Key, int>, key: Key, max: int): map<Key, int> {
    if key == NO_KEY || max <= 0 then active else active[key := Active(active, key) + 1]
  }

  function Released(active: map<Key, int>, key: Key): map<Key, int> {
    if key == NO_KEY then active
    else if Active(active, key) > 1 then active[key := active[key] - 1]
    else active - {key}
  }

  /** The map counts a bag of keys: an entry per key held, none for a key not held. */
  ghost predicate Counts(active: map<Key, int>, held: multiset<Key>) {
    && (forall k | k in active :: k in held && active[k] == held[k])
    && (forall k | k in held :: k in active)
  }

  class Semaphore {
    var active: map<Key, int>
    ghost var held: multiset<Key>

    ghost predicate Valid()
      reads this
    {
      Counts(active, held)
    }

    constructor ()
      ensures Valid() && held == multiset{}
    {
      active, held := map[], multiset{};
    }

    /** Grants exactly when the key is held fewer than max times, and counts the grant. */
    method TryAcquire(key: Key, max: int) returns (ok: bool)
      requires Valid()
      modifies this
      ensures Valid() && active == (if ok then Acquired(old(active), key, max) else old(active))
      ensures ok <==> key == NO_KEY || max <= 0 || old(held)[key] < max
      ensures ok <==> Admits(old(active), key, max)
      ensures held == old(held) + (if ok && key != NO_KEY && max > 0 then multiset{key} else multiset{})
    {
      if key == NO_KEY || max <= 0 {
        return true;
      }
      if Active(active, key) >= max {
        return false;
      }
      active := active[key := Active(active, key) + 1];
      held := held + multiset{key};
      return true;
    }

    method Release(key: Key)
      requires Valid()
      modifies this
      ensures Valid() && active == Released(old(active), key)
      ensures held == old(held) - (if key == NO_KEY then multiset{} else multiset{key})
    {
      if key == NO_KEY {
        return;
      }
      if Active(active, key) > 1 {
        active := active[key := active[key] - 1];
      } else {
        active := active - {key};
      }
      held := held - multiset{key};
    }
  }

  /** Acquire and release are exact inverses on a map that counts, whatever others hold. */
  lemma ReleaseUndoesAcquire(active: map<Key, int>, held: multiset<Key>, key: Key, max: int)
    requires Counts(active, held) && max > 0
    ensures Released(Acquired(active, key, max), key) == active
  {
    var a := Acquired(active, key, max);
    if key != NO_KEY && key !in active {
      assert (a - {key}).Keys == active.Keys;
    }
  }
}
