/** The machine arithmetic of queue/ring.go: 64-bit doubling, masking and signed differences. */
module RingArithmetic {
  import opened RingProtocol

  const TWO_63: nat := 0x8000_0000_0000_0000
  const TWO_64: nat := 0x1_0000_0000_0000_0000

  function Pow2(k: nat): (p: nat)
    ensures p >= 1
  {
    if k == 0 then 1 else 2 * Pow2(k - 1)
  }

  ghost predicate IsPowerOfTwo(n: nat) {
    exists k :: n == Pow2(k)
  }

  /** `n <<= 1` on uint64. */
  function ShiftLeft(n: nat): (r: nat)
    ensures r < TWO_64
  {
    2 * n % TWO_64
  }

  /** The value of `n` in NewRing after k rounds of its loop. */
  function Doubled(k: nat): (n: nat)
  {
    if k == 0 then 1 else ShiftLeft(Doubled(k - 1))
  }

  lemma {:induction false} Pow2Monotone(a: nat, b: nat)
    requires a <= b
    ensures Pow2(a) <= Pow2(b)
    decreases b
  {
    if a < b {
      Pow2Monotone(a, b - 1);
    }
  }

  lemma Pow2At32()
    ensures Pow2(32) == 0x1_0000_0000
  {
    assert Pow2(8) == 0x100;
    Pow2Sum(8, 8);
    Pow2Sum(16, 16);
  }

  lemma Pow2At31()
    ensures Pow2(31) == 0x8000_0000
  {
    Pow2At32();
    Pow2Sum(1, 31);
  }

  lemma Pow2At63()
    ensures Pow2(63) == TWO_63
  {
    Pow2At31();
    Pow2At32();
    Pow2Sum(32, 31);
  }

  lemma Pow2UpTo63(k: nat)
    requires k <= 63
    ensures Pow2(k) <= TWO_63
  {
    Pow2At63();
    Pow2Monotone(k, 63);
  }

  lemma {:induction false} Pow2Sum(a: nat, b: nat)
    ensures Pow2(a + b) == Pow2(a) * Pow2(b)
  {
    if b > 0 {
      Pow2Sum(a, b - 1);
      assert Pow2(a) * (2 * Pow2(b - 1)) == 2 * (Pow2(a) * Pow2(b - 1));
    }
  }

  lemma ShiftIs(n: nat)
    requires n <= TWO_63
    ensures ShiftLeft(n) == if n < TWO_63 then 2 * n else 0
  {
  }

  /** Up to 2^63 the doubling is exact; the next shift overflows to zero, which stays. */
  lemma {:induction false} DoubledIs(k: nat)
    ensures Doubled(k) == if k <= 63 then Pow2(k) else 0
    ensures Doubled(k) <= TWO_63
  {
    hide ShiftLeft;
    if k > 0 {
      DoubledIs(k - 1);
      ShiftIs(Doubled(k - 1));
      if k <= 63 {
        Pow2UpTo63(k);
      } else if k == 64 {
        Pow2At63();
      }
    }
  }

  /** NewRing's loop ends for exactly the sizes up to 2^63. */
  lemma NewRingTerminates(size: nat)
    ensures (exists k :: Doubled(k) >= size) <==> size <= TWO_63
  {
    DoubledIs(63);
    Pow2At63();
    assert size <= TWO_63 ==> Doubled(63) >= size;
    forall k ensures Doubled(k) <= TWO_63 {
      DoubledIs(k);
    }
  }

  /** The number of cells NewRing allocates: the least power of two that is at least max(size, 2).
      The loop is the source's; it does not end for a size beyond 2^63. */
  method RoundUp(size: nat) returns (n: nat)
    requires size <= TWO_63
    ensures IsPowerOfTwo(n) && n >= 2 && n >= size
    ensures forall j: nat :: Pow2(j) >= size && Pow2(j) >= 2 ==> n <= Pow2(j)
  {
    var want := if size < 2 then 2 else size;
    n := 1;
    ghost var k := 0;
    while n < want
      invariant n == Pow2(k) && k <= 63
      invariant forall j: nat :: Pow2(j) >= want ==> n <= Pow2(j)
      decreases 63 - k
    {
      hide ShiftLeft;
      if k == 63 {
        Pow2At63();
      }
      Pow2UpTo63(k + 1);
      ShiftIs(n);
      forall j: nat | Pow2(j) >= want ensures Pow2(k + 1) <= Pow2(j) {
        if j <= k {
          Pow2Monotone(j, k);
        } else {
          Pow2Monotone(k + 1, j);
        }
      }
      n, k := ShiftLeft(n), k + 1;
    }
  }

  // ---- Masking ----

  /** Bitwise and of two non-negative integers. */
  function And(x: nat, y: nat): nat
    decreases x
  {
    if x == 0 then 0 else 2 * And(x / 2, y / 2) + (x % 2) * (y % 2)
  }

  lemma AndOdd(x: nat, h: nat)
    requires x > 0 && h >= 1
    ensures And(x, 2 * h - 1) == 2 * And(x / 2, h - 1) + x % 2
  {
  }

  /** `pos & (n - 1)` is pos mod n for a power of two n. */
  lemma {:induction false} MaskIsMod(pos: nat, k: nat)
    ensures And(pos, Pow2(k) - 1) == pos % Pow2(k)
    ensures And(pos, Pow2(k) - 1) == Slot(pos, Pow2(k))
    decreases k
  {
    if k == 0 {
      AndZero(pos);
    } else if pos > 0 {
      hide And;
      AndOdd(pos, Pow2(k - 1));
      MaskIsMod(pos / 2, k - 1);
      HalfMod(pos, Pow2(k - 1));
    }
  }

  lemma {:induction false} AndZero(x: nat)
    ensures And(x, 0) == 0
  {
    if x > 0 {
      AndZero(x / 2);
    }
  }

  lemma HalfMod(x: nat, h: nat)
    requires h >= 1
    ensures x % (2 * h) == 2 * (x / 2 % h) + x % 2
  {
    var q, r := x / 2 / h, x / 2 % h;
    assert x / 2 == h * q + r;
    assert x == (2 * h) * q + (2 * r + x % 2);
    ModUnique(x, 2 * h, q, 2 * r + x % 2);
  }

  lemma ModUnique(x: int, n: int, q: int, r: int)
    requires n > 0 && x == n * q + r && 0 <= r < n
    ensures x % n == r
  {
    assert x == n * (x / n) + x % n;
    assert (x / n - q) * n == r - x % n;
    SmallMultiple(x / n - q, n);
  }

  // ---- Wrapped counters ----

  /** A counter as the uint64 the code holds, and that word read as int64. */
  function Word(x: nat): (w: nat)
    ensures w < TWO_64
  {
    x % TWO_64
  }

  function Signed(w: int): (r: int)
    ensures 0 - TWO_63 <= r < TWO_63
  {
    var m := w % TWO_64;
    if m < TWO_63 then m else m - TWO_64
  }

  /** `int64(seq) - int64(pos)`: a wrapping subtraction of the two reinterpreted words. */
  function Difference(seen: nat, pos: nat): int
  {
    Signed(Signed(Word(seen)) - Signed(Word(pos)))
  }

  lemma SignedOf(w: int, d: int, m: int)
    requires w == TWO_64 * m + d && 0 - TWO_63 <= d < TWO_63
    ensures Signed(w) == d
  {
    if d >= 0 {
      ModUnique(w, TWO_64, m, d);
    } else {
      ModUnique(w, TWO_64, m - 1, d + TWO_64);
    }
  }

  /** A word is its signed reading up to a multiple of 2^64. */
  lemma SignedLaps(x: nat) returns (laps: int)
    ensures x == TWO_64 * laps + Signed(Word(x))
  {
    laps := x / TWO_64 + (if Word(x) < TWO_63 then 0 else 1);
  }

  /** While the true counters are within 2^63 of each other the code's difference is the true
      one, although both words may have wrapped any number of times. */
  lemma DifferenceExact(seen: nat, pos: nat)
    requires 0 - TWO_63 <= seen - pos < TWO_63
    ensures Difference(seen, pos) == seen - pos
  {
    var a := SignedLaps(seen);
    var b := SignedLaps(pos);
    hide Word, Signed;
    SignedOf(Signed(Word(seen)) - Signed(Word(pos)), seen - pos, b - a);
  }
}
