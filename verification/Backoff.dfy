/** The delay before the next reconnect: doubling with a cap, on unbounded integers and on 64-bit ones. */
module Backoff {
  const TWO_63: int := 0x8000_0000_0000_0000
  const TWO_64: int := 0x1_0000_0000_0000_0000

  function Pow2(n: nat): (p: nat)
    ensures p > 0
  {
    if n == 0 then 1 else 2 * Pow2(n - 1)
  }

  function Min(a: int, b: int): int {
    if a <= b then a else b
  }

  /** min(base * 2^attempt, max) */
  function Capped(base: int, attempt: nat, max: int): int {
    Min(base * Pow2(attempt), max)
  }

  lemma {:induction false} Pow2Grows(a: nat, b: nat)
    requires a <= b
    ensures Pow2(a) <= Pow2(b)
  {
    if a < b {
      Pow2Grows(a, b - 1);
    }
  }

  lemma MulGrows(base: int, x: int, y: int)
    requires base >= 0 && x <= y
    ensures base * x <= base * y
  {
  }

  /** Delays never shrink from one failure to the next, and never pass the cap. */
  lemma DelaysGrowToCap(base: int, max: int, a: nat, b: nat)
    requires base >= 0 && a <= b
    ensures Capped(base, a, max) <= Capped(base, b, max) <= max
  {
    Pow2Grows(a, b);
    MulGrows(base, Pow2(a), Pow2(b));
  }

  // ---------- The 64-bit form ----------

  const MAX_SHIFT: nat := 20

  /** A product kept to 64 bits, in two's complement. */
  function Wrapped(x: int): (r: int)
    ensures -TWO_63 <= r < TWO_63
    ensures -TWO_63 <= x < TWO_63 ==> r == x
  {
    var m := x % TWO_64;
    if m < TWO_63 then m else m - TWO_64
  }

  /** base shl n on a 64-bit integer, for a shift below 64. */
  function Shl(base: int, n: nat): int {
    Wrapped(base * Pow2(n))
  }

  /** min(base shl min(attempt, 20), max) */
  function Delay(base: int, attempt: nat, max: int): int {
    Min(Shl(base, Min(attempt, MAX_SHIFT)), max)
  }

  lemma Pow2Of20()
    ensures Pow2(20) == 0x10_0000
  {
    assert Pow2(4) == 16;
    assert Pow2(8) == 256;
    assert Pow2(12) == 4096;
    assert Pow2(16) == 65536;
  }

  /** The clamped shift overflows for no attempt exactly when base is below 2^43. */
  lemma ShiftFitsIffBaseBelow2To43(base: int)
    requires 0 < base < TWO_63
    ensures (forall n: nat :: n <= MAX_SHIFT ==> Shl(base, n) == base * Pow2(n)) <==> base < 0x800_0000_0000
  {
    Pow2Of20();
    if base < 0x800_0000_0000 {
      forall n: nat | n <= MAX_SHIFT ensures Shl(base, n) == base * Pow2(n) {
        Pow2Grows(n, 20);
        MulGrows(base, Pow2(n), Pow2(20));
      }
    } else {
      assert Shl(base, 20) < TWO_63 <= base * Pow2(20);
    }
  }

  /** Without overflow, the clamped form is the plain one for every attempt exactly when max is at most base * 2^20. */
  lemma ClampedIsExactIffMaxReached(base: int, max: int)
    requires 0 < base < 0x800_0000_0000
    ensures (forall a: nat :: Delay(base, a, max) == Capped(base, a, max)) <==> max <= base * Pow2(20)
  {
    ShiftFitsIffBaseBelow2To43(base);
    forall a: nat | a <= 20 ensures Delay(base, a, max) == Capped(base, a, max) {
      assert Shl(base, a) == base * Pow2(a);
    }
    if max <= base * Pow2(20) {
      forall a: nat | a > 20 ensures Delay(base, a, max) == Capped(base, a, max) {
        assert Shl(base, 20) == base * Pow2(20);
        Pow2Grows(20, a);
        MulGrows(base, Pow2(20), Pow2(a));
      }
    } else {
      TwiceExceeds(base, max);
    }
  }

  lemma Doubles(base: int, n: nat)
    requires base > 0
    ensures base * Pow2(n + 1) == 2 * (base * Pow2(n)) && base * Pow2(n) > 0
  {
    var p := Pow2(n);
    assert Pow2(n + 1) == 2 * p;
    assert base * (2 * p) == 2 * (base * p);
  }

  lemma TwiceExceeds(base: int, max: int)
    requires 0 < base < 0x800_0000_0000 && max > base * Pow2(20)
    ensures Delay(base, 21, max) < Capped(base, 21, max)
  {
    ShiftFitsIffBaseBelow2To43(base);
    var shifted := Shl(base, MAX_SHIFT);
    assert shifted == base * Pow2(MAX_SHIFT);
    Doubles(base, MAX_SHIFT);
    assert Capped(base, 21, max) == Min(2 * shifted, max);
  }
}
