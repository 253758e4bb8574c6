/** Bits of Python integers: >> floors, so a negative number has the bits of its two's complement. */
module Bits {
  import opened Base

  const TWO63: int := 0x8000_0000_0000_0000
  const TWO64: int := 0x1_0000_0000_0000_0000

  /** a >> i, the arithmetic shift. */
  function Shr(a: int, i: nat): int
    decreases i
  {
    if i == 0 then a else Shr(a / 2, i - 1)
  }

  /** (a >> i) & 1 */
  predicate Bit(a: int, i: nat) {
    Shr(a, i) % 2 == 1
  }

  function DifferingBits(a: int, b: int): set<int> {
    set i | 0 <= i < 64 && Bit(a, i) != Bit(b, i)
  }

  /** ((a ^ b) & (2**64 - 1)).bit_count() */
  function Hamming(a: int, b: int): nat {
    |DifferingBits(a, b)|
  }

  lemma {:induction false} Pow2Sum(a: nat, b: nat)
    ensures Pow2(a + b) == Pow2(a) * Pow2(b)
  {
    if a > 0 {
      Pow2Sum(a - 1, b);
    }
  }

  lemma Pow2Of64()
    ensures Pow2(64) == TWO64 && Pow2(63) == TWO63 && Pow2(8) == 256 && Pow2(7) == 128
  {
    assert Pow2(4) == 16;
    Pow2Sum(4, 4);
    Pow2Sum(8, 8);
    Pow2Sum(16, 16);
    Pow2Sum(32, 32);
    assert Pow2(64) == 2 * Pow2(63) && Pow2(8) == 2 * Pow2(7);
  }

  lemma {:induction false} BitShr(a: int, i: nat, k: nat)
    ensures Bit(Shr(a, k), i) == Bit(a, i + k)
    decreases k
  {
    if k > 0 {
      BitShr(a / 2, i, k - 1);
    }
  }

  lemma {:induction false} ShrMinusPow2(a: int, i: nat, k: nat)
    requires i <= k
    ensures Shr(a - Pow2(k), i) == Shr(a, i) - Pow2(k - i)
    decreases i
  {
    if i > 0 {
      assert Pow2(k) == 2 * Pow2(k - 1);
      assert (a - Pow2(k)) / 2 == a / 2 - Pow2(k - 1);
      ShrMinusPow2(a / 2, i - 1, k - 1);
    }
  }

  lemma {:induction false} ShrRange(a: int, i: nat, k: nat)
    requires i <= k && 0 <= a < Pow2(k)
    ensures 0 <= Shr(a, i) < Pow2(k - i)
    decreases i
  {
    if i > 0 {
      ShrRange(a / 2, i - 1, k - 1);
    }
  }

  /** A k-bit number is determined by its bits. */
  lemma {:induction false} BitsDetermine(a: int, b: int, k: nat)
    requires 0 <= a < Pow2(k) && 0 <= b < Pow2(k)
    requires forall i: nat | i < k :: Bit(a, i) == Bit(b, i)
    ensures a == b
    decreases k
  {
    if k > 0 {
      forall i: nat | i < k - 1 ensures Bit(a / 2, i) == Bit(b / 2, i) {
        assert Bit(a, i + 1) == Bit(b, i + 1);
      }
      BitsDetermine(a / 2, b / 2, k - 1);
      assert Bit(a, 0) == Bit(b, 0);
    }
  }

  lemma {:induction false} ShrOfZero(i: nat)
    ensures Shr(0, i) == 0
  {
    if i > 0 {
      ShrOfZero(i - 1);
    }
  }

  /** The shift is division by a power of two, rounded down. */
  lemma {:induction false} ShrDivides(a: int, i: nat)
    ensures Pow2(i) * Shr(a, i) <= a < Pow2(i) * (Shr(a, i) + 1)
    decreases i
  {
    if i > 0 {
      ShrDivides(a / 2, i - 1);
      DoubleBounds(Pow2(i - 1), Shr(a, i), a);
    }
  }

  lemma DoubleBounds(p: int, q: int, a: int)
    requires p * q <= a / 2 < p * (q + 1)
    ensures (2 * p) * q <= a < (2 * p) * (q + 1)
  {
    assert (2 * p) * q == 2 * (p * q) && (2 * p) * (q + 1) == 2 * (p * (q + 1));
  }
}
