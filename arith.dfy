/** Unsigned machine words and the integer facts the bit-field models share. */
module Arith {

  /** 2^64, one more than the largest `unsigned long` on a 64-bit kernel. */
  const ULONG_LIMIT: int := 0x1_0000_0000_0000_0000

  /** An `unsigned long` value. */
  type ULong = x: int | 0 <= x < ULONG_LIMIT

  /** A `u8` value. */
  type U8 = x: int | 0 <= x < 256

  /** A `u16` value. */
  type U16 = x: int | 0 <= x < 0x1_0000

  /** A `u32` (`unsigned int`) value. */
  type U32 = x: int | 0 <= x < 0x1_0000_0000

  /** A 32-bit `int` value (`atomic_t` counters, `s32`). */
  type Int32 = x: int | -0x8000_0000 <= x < 0x8000_0000

  /** Two's-complement wrap-around of a result into 32 bits. */
  function Wrap32(x: int): (r: Int32)
    ensures (r - x) % 0x1_0000_0000 == 0
    ensures -0x8000_0000 <= x < 0x8000_0000 ==> r == x
  {
    (x + 0x8000_0000) % 0x1_0000_0000 - 0x8000_0000
  }

  /** `1 << n` on unbounded integers. */
  function Pow2(n: nat): (p: nat)
    ensures p >= 1
  {
    if n == 0 then 1 else 2 * Pow2(n - 1)
  }

  /** Shifting by `a` then by `b` is shifting by `a + b`. */
  lemma {:induction false} Pow2Add(a: nat, b: nat)
    ensures Pow2(a + b) == Pow2(a) * Pow2(b)
    decreases a
  {
    if a > 0 {
      Pow2Add(a - 1, b);
      assert Pow2(a + b) == 2 * Pow2(a - 1 + b);
    }
  }

  /** 2^8 = 256, the range of one byte. */
  lemma Pow2Eight()
    ensures Pow2(8) == 256
  {
    assert Pow2(4) == 16;
    Pow2Add(4, 4);
  }

  /** 2^32. */
  lemma Pow2ThirtyTwo()
    ensures Pow2(32) == 0x1_0000_0000
  {
    Pow2Eight();
    Pow2Add(8, 8);
    Pow2Add(16, 16);
  }

  /** 2^64 as a power of two. */
  lemma Pow2SixtyFour()
    ensures Pow2(64) == ULONG_LIMIT
  {
    Pow2ThirtyTwo();
    Pow2Add(32, 32);
  }

  /** 2^64 split into a power `s` and the rest. */
  lemma Pow2SplitSixtyFour(s: nat)
    requires s <= 64
    ensures ULONG_LIMIT == Pow2(64 - s) * Pow2(s)
  {
    Pow2Add(64 - s, s);
    Pow2SixtyFour();
    assert 64 - s + s == 64;
  }

  /** Half of 2^64. */
  lemma Pow2SixtyThree()
    ensures Pow2(63) == ULONG_LIMIT / 2
  {
    Pow2SixtyFour();
    DivModUnique(ULONG_LIMIT, 2, Pow2(63), 0);
  }

  /** A larger exponent gives a larger power. */
  lemma {:induction false} Pow2Monotone(a: nat, b: nat)
    requires a <= b
    ensures Pow2(a) <= Pow2(b)
    decreases b
  {
    if a < b {
      Pow2Monotone(a, b - 1);
    }
  }

  /** A product of a positive and a larger factor is at least the positive one. */
  lemma MulAtLeast(k: int, d: int)
    requires d > 0 && k >= 1
    ensures k * d >= d
  {
    assert k * d == (k - 1) * d + d;
    assert (k - 1) * d >= 0;
  }

  /** Quotient and remainder are determined by `x == q * d + r` with `0 <= r < d`. */
  lemma DivModUnique(x: int, d: int, q: int, r: int)
    requires d > 0 && 0 <= r < d && x == q * d + r
    ensures x / d == q && x % d == r
  {
    var q0, r0 := x / d, x % d;
    assert (q - q0) * d == r0 - r;
    if q > q0 {
      MulAtLeast(q - q0, d);
    } else if q < q0 {
      MulAtLeast(q0 - q, d);
    }
  }

  /** `x` rounded down to a multiple of `d`. */
  function RoundDown(x: nat, d: nat): (r: nat)
    requires d > 0
    ensures r <= x < r + d
    ensures r % d == 0
  {
    DivModUnique(x - x % d, d, x / d, 0);
    x - x % d
  }

  /** Two multiples of `d` less than `d` apart are equal. */
  lemma MultiplesInWindow(a: nat, b: nat, d: nat)
    requires d > 0 && a % d == 0 && b % d == 0
    requires a <= b < a + d
    ensures a == b
  {
    var qa, qb := a / d, b / d;
    assert a == qa * d;
    assert b == qb * d;
    assert (qb - qa) * d == b - a;
    if qb > qa {
      MulAtLeast(qb - qa, d);
    } else if qb < qa {
      MulAtLeast(qa - qb, d);
    }
  }

  /** One multiple of `d` below the multiple `k * d` is again a multiple. */
  lemma PreviousMultiple(k: int, d: int)
    requires d > 0 && k >= 1
    ensures (k * d - d) % d == 0
  {
    assert k * d - d == (k - 1) * d;
    DivModUnique(k * d - d, d, k - 1, 0);
  }

  /** Multiplying by a positive factor keeps `<=`. */
  lemma MulMonotone(a: int, b: int, d: int)
    requires d > 0 && a <= b
    ensures a * d <= b * d
  {
    assert b * d - a * d == (b - a) * d;
    assert (b - a) * d >= 0;
  }

  /** A quotient of a value at most `m * d` is at most `m`. */
  lemma DivAtMost(x: int, d: int, m: int)
    requires d > 0 && 0 <= x <= m * d
    ensures x / d <= m
  {
    var q := x / d;
    assert x == q * d + x % d;
    assert (m + 1) * d == m * d + d;
    if q > m {
      MulMonotone(m + 1, q, d);
    }
  }

  /** Dividing a natural number leaves a natural number no larger. */
  lemma DivIsNat(x: int, d: int)
    requires x >= 0 && d > 0
    ensures 0 <= x / d <= x
  {
    var q := x / d;
    assert x == q * d + x % d;
    if q < 0 {
      MulMonotone(q, -1, d);
    } else if q > x {
      MulMonotone(x + 1, q, d);
      MulMonotone(1, d, x + 1);
    }
  }

  /** `flags |= mask` on a 32-bit word: the mask's bits set, the others kept. */
  function SetBits32(flags: bv32, mask: bv32): (r: bv32)
    ensures r & mask == mask && r & !mask == flags & !mask
  {
    flags | mask
  }

  /** `flags &= ~mask` on a 32-bit word: the mask's bits clear, the others kept. */
  function ClearBits32(flags: bv32, mask: bv32): (r: bv32)
    ensures r & mask == 0 && r & !mask == flags & !mask
  {
    flags & !mask
  }

  /** Setting and then clearing a mask is clearing it. */
  lemma SetThenClearBits32(flags: bv32, mask: bv32)
    ensures ClearBits32(SetBits32(flags, mask), mask) == ClearBits32(flags, mask)
  {
  }
}
