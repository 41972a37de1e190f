/** C's unsigned integer types and bit operators, on mathematical integers.

    `ShiftRight`, `ShiftLeft`, `BitAnd` and `BitOr` are the C operators `>>`,
    `<<`, `&` and `|` on non-negative values; `ToU8` and `ToU16` are the
    truncating conversions to `uint8_t` and `uint16_t`. The lemmas state what the
    operators compute when they are used as the driver uses them: a mask of low
    bits is a remainder, and an or of disjoint bit ranges is an addition. */
module Unsigned {

  type uint8 = x: int | 0 <= x < 0x100
  type uint16 = x: int | 0 <= x < 0x1_0000

  function Pow2(k: nat): (p: nat)
    ensures p >= 1
  {
    if k == 0 then 1 else 2 * Pow2(k - 1)
  }

  /** `a >> k` */
  function ShiftRight(a: nat, k: nat): nat
  {
    var p := Pow2(k);
    QuotientNonNegative(a, p);
    a / p
  }

  lemma QuotientNonNegative(a: nat, p: nat)
    requires p >= 1
    ensures a / p >= 0
  {}

  /** `a << k`, before any truncation */
  function ShiftLeft(a: nat, k: nat): nat
  {
    a * Pow2(k)
  }

  /** `a & b`, bit by bit from the least significant bit */
  function BitAnd(a: nat, b: nat): nat
    decreases a
  {
    if a == 0 || b == 0 then 0
    else 2 * BitAnd(a / 2, b / 2) + (if a % 2 == 1 && b % 2 == 1 then 1 else 0)
  }

  /** `a | b`, bit by bit from the least significant bit */
  function BitOr(a: nat, b: nat): nat
    decreases a + b
  {
    if a == 0 then b
    else if b == 0 then a
    else 2 * BitOr(a / 2, b / 2) + (if a % 2 == 1 || b % 2 == 1 then 1 else 0)
  }

  /** `(uint8_t)a` */
  function ToU8(a: nat): uint8
  {
    a % 0x100
  }

  /** `(uint16_t)a` */
  function ToU16(a: nat): uint16
  {
    a % 0x1_0000
  }

  lemma Pow2Values()
    ensures Pow2(4) == 16 && Pow2(8) == 256
  {
    assert Pow2(2) == 4;
    assert Pow2(4) == 16;
  }

  // ---------------------------------------------------------------------------
  // Division facts

  lemma MulStrict(a: int, b: int, q: int)
    requires q > 0 && a * q < b * q
    ensures a < b
  {}

  /** Quotient and remainder are determined by any decomposition a == d * n + m. */
  lemma DivModUnique(a: int, n: int, d: int, m: int)
    requires n > 0 && 0 <= m < n && a == d * n + m
    ensures a / n == d && a % n == m
  {
    var d', m' := a / n, a % n;
    assert a == d' * n + m' && 0 <= m' < n;
    assert (d + 1) * n == d * n + n && (d' + 1) * n == d' * n + n;
    MulStrict(d', d + 1, n);
    MulStrict(d, d' + 1, n);
  }

  /** A value of at least k * q has quotient at least k. */
  lemma DivAtLeast(y: int, q: int, k: int)
    requires q > 0 && k * q <= y
    ensures y / q >= k
  {
    var d, m := y / q, y % q;
    assert y == d * q + m && 0 <= m < q;
    assert (d + 1) * q == d * q + q;
    MulStrict(k, d + 1, q);
  }

  lemma HalveRemainder(a: nat, p: nat)
    requires p >= 1
    ensures a % (2 * p) == 2 * ((a / 2) % p) + a % 2
  {
    var q := a / 2;
    assert a == 2 * q + a % 2;
    assert q == (q / p) * p + q % p;
    assert a == (q / p) * (2 * p) + (2 * (q % p) + a % 2);
    DivModUnique(a, 2 * p, q / p, 2 * (q % p) + a % 2);
  }

  /** One bit of a mask of ones: the lowest bit of a survives, the rest is the
      and of a / 2 with the shorter mask. */
  lemma MaskStep(a: nat, p: nat)
    requires a > 0 && p >= 1
    ensures BitAnd(a, 2 * p - 1) == 2 * BitAnd(a / 2, p - 1) + a % 2
  {
    var mask := 2 * p - 1;
    assert mask / 2 == p - 1 && mask % 2 == 1 && mask != 0;
  }

  // ---------------------------------------------------------------------------
  // What the operators compute

  /** Masking with k low one-bits keeps the remainder modulo 2^k. */
  lemma {:induction false} LowMask(a: nat, k: nat)
    ensures BitAnd(a, Pow2(k) - 1) == a % Pow2(k)
    decreases k
  {
    var mask := Pow2(k) - 1;
    if k == 0 {
      assert mask == 0 && a % 1 == 0;
    } else if a > 0 {
      var p := Pow2(k - 1);
      assert Pow2(k) == 2 * p;
      MaskStep(a, p);
      LowMask(a / 2, k - 1);
      HalveRemainder(a, p);
    } else {
      DivModUnique(a, Pow2(k), 0, 0);
    }
  }

  lemma BitOrZero(a: nat)
    ensures BitOr(a, 0) == a
  {}

  /** An or of a value shifted left by k with a value below 2^k is their sum. */
  lemma {:induction false} DisjointOr(a: nat, b: nat, k: nat)
    requires b < Pow2(k)
    ensures BitOr(ShiftLeft(a, k), b) == ShiftLeft(a, k) + b
    decreases k
  {
    var hi := ShiftLeft(a, k);
    if k == 0 {
      assert b == 0;
      BitOrZero(hi);
    } else if hi != 0 && b != 0 {
      var p := Pow2(k - 1);
      assert hi == 2 * (a * p);
      assert hi / 2 == ShiftLeft(a, k - 1) && hi % 2 == 0;
      assert b / 2 < p;
      DisjointOr(a, b / 2, k - 1);
      assert BitOr(hi, b) == 2 * BitOr(hi / 2, b / 2) + b % 2;
    }
  }
}
