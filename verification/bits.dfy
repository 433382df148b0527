/**
 * Rust's unsigned 64-bit integers and the bit operators the Snowflake id
 * packing uses, defined on mathematical integers. The bitwise operators are
 * defined bit by bit from the least significant bit up; the lemmas below give
 * the two facts the packing relies on: OR-ing a value into the zero low bits
 * of another adds it, and AND-ing with a low mask keeps the remainder.
 */
module Bits {

  const TwoTo64: int := 0x1_0000_0000_0000_0000

  /** Rust's `u64`. */
  type U64 = x: int | 0 <= x < TwoTo64

  function Pow2(n: nat): (p: nat)
    ensures p >= 1
  {
    if n == 0 then 1 else 2 * Pow2(n - 1)
  }

  lemma Pow2Values()
    ensures Pow2(5) == 32 && Pow2(12) == 4096 && Pow2(17) == 131072
    ensures Pow2(22) == 4194304 && Pow2(42) == 0x400_0000_0000
  {
    assert Pow2(5) == 32;
    assert Pow2(12) == 4096;
    assert Pow2(17) == 131072;
    assert Pow2(22) == 4194304;
    assert Pow2(32) == 0x1_0000_0000;
    assert Pow2(42) == 0x400_0000_0000;
  }

  lemma Pow2To64()
    ensures Pow2(64) == TwoTo64
  {
    Pow2Values();
    assert Pow2(52) == 0x10_0000_0000_0000;
    assert Pow2(62) == 0x4000_0000_0000_0000;
    assert Pow2(64) == TwoTo64;
  }

  /** `x - y` on `u64` as a release build computes it: wrapping modulo 2^64. */
  function WrappingSub(x: U64, y: U64): U64 {
    (x - y) % TwoTo64
  }

  /** `x << n` on `u64`: the bits shifted past bit 63 are lost. */
  function Shl(x: U64, n: nat): U64
    requires n < 64
  {
    (x * Pow2(n)) % TwoTo64
  }

  /** `x >> n` on `u64`. */
  function Shr(x: nat, n: nat): nat
    requires n < 64
  {
    var p := Pow2(n);
    QuotientIsNat(x, p);
    x / p
  }

  lemma QuotientIsNat(x: nat, p: nat)
    requires p >= 1
    ensures x / p >= 0
  {
  }

  /** Bitwise `x | y`. */
  function Or(x: nat, y: nat): nat
    decreases x + y
  {
    if x == 0 then y
    else if y == 0 then x
    else 2 * Or(x / 2, y / 2) + (if x % 2 == 1 || y % 2 == 1 then 1 else 0)
  }

  /** Bitwise `x & y`. */
  function And(x: nat, y: nat): nat
    decreases x + y
  {
    if x == 0 || y == 0 then 0
    else 2 * And(x / 2, y / 2) + (if x % 2 == 1 && y % 2 == 1 then 1 else 0)
  }

  /** OR-ing a value below 2^n into a multiple of 2^n is addition: the bits do not overlap. */
  lemma {:induction false} OrIntoZeroLowBits(c: nat, b: nat, n: nat)
    requires b < Pow2(n)
    ensures Or(c * Pow2(n), b) == c * Pow2(n) + b
  {
    if n == 0 || c == 0 || b == 0 {
    } else {
      var half := Pow2(n - 1);
      assert c * Pow2(n) == 2 * (c * half);
      OrIntoZeroLowBits(c, b / 2, n - 1);
    }
  }

  /** Bitwise OR of two n-bit values is an n-bit value. */
  lemma {:induction false} OrBelow(x: nat, y: nat, n: nat)
    requires x < Pow2(n) && y < Pow2(n)
    ensures Or(x, y) < Pow2(n)
  {
    if x != 0 && y != 0 {
      OrBelow(x / 2, y / 2, n - 1);
    }
  }

  /** `x | y` on two `u64` values is a `u64`. */
  lemma OrOfU64(x: U64, y: U64)
    ensures Or(x, y) < TwoTo64
  {
    Pow2To64();
    OrBelow(x, y, 64);
  }

  /** AND-ing with the mask of the n low bits is the remainder modulo 2^n. */
  lemma {:induction false} AndLowMask(x: nat, n: nat)
    ensures And(x, Pow2(n) - 1) == x % Pow2(n)
  {
    if n == 0 || x == 0 {
    } else {
      var half := Pow2(n - 1);
      assert (Pow2(n) - 1) % 2 == 1 && (Pow2(n) - 1) / 2 == half - 1;
      AndLowMask(x / 2, n - 1);
      assert And(x, Pow2(n) - 1) == 2 * ((x / 2) % half) + x % 2;
      ModOfHalves(x, half);
    }
  }

  /** Splitting off the lowest bit: x mod 2p from x/2 mod p and the parity of x. */
  lemma ModOfHalves(x: nat, p: nat)
    requires p >= 1
    ensures x % (2 * p) == 2 * ((x / 2) % p) + x % 2
  {
    var q, r := x / 2, x % 2;
    var u, v := q / p, q % p;
    assert x == (2 * p) * u + (2 * v + r);
    ModUnique(x, 2 * p, u, 2 * v + r);
  }

  /** The remainder is the r of any decomposition x == k * m + r with 0 <= r < m. */
  lemma ModUnique(x: int, m: int, k: int, r: int)
    requires m > 0 && 0 <= r < m && x == k * m + r
    ensures x % m == r
  {
    var k', r' := x / m, x % m;
    var d := k - k';
    assert d * m == k * m - k' * m;
    assert d * m == r' - r;
    if d > 0 {
      MulAtLeast(d, m);
    } else if d < 0 {
      MulAtLeast(-d, m);
    }
  }

  /** A positive multiple of m is at least m. */
  lemma MulAtLeast(d: int, m: int)
    requires d >= 1 && m > 0
    ensures d * m >= m
  {
  }
}
