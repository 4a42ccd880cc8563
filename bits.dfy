/**
 * Bit-level vocabulary of the driver: the unsigned and signed integer types it
 * computes with, powers of two, and the bitwise operators (`&`, `|`, `<<`, `>>`)
 * that the register codec and the sample decoder apply to `u8` and `u32` values.
 * The operators are defined on naturals, one bit at a time, and the lemmas below
 * turn the few patterns the driver uses into plain arithmetic.
 */
module Bits {

  type Byte = x: nat | x < 0x100
  type U32 = x: nat | x < 0x1_0000_0000
  type I32 = x: int | -0x8000_0000 <= x < 0x8000_0000

  const U32_MAX: U32 := 0xFFFF_FFFF

  function Pow2(n: nat): (p: nat)
    ensures p >= 1
  {
    if n == 0 then 1 else 2 * Pow2(n - 1)
  }

  /** Bitwise OR (`a | b`). */
  function Or(a: nat, b: nat): nat
    decreases a + b
  {
    if a == 0 then b
    else if b == 0 then a
    else 2 * Or(a / 2, b / 2) + (if a % 2 == 1 || b % 2 == 1 then 1 else 0)
  }

  /** Bitwise AND (`a & b`). */
  function And(a: nat, b: nat): (r: nat)
    ensures r <= b
    decreases a
  {
    if a == 0 || b == 0 then 0
    else 2 * And(a / 2, b / 2) + (if a % 2 == 1 && b % 2 == 1 then 1 else 0)
  }

  /** Left shift `a << k` in a `w`-bit unsigned type: bits moved past the top are lost. */
  function Shl(a: nat, k: nat, w: nat): nat
  {
    (a * Pow2(k)) % Pow2(w)
  }

  /** Logical right shift `a >> k`: `k` halvings. */
  function Shr(a: nat, k: nat): nat
  {
    if k == 0 then a else Shr(a / 2, k - 1)
  }

  /** Bit `i` of `x`. */
  function Bit(x: nat, i: nat): nat
  {
    Shr(x, i) % 2
  }

  /** The powers of two the driver's tables use. */
  lemma Pow2Table()
    ensures Pow2(1) == 2 && Pow2(2) == 4 && Pow2(3) == 8 && Pow2(4) == 0x10 && Pow2(5) == 0x20 && Pow2(6) == 0x40 && Pow2(7) == 0x80 && Pow2(8) == 0x100
    ensures Pow2(11) == 0x800 && Pow2(12) == 0x1000 && Pow2(13) == 0x2000 && Pow2(14) == 0x4000
    ensures Pow2(15) == 0x8000 && Pow2(16) == 0x1_0000 && Pow2(17) == 0x2_0000 && Pow2(18) == 0x4_0000
    ensures Pow2(24) == 0x100_0000 && Pow2(32) == 0x1_0000_0000
  {
    assert Pow2(1) == 0x2;
    assert Pow2(2) == 0x4;
    assert Pow2(3) == 0x8;
    assert Pow2(4) == 0x10;
    assert Pow2(5) == 0x20;
    assert Pow2(6) == 0x40;
    assert Pow2(7) == 0x80;
    assert Pow2(8) == 0x100;
    assert Pow2(9) == 0x200;
    assert Pow2(10) == 0x400;
    assert Pow2(11) == 0x800;
    assert Pow2(12) == 0x1000;
    assert Pow2(13) == 0x2000;
    assert Pow2(14) == 0x4000;
    assert Pow2(15) == 0x8000;
    assert Pow2(16) == 0x10000;
    assert Pow2(17) == 0x20000;
    assert Pow2(18) == 0x40000;
    assert Pow2(19) == 0x80000;
    assert Pow2(20) == 0x100000;
    assert Pow2(21) == 0x200000;
    assert Pow2(22) == 0x400000;
    assert Pow2(23) == 0x800000;
    assert Pow2(24) == 0x1000000;
    assert Pow2(25) == 0x2000000;
    assert Pow2(26) == 0x4000000;
    assert Pow2(27) == 0x8000000;
    assert Pow2(28) == 0x10000000;
    assert Pow2(29) == 0x20000000;
    assert Pow2(30) == 0x40000000;
    assert Pow2(31) == 0x80000000;
    assert Pow2(32) == 0x100000000;
  }

  lemma {:induction false} Pow2Add(a: nat, b: nat)
    ensures Pow2(a + b) == Pow2(a) * Pow2(b)
  {
    if a > 0 {
      Pow2Add(a - 1, b);
      assert Pow2(a + b) == 2 * Pow2(a - 1 + b);
    }
  }

  /** One more byte multiplies the range by 256. */
  lemma Pow2NextByte(n: nat)
    ensures Pow2(8 * n + 8) == Pow2(8 * n) * 0x100
  {
    Pow2Add(8 * n, 8);
    assert Pow2(8) == 0x100;
  }

  lemma {:induction false} Pow2Monotone(a: nat, b: nat)
    requires a <= b
    ensures Pow2(a) <= Pow2(b)
  {
    if a < b {
      Pow2Monotone(a, b - 1);
    }
  }

  /** Quotient and remainder are unique. */
  lemma DivModUnique(x: int, d: int, q: int, r: int)
    requires d > 0 && 0 <= r < d && x == d * q + r
    ensures x / d == q && x % d == r
  {
    var q', r' := x / d, x % d;
    assert d * (q' - q) == r - r';
    if q' > q {
      MulAtLeast(d, q' - q);
    } else if q' < q {
      MulAtLeast(d, q - q');
    }
  }

  lemma MulAtLeast(d: int, k: int)
    requires d > 0 && k >= 1
    ensures d * k >= d
  {
    assert d * k == d * (k - 1) + d;
    assert d * (k - 1) >= 0;
  }

  /** The digit `f` sits at place value `p` in base `q`: `x = (hi * q + f) * p + lo`. */
  lemma DigitOf(x: nat, hi: nat, f: nat, q: nat, p: nat, lo: nat)
    requires 0 < q && 0 < p && f < q && lo < p
    requires x == (hi * q + f) * p + lo
    ensures x / p == hi * q + f && (x / p) % q == f
  {
    DivModUnique(x, p, hi * q + f, lo);
    DivModUnique(hi * q + f, q, hi, f);
  }

  /** Shifting `v` left by `k` in a `w`-bit type, with no bit lost, then OR-ing in `f < 2^k`, appends `f`. */
  lemma ShlThenOr(v: nat, k: nat, f: nat, w: nat)
    requires f < Pow2(k) && v * Pow2(k) < Pow2(w)
    ensures Shl(v, k, w) == v * Pow2(k)
    ensures Or(Shl(v, k, w), f) == v * Pow2(k) + f
  {
    DivModUnique(v * Pow2(k), Pow2(w), 0, v * Pow2(k));
    OrAddLow(v, k, f);
  }

  /** Dividing by `2 * m` is halving and then dividing by `m`. */
  lemma DivModHalf(x: nat, m: nat)
    requires m > 0
    ensures x / (2 * m) == (x / 2) / m
    ensures x % (2 * m) == 2 * ((x / 2) % m) + x % 2
  {
    var q, s := x / 2, (x / 2) / m;
    var t := q % m;
    assert q == m * s + t;
    assert x == (2 * m) * s + (2 * t + x % 2);
    DivModUnique(x, 2 * m, s, 2 * t + x % 2);
  }

  /** Shifting right by `k` divides by `2^k`. */
  lemma {:induction false} ShrDiv(a: nat, k: nat)
    ensures Shr(a, k) == a / Pow2(k)
  {
    if k > 0 {
      ShrDiv(a / 2, k - 1);
      DivModHalf(a, Pow2(k - 1));
    }
  }

  /** Below `2^(i+1)`, bit `i` is set exactly from `2^i` up. */
  lemma {:induction false} BitBelow(x: nat, i: nat)
    requires x < 2 * Pow2(i)
    ensures (Bit(x, i) == 1) == (x >= Pow2(i))
  {
    if i > 0 {
      BitBelow(x / 2, i - 1);
    }
  }

  /** `2^i * (2q + 1) + lo` with `lo < 2^i` has bit `i` set and `2^i + lo` as its `i + 1` low bits. */
  lemma OddMultipleBits(x: nat, i: nat, q: nat, lo: nat)
    requires lo < Pow2(i) && x == Pow2(i) * (2 * q + 1) + lo
    ensures Bit(x, i) == 1 && x % Pow2(i + 1) == Pow2(i) + lo
  {
    var h := Pow2(i);
    ShrDiv(x, i);
    DivModUnique(x, h, 2 * q + 1, lo);
    assert x == (2 * h) * q + (h + lo);
    DivModUnique(x, 2 * h, q, h + lo);
  }

  /** OR-ing a value below `2^k` into a value shifted left by `k` is addition. */
  lemma {:induction false} OrAddLow(x: nat, k: nat, y: nat)
    requires y < Pow2(k)
    ensures Or(x * Pow2(k), y) == x * Pow2(k) + y
  {
    var a := x * Pow2(k);
    if k == 0 {
      assert y == 0;
    } else if a != 0 && y != 0 {
      assert a == 2 * (x * Pow2(k - 1));
      assert a / 2 == x * Pow2(k - 1) && a % 2 == 0;
      OrAddLow(x, k - 1, y / 2);
    }
  }

  /** AND with `1` keeps the lowest bit. */
  lemma AndOne(x: nat)
    ensures And(x, 1) == x % 2
  {
    if x != 0 {
      assert And(x, 1) == 2 * And(x / 2, 0) + x % 2;
    }
  }

  /** AND with `3` keeps the two lowest bits. */
  lemma AndThree(x: nat)
    ensures And(x, 3) == x % 4
  {
    if x != 0 {
      assert And(x, 3) == 2 * And(x / 2, 1) + x % 2;
      AndOne(x / 2);
      DivModHalf(x, 2);
    }
  }

  /** AND with a single bit `2^j` is non-zero exactly when bit `j` is set. */
  lemma {:induction false} AndBit(x: nat, j: nat)
    ensures (And(x, Pow2(j)) != 0) == (Bit(x, j) == 1)
  {
    if j == 0 {
      AndOne(x);
    } else {
      var p := Pow2(j - 1);
      AndBit(x / 2, j - 1);
      if x != 0 {
        assert And(x, 2 * p) == 2 * And(x / 2, p);
      }
    }
  }

  /** OR with a mask of all `w` bits gives that mask. */
  lemma {:induction false} OrAllOnes(v: nat, w: nat)
    requires v < Pow2(w)
    ensures Or(v, Pow2(w) - 1) == Pow2(w) - 1
  {
    if w > 0 && v != 0 {
      var p := Pow2(w - 1);
      assert Pow2(w) == 2 * p;
      assert (2 * p - 1) / 2 == p - 1 && (2 * p - 1) % 2 == 1;
      OrAllOnes(v / 2, w - 1);
    }
  }

  /** The mask with bits `k..w-1` set: `2^w - 2^k`. */
  function HighMask(w: nat, k: nat): nat
    requires k <= w
  {
    Pow2Monotone(k, w);
    Pow2(w) - Pow2(k)
  }

  /** The mask of bits `k..w-1` has bit `k - 1` clear. */
  lemma {:induction false} HighMaskBitClear(w: nat, k: nat)
    requires 1 <= k <= w
    ensures Bit(HighMask(w, k), k - 1) == 0
  {
    var m := HighMask(w - 1, k - 1);
    assert Pow2(k) == 2 * Pow2(k - 1) && Pow2(w) == 2 * Pow2(w - 1);
    assert HighMask(w, k) == 2 * m;
    if k > 1 {
      HighMaskBitClear(w - 1, k - 1);
    }
  }

  /**
   * OR with the mask of bits `k..w-1` sets those bits and keeps the `k` lowest
   * bits of `v`: the result is `(2^w - 2^k) + v mod 2^k`.
   */
  lemma {:induction false} OrHighMask(v: nat, w: nat, k: nat)
    requires v < Pow2(w) && k <= w
    ensures Or(v, HighMask(w, k)) == HighMask(w, k) + v % Pow2(k)
  {
    if k == 0 {
      OrAllOnes(v, w);
    } else {
      var p, m := Pow2(k - 1), HighMask(w - 1, k - 1);
      assert Pow2(k) == 2 * p && Pow2(w) == 2 * Pow2(w - 1);
      assert HighMask(w, k) == 2 * m;
      OrHighMask(v / 2, w - 1, k - 1);
      DivModHalf(v, p);
      if v == 0 {
      } else if m == 0 {
        assert k == w by {
          if k < w {
            Pow2Monotone(k, w - 1);
          }
        }
        DivModUnique(v, 2 * p, 0, v);
      } else {
        assert Or(v, 2 * m) == 2 * Or(v / 2, m) + v % 2;
      }
    }
  }
}
