/**
 * Fixed-width integers and the bitwise operators the emulator uses.
 *
 * Rust's `u8`, `u16` and `i8` are modelled as bounded integers.  Shifts by a
 * constant and masks of contiguous low bits are written in the model as
 * division and remainder by a power of two (`x >> 4` is `x / 16`,
 * `x & 0x1F` is `x % 32`); `&`, `|` and `^` on two arbitrary operands are the
 * functions `And`, `Or` and `Xor` below, defined bit by bit.
 */
module Bits {

  type u8 = x: int | 0 <= x < 0x100
  type u16 = x: int | 0 <= x < 0x1_0000
  type i8 = x: int | -128 <= x < 128

  /** Wrapping (release-build) arithmetic. */
  function Wrap8(x: int): (r: u8)
    ensures 0 <= x < 0x100 ==> r == x
    ensures -0x100 <= x < 0 ==> r == x + 0x100
    ensures 0x100 <= x < 0x200 ==> r == x - 0x100
    ensures (r - x) % 0x100 == 0
  {
    WrapOnce(x, 0x100);
    x % 0x100
  }

  function Wrap16(x: int): (r: u16)
    ensures 0 <= x < 0x1_0000 ==> r == x
    ensures -0x1_0000 <= x < 0 ==> r == x + 0x1_0000
    ensures 0x1_0000 <= x < 0x2_0000 ==> r == x - 0x1_0000
    ensures (r - x) % 0x1_0000 == 0
  {
    WrapOnce(x, 0x1_0000);
    x % 0x1_0000
  }

  /** A value at most one modulus out of range is brought back by one addition or subtraction. */
  lemma WrapOnce(x: int, m: int)
    requires m > 0
    ensures -m <= x < 0 ==> x % m == x + m
    ensures m <= x < 2 * m ==> x % m == x - m
  {
    if -m <= x < 0 {
      DivUnique(x, m, -1, x + m);
    } else if m <= x < 2 * m {
      DivUnique(x, m, 1, x - m);
    }
  }

  function Pow2(n: nat): (r: nat)
    ensures r >= 1
  {
    if n == 0 then 1 else 2 * Pow2(n - 1)
  }

  /** Bit `i` of `x`: the emulator's `bN!(x)` macros, `(x >> N) & 1`. */
  function Bit(x: nat, i: nat): (b: nat)
    ensures b == 0 || b == 1
  {
    if i == 0 then x % 2 else Bit(x / 2, i - 1)
  }

  function And(a: nat, b: nat): nat
  {
    if a == 0 || b == 0 then 0
    else 2 * And(a / 2, b / 2) + (if a % 2 == 1 && b % 2 == 1 then 1 else 0)
  }

  function Or(a: nat, b: nat): nat
    decreases a + b
  {
    if a == 0 then b
    else if b == 0 then a
    else 2 * Or(a / 2, b / 2) + (if a % 2 == 1 || b % 2 == 1 then 1 else 0)
  }

  function Xor(a: nat, b: nat): nat
    decreases a + b
  {
    if a == 0 then b
    else if b == 0 then a
    else 2 * Xor(a / 2, b / 2) + (a + b) % 2
  }

  // ---------------------------------------------------------------------
  // Division facts

  lemma MulAtLeast(d: int, t: int)
    requires d > 0 && t >= 1
    ensures d * t >= d
  {
    assert d * t == d * (t - 1) + d;
    assert d * (t - 1) >= 0;
  }

  lemma MulMonotone(a: int, b: int, c: int)
    requires a >= 0 && b <= c
    ensures a * b <= a * c
  {
    assert a * c - a * b == a * (c - b);
  }

  /** Dividing by at least 1 never grows a natural number. */
  lemma DivAtMost(x: nat, d: nat)
    requires d >= 1
    ensures 0 <= x / d <= x
  {
    var q := x / d;
    if q >= 1 {
      MulAtLeast(q, d);
      assert d * q <= x;
    }
  }

  /** Euclidean division is unique. */
  lemma DivUnique(x: int, d: int, k: int, m: int)
    requires d > 0 && x == d * k + m && 0 <= m < d
    ensures x / d == k && x % d == m
  {
    var q, r := x / d, x % d;
    assert x == d * q + r;
    assert d * k - d * q == r - m;
    assert d * (k - q) == r - m;
    if k > q {
      MulAtLeast(d, k - q);
    } else if k < q {
      MulAtLeast(d, q - k);
    }
  }

  lemma DivDiv(x: nat, a: nat, b: nat)
    requires a > 0 && b > 0
    ensures x / (a * b) == (x / a) / b
  {
    var q := x / a;
    var r := x % a;
    var q2 := q / b;
    var r2 := q % b;
    assert x == a * q + r;
    assert q == b * q2 + r2;
    assert a * q == a * (b * q2) + a * r2;
    assert a * (b * q2) == (a * b) * q2;
    MulMonotone(a, r2, b - 1);
    assert a * (b - 1) == a * b - a;
    DivUnique(x, a * b, q2, a * r2 + r);
  }

  // ---------------------------------------------------------------------
  // Bits of the operators

  lemma {:induction false} BitShr(x: nat, n: nat, i: nat)
    ensures x / Pow2(n) >= 0 && Bit(x / Pow2(n), i) == Bit(x, n + i)
    decreases n
  {
    if n > 0 {
      DivDiv(x, 2, Pow2(n - 1));
      BitShr(x / 2, n - 1, i);
    }
  }

  lemma {:induction false} BitPow2(k: nat, i: nat)
    ensures Bit(Pow2(k), i) == if i == k then 1 else 0
    decreases i
  {
    if i > 0 && k > 0 {
      BitPow2(k - 1, i - 1);
    } else if i > 0 {
      BitZero(i - 1);
    }
  }

  lemma {:induction false} BitZero(i: nat)
    ensures Bit(0, i) == 0
    decreases i
  {
    if i > 0 { BitZero(i - 1); }
  }

  lemma {:induction false} BitAnd(a: nat, b: nat, i: nat)
    ensures Bit(And(a, b), i) == if Bit(a, i) == 1 && Bit(b, i) == 1 then 1 else 0
    decreases i
  {
    if a == 0 || b == 0 {
      BitZero(i);
    } else {
      var q, c := And(a / 2, b / 2), if a % 2 == 1 && b % 2 == 1 then 1 else 0;
      DivUnique(And(a, b), 2, q, c);
      if i > 0 { BitAnd(a / 2, b / 2, i - 1); }
    }
  }

  lemma {:induction false} BitOr(a: nat, b: nat, i: nat)
    ensures Bit(Or(a, b), i) == if Bit(a, i) == 1 || Bit(b, i) == 1 then 1 else 0
    decreases i
  {
    if a == 0 {
      BitZero(i);
    } else if b == 0 {
      BitZero(i);
    } else {
      var q, c := Or(a / 2, b / 2), if a % 2 == 1 || b % 2 == 1 then 1 else 0;
      DivUnique(Or(a, b), 2, q, c);
      if i > 0 { BitOr(a / 2, b / 2, i - 1); }
    }
  }

  lemma {:induction false} BitXor(a: nat, b: nat, i: nat)
    ensures Bit(Xor(a, b), i) == (Bit(a, i) + Bit(b, i)) % 2
    decreases i
  {
    if a == 0 {
      BitZero(i);
    } else if b == 0 {
      BitZero(i);
    } else {
      var q, c := Xor(a / 2, b / 2), (a + b) % 2;
      DivUnique(Xor(a, b), 2, q, c);
      if i > 0 { BitXor(a / 2, b / 2, i - 1); }
    }
  }

  /** A number below 2^n is determined by its low n bits. */
  lemma {:induction false} BitsDetermine(x: nat, y: nat, n: nat)
    requires x < Pow2(n) && y < Pow2(n)
    requires forall i :: 0 <= i < n ==> Bit(x, i) == Bit(y, i)
    ensures x == y
    decreases n
  {
    if n > 0 {
      assert Bit(x, 0) == Bit(y, 0);
      forall i | 0 <= i < n - 1 ensures Bit(x / 2, i) == Bit(y / 2, i) {
        assert Bit(x, i + 1) == Bit(y, i + 1);
      }
      BitsDetermine(x / 2, y / 2, n - 1);
    }
  }

  /** Bits at or above n of a number below 2^n are zero. */
  lemma {:induction false} BitAbove(x: nat, n: nat, i: nat)
    requires x < Pow2(n) && i >= n
    ensures Bit(x, i) == 0
    decreases n
  {
    if n == 0 {
      BitZero(i);
    } else if i > 0 {
      BitAbove(x / 2, n - 1, i - 1);
    }
  }

  lemma {:induction false} OrBound(a: nat, b: nat, n: nat)
    requires a < Pow2(n) && b < Pow2(n)
    ensures Or(a, b) < Pow2(n)
    decreases n
  {
    if a != 0 && b != 0 {
      OrBound(a / 2, b / 2, n - 1);
    }
  }

  lemma {:induction false} XorBound(a: nat, b: nat, n: nat)
    requires a < Pow2(n) && b < Pow2(n)
    ensures Xor(a, b) < Pow2(n)
    decreases n
  {
    if a != 0 && b != 0 {
      XorBound(a / 2, b / 2, n - 1);
    }
  }

  lemma {:induction false} AndBound(a: nat, b: nat)
    ensures And(a, b) <= a && And(a, b) <= b
    decreases a
  {
    if a != 0 && b != 0 {
      AndBound(a / 2, b / 2);
    }
  }

  /** `|` of two byte values is a byte, and so is `^` and `&`. */
  lemma ByteOps(a: u8, b: u8)
    ensures Or(a, b) < 0x100 && Xor(a, b) < 0x100 && And(a, b) < 0x100
  {
    assert Pow2(8) == 0x100;
    OrBound(a, b, 8);
    XorBound(a, b, 8);
    AndBound(a, b);
  }

  // ---------------------------------------------------------------------
  // Single-bit masks

  /** `x | (1 << k)` sets bit k and keeps the others. */
  lemma SetBitBits(x: nat, k: nat, i: nat)
    ensures Bit(Or(x, Pow2(k)), i) == if i == k then 1 else Bit(x, i)
  {
    BitOr(x, Pow2(k), i);
    BitPow2(k, i);
  }

  /** `x ^ (1 << k)` flips bit k and keeps the others. */
  lemma FlipBitBits(x: nat, k: nat, i: nat)
    ensures Bit(Xor(x, Pow2(k)), i) == if i == k then 1 - Bit(x, i) else Bit(x, i)
  {
    BitXor(x, Pow2(k), i);
    BitPow2(k, i);
  }

  /** `x & (1 << k)` is `1 << k` exactly when bit k of x is set, and 0 otherwise. */
  lemma MaskBit(x: nat, k: nat)
    ensures And(x, Pow2(k)) == if Bit(x, k) == 1 then Pow2(k) else 0
  {
    AndBound(x, Pow2(k));
    var r := if Bit(x, k) == 1 then Pow2(k) else 0;
    forall i | 0 <= i < k + 1 ensures Bit(And(x, Pow2(k)), i) == Bit(r, i) {
      BitAnd(x, Pow2(k), i);
      BitPow2(k, i);
      BitZero(i);
    }
    assert Pow2(k + 1) == 2 * Pow2(k);
    BitsDetermine(And(x, Pow2(k)), r, k + 1);
  }

  /** Setting an already set bit, or setting a bit twice, changes nothing. */
  lemma OrIdempotent(x: nat, f: nat)
    ensures Or(Or(x, f), f) == Or(x, f)
  {
    var n: nat := x + f + 1;
    PowAbove(n);
    OrBound(x, f, n);
    OrBound(Or(x, f), f, n);
    forall i | 0 <= i < n ensures Bit(Or(Or(x, f), f), i) == Bit(Or(x, f), i) {
      BitOr(Or(x, f), f, i);
      BitOr(x, f, i);
    }
    BitsDetermine(Or(Or(x, f), f), Or(x, f), n);
  }

  lemma {:induction false} PowAbove(n: nat)
    ensures n < Pow2(n)
    decreases n
  {
    if n > 0 { PowAbove(n - 1); }
  }
  /** `lo | hi` is `lo + hi` when the set bits of `lo` lie below bit k and those of `hi` at or above it. */
  lemma {:induction false} OrDisjoint(lo: nat, hi: nat, m: nat, k: nat)
    requires lo < Pow2(k) && hi == m * Pow2(k)
    ensures Or(lo, hi) == lo + hi && Or(hi, lo) == lo + hi
    decreases k
  {
    if k > 0 && lo != 0 && hi != 0 {
      assert hi == 2 * (m * Pow2(k - 1));
      OrDisjoint(lo / 2, hi / 2, m, k - 1);
    }
  }

  lemma SmallPow2(k: nat)
    requires k < 8
    ensures Pow2(k) == [1, 2, 4, 8, 16, 32, 64, 128][k]
  {
    if k > 0 { SmallPow2(k - 1); }
  }

  /** The low n bits of 2^n - 1 are set and the others clear. */
  lemma {:induction false} BitOnes(n: nat, i: nat)
    ensures Bit(Pow2(n) - 1, i) == if i < n then 1 else 0
    decreases n
  {
    if n == 0 {
      BitZero(i);
    } else if i > 0 {
      BitOnes(n - 1, i - 1);
    }
  }

  /** `a | b` is zero exactly when both operands are. */
  lemma {:induction false} OrZero(a: nat, b: nat)
    ensures Or(a, b) == 0 <==> a == 0 && b == 0
    decreases a + b
  {
    if a != 0 && b != 0 {
      OrZero(a / 2, b / 2);
    }
  }

  /** `a ^ b` is zero exactly when the two numbers are equal. */
  lemma {:induction false} XorZero(a: nat, b: nat)
    ensures Xor(a, b) == 0 <==> a == b
    decreases a + b
  {
    if a != 0 && b != 0 {
      XorZero(a / 2, b / 2);
      assert a == 2 * (a / 2) + a % 2 && b == 2 * (b / 2) + b % 2;
    }
  }

  /** `&`, `|` and `^` act bit by bit, for every bit at once. */
  lemma BitwiseBits(a: nat, b: nat)
    ensures forall i: nat :: Bit(And(a, b), i) == (if Bit(a, i) == 1 && Bit(b, i) == 1 then 1 else 0)
    ensures forall i: nat :: Bit(Or(a, b), i) == (if Bit(a, i) == 1 || Bit(b, i) == 1 then 1 else 0)
    ensures forall i: nat :: Bit(Xor(a, b), i) == (Bit(a, i) + Bit(b, i)) % 2
  {
    forall i: nat ensures Bit(And(a, b), i) == (if Bit(a, i) == 1 && Bit(b, i) == 1 then 1 else 0) {
      BitAnd(a, b, i);
    }
    forall i: nat ensures Bit(Or(a, b), i) == (if Bit(a, i) == 1 || Bit(b, i) == 1 then 1 else 0) {
      BitOr(a, b, i);
    }
    forall i: nat ensures Bit(Xor(a, b), i) == (Bit(a, i) + Bit(b, i)) % 2 {
      BitXor(a, b, i);
    }
  }

  /** `x & 1` is bit 0 of x. */
  lemma AndOne(x: nat)
    ensures And(x, 1) == x % 2
  {
  }

  /** The eight bits of a byte as divisions: bit k of x is `(x / 2^k) % 2`. */
  lemma ByteBits(x: nat)
    ensures Bit(x, 0) == x % 2 && Bit(x, 1) == (x / 2) % 2
    ensures Bit(x, 2) == (x / 4) % 2 && Bit(x, 3) == (x / 8) % 2
    ensures Bit(x, 4) == (x / 16) % 2 && Bit(x, 5) == (x / 32) % 2
    ensures Bit(x, 6) == (x / 64) % 2 && Bit(x, 7) == (x / 128) % 2
  {
    forall k: nat | k < 8 ensures Bit(x, k) == (x / Pow2(k)) % 2 {
      BitShr(x, k, 0);
    }
    SmallPow2(1); SmallPow2(2); SmallPow2(3); SmallPow2(4);
    SmallPow2(5); SmallPow2(6); SmallPow2(7);
  }

  /** A byte as its high nibble, bit 3 and bits 0-2. */
  lemma NibbleBit3Split(x: u8)
    ensures Bit(x, 3) == (x / 8) % 2 && x / 16 <= 15
    ensures x == (x / 16) * 16 + ((x / 8) % 2) * 8 + x % 8
  {
    BitShr(x, 3, 0);
    SmallPow2(3);
    DivUnique(x % 16, 8, (x / 8) % 2, x % 8);
  }
}
