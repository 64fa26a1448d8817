/**
 * The arithmetic and logic of the execution engine (src/cpu/eval.rs), one
 * function per rule: the result byte or word and the flags the instruction
 * writes.  Each function follows the integer types of the source: ADD8/ADC8
 * in `u16`, SUB8/SBC8/CP in `i16` (so a borrow shows as a negative value),
 * the 16-bit additions in `u32` or, with a signed operand, `i32`.
 */
module Alu {
  import opened Bits

  /** The values given to `set_flags(z, n, h, cy)`. */
  datatype Flags = Flags(z: bool, n: bool, h: bool, cy: bool)

  datatype Out8 = Out8(v: u8, flags: Flags)

  /** A 16-bit sum with the half carry out of bit 11 and the carry out of bit 15. */
  datatype Out16 = Out16(v: u16, h: bool, cy: bool)

  /** A shifted or rotated byte with the bit shifted out. */
  datatype Shifted = Shifted(v: u8, out: bool)

  /** `flag as u16`: a flag as 0 or 1. */
  function Ord(x: bool): nat
  {
    if x then 1 else 0
  }

  // ---------------------------------------------------------------------
  // 8-bit arithmetic

  /** ADD8 (`carry` false) and ADC8 (`carry` the C flag). */
  function Add8(a: u8, b: u8, carry: bool): (r: Out8)
    ensures r.v + 0x100 * Ord(r.flags.cy) == a + b + Ord(carry)
    ensures (r.flags.z <==> r.v == 0) && !r.flags.n
    ensures r.flags.h <==> a % 0x10 + b % 0x10 + Ord(carry) >= 0x10
  {
    var r16 := a + b + Ord(carry);
    var r8 := r16 % 0x100;
    var r4 := a % 0x10 + b % 0x10 + Ord(carry);
    Out8(r8, Flags(r8 == 0, false, r4 / 0x10 == 1, r16 / 0x100 == 1))
  }

  /** SUB8 and CP (`carry` false) and SBC8 (`carry` the C flag). */
  function Sub8(a: u8, b: u8, carry: bool): (r: Out8)
    ensures r.v == a - b - Ord(carry) + 0x100 * Ord(r.flags.cy)
    ensures (r.flags.z <==> r.v == 0) && r.flags.n
    ensures r.flags.h <==> a % 0x10 < b % 0x10 + Ord(carry)
  {
    var r16 := a - b - Ord(carry);
    var r8 := r16 % 0x100;
    var r4 := a % 0x10 - b % 0x10 - Ord(carry);
    Out8(r8, Flags(r8 == 0, true, r4 < 0, r16 < 0))
  }

  function And8(a: u8, b: u8): (r: Out8)
    ensures forall i: nat :: Bit(r.v, i) == (if Bit(a, i) == 1 && Bit(b, i) == 1 then 1 else 0)
    ensures r.flags == Flags(r.v == 0, false, true, false)
  {
    BitwiseBits(a, b);
    ByteOps(a, b);
    var r := And(a, b);
    Out8(r, Flags(r == 0, false, true, false))
  }

  function Or8(a: u8, b: u8): (r: Out8)
    ensures forall i: nat :: Bit(r.v, i) == (if Bit(a, i) == 1 || Bit(b, i) == 1 then 1 else 0)
    ensures r.flags.z <==> a == 0 && b == 0
    ensures !r.flags.n && !r.flags.h && !r.flags.cy
  {
    BitwiseBits(a, b);
    OrZero(a, b);
    ByteOps(a, b);
    var r := Or(a, b);
    Out8(r, Flags(r == 0, false, false, false))
  }

  function Xor8(a: u8, b: u8): (r: Out8)
    ensures forall i: nat :: Bit(r.v, i) == (Bit(a, i) + Bit(b, i)) % 2
    ensures r.flags.z <==> a == b
    ensures !r.flags.n && !r.flags.h && !r.flags.cy
  {
    BitwiseBits(a, b);
    XorZero(a, b);
    ByteOps(a, b);
    var r := Xor(a, b);
    Out8(r, Flags(r == 0, false, false, false))
  }

  /** INC8: the C flag `cy` is written back unchanged. */
  function Inc8(a: u8, cy: bool): (r: Out8)
    ensures r.v == (if a == 0xFF then 0 else a + 1)
    ensures (r.flags.z <==> a == 0xFF) && !r.flags.n
    ensures (r.flags.h <==> a % 0x10 == 0xF) && r.flags.cy == cy
  {
    var r8 := (a + 1) % 0x100;
    var r4 := a % 0x10 + 1;
    Out8(r8, Flags(r8 == 0, false, r4 / 0x10 == 1, cy))
  }

  /** DEC8: the C flag `cy` is written back unchanged. */
  function Dec8(a: u8, cy: bool): (r: Out8)
    ensures r.v == (if a == 0 then 0xFF else a - 1)
    ensures (r.flags.z <==> a == 1) && r.flags.n
    ensures (r.flags.h <==> a % 0x10 == 0) && r.flags.cy == cy
  {
    var r8 := (a - 1) % 0x100;
    var r4 := a % 0x10 - 1;
    Out8(r8, Flags(r8 == 0, true, r4 < 0, cy))
  }

  /** ADD16 with a 16-bit operand, in `u32`. */
  function Add16(a: u16, b: u16): (r: Out16)
    ensures r.v + 0x1_0000 * Ord(r.cy) == a + b
    ensures r.h <==> a % 0x1000 + b % 0x1000 >= 0x1000
  {
    var r32 := a + b;
    var r12 := a % 0x1000 + b % 0x1000;
    Out16(r32 % 0x1_0000, r12 / 0x1000 == 1, r32 / 0x1_0000 == 1)
  }

  /**
   * ADD16 with a signed operand and `LD HL, SP+r8`, in `i32`: `b & 0xFFF`
   * of a negative `b` is its two's-complement low 12 bits, and `r32 >> 16`
   * of a negative sum is -1.
   */
  function AddSigned16(a: u16, b: i8): (r: Out16)
    ensures b >= 0 ==> r.v + 0x1_0000 * Ord(r.cy) == a + b
    ensures b < 0 ==> !r.cy && r.v == (if a + b < 0 then a + b + 0x1_0000 else a + b)
    ensures b < 0 ==> (r.h <==> a % 0x1000 + (b + 0x1000) >= 0x1000)
  {
    var r32 := a + b;
    var r12 := a % 0x1000 + b % 0x1000;
    Out16(r32 % 0x1_0000, r12 / 0x1000 == 1, r32 / 0x1_0000 == 1)
  }

  // ---------------------------------------------------------------------
  // Rotates and shifts.  `a << 1` of a `u8` keeps the low eight bits of 2a.

  function Rlc(a: u8): (r: Shifted)
    ensures r.v == (2 * a) % 0x100 + a / 0x80 && (r.out <==> a >= 0x80)
  {
    var b7 := a / 0x80;
    OrDisjoint(b7, (a * 2) % 0x100, a % 0x80, 1);
    Shifted(Or((a * 2) % 0x100, b7), b7 == 1)
  }

  function Rl(a: u8, cy: bool): (r: Shifted)
    ensures r.v == (2 * a) % 0x100 + Ord(cy) && (r.out <==> a >= 0x80)
  {
    var b7 := a / 0x80;
    OrDisjoint(Ord(cy), (a * 2) % 0x100, a % 0x80, 1);
    Shifted(Or((a * 2) % 0x100, Ord(cy)), b7 == 1)
  }

  function Rrc(a: u8): (r: Shifted)
    ensures r.v == a / 2 + (a % 2) * 0x80 && (r.out <==> a % 2 == 1)
  {
    var b0 := a % 2;
    OrDisjoint(a / 2, b0 * 0x80, b0, 7);
    Shifted(Or(a / 2, b0 * 0x80), b0 == 1)
  }

  function Rr(a: u8, cy: bool): (r: Shifted)
    ensures r.v == a / 2 + Ord(cy) * 0x80 && (r.out <==> a % 2 == 1)
  {
    var b0 := a % 2;
    OrDisjoint(a / 2, Ord(cy) * 0x80, Ord(cy), 7);
    Shifted(Or(a / 2, Ord(cy) * 0x80), b0 == 1)
  }

  function Sla(a: u8): (r: Shifted)
    ensures r.v + 0x100 * Ord(r.out) == 2 * a
  {
    Shifted((a * 2) % 0x100, a / 0x80 == 1)
  }

  function Sra(a: u8): (r: Shifted)
    ensures r.v == a / 2 + (if a >= 0x80 then 0x80 else 0) && (r.out <==> a % 2 == 1)
  {
    var b0 := a % 2;
    var b7 := a / 0x80;
    SmallPow2(7);
    assert b7 == if a >= 0x80 then 1 else 0;
    OrDisjoint(a / 2, b7 * 0x80, b7, 7);
    Shifted(Or(a / 2, b7 * 0x80), b0 == 1)
  }

  function Srl(a: u8): (r: Shifted)
    ensures 2 * r.v + Ord(r.out) == a
  {
    Shifted(a / 2, a % 2 == 1)
  }

  /** SWAP: `(a << 4) | (a >> 4)`, the two nibbles exchanged. */
  function Swap(a: u8): (r: u8)
    ensures r == (a % 0x10) * 0x10 + a / 0x10
  {
    OrDisjoint(a / 0x10, (a * 0x10) % 0x100, a % 0x10, 4);
    Or((a * 0x10) % 0x100, a / 0x10)
  }

  // ---------------------------------------------------------------------
  // Single bits

  /** The Z flag BIT writes: `(!((a >> k) & 1) & 1) == 1`, set exactly when bit k is clear. */
  function TestBit(a: u8, k: nat): (z: bool)
    ensures z <==> Bit(a, k) == 0
  {
    DivAtMost(a, Pow2(k));
    BitShr(a, k, 0);
    var q: nat := a / Pow2(k);
    AndBound(q, 1);
    AndOne(q);
    assert Bit(q, 0) == q % 2;
    AndOne(0xFF - Bit(a, k));
    And(0xFF - And(q, 1), 1) == 1
  }

  /** SET: `a | (1 << k)`. */
  function SetBit(a: u8, k: nat): (r: u8)
    requires k < 8
    ensures forall i: nat :: Bit(r, i) == if i == k then 1 else Bit(a, i)
  {
    forall i: nat ensures Bit(Or(a, Pow2(k)), i) == if i == k then 1 else Bit(a, i) {
      SetBitBits(a, k, i);
    }
    SmallPow2(k);
    assert Pow2(8) == 0x100;
    OrBound(a, Pow2(k), 8);
    Or(a, Pow2(k))
  }

  /** RES: `a & (0xFF ^ (1 << k))`. */
  function ResBit(a: u8, k: nat): (r: u8)
    requires k < 8
    ensures forall i: nat :: Bit(r, i) == if i == k then 0 else Bit(a, i)
  {
    forall i: nat ensures Bit(And(a, Xor(0xFF, Pow2(k))), i) == if i == k then 0 else Bit(a, i) {
      ResMaskBits(a, k, i);
    }
    AndBound(a, Xor(0xFF, Pow2(k)));
    And(a, Xor(0xFF, Pow2(k)))
  }

  // ---------------------------------------------------------------------
  // Properties

  /** Subtracting what was added gives the byte back, and the borrow of the subtraction is the carry of the addition. */
  lemma AddThenSub(a: u8, b: u8, carry: bool)
    ensures Sub8(Add8(a, b, carry).v, b, carry).v == a
    ensures Sub8(Add8(a, b, carry).v, b, carry).flags.cy == Add8(a, b, carry).flags.cy
    ensures Sub8(Add8(a, b, carry).v, b, carry).flags.h == Add8(a, b, carry).flags.h
  {
    var c := Ord(carry);
    var s := a + b + c;
    var low := a % 0x10 + b % 0x10 + c;
    var j := if low >= 0x10 then 1 else 0;
    var k := if s >= 0x100 then 1 else 0;
    DivUnique(s, 0x100, k, s - 0x100 * k);
    DivUnique(low, 0x10, j, low - 0x10 * j);
    var r := Add8(a, b, carry).v;
    assert r == s - 0x100 * k;
    DivUnique(a, 0x10, a / 0x10, a % 0x10);
    DivUnique(b, 0x10, b / 0x10, b % 0x10);
    DivUnique(r, 0x10, a / 0x10 + b / 0x10 + j - 0x10 * k, low - 0x10 * j);
    DivUnique(r - b - c, 0x100, -k, a);
  }

  /** Adding back what was subtracted gives the byte back, and the carry of the addition is the borrow of the subtraction. */
  lemma SubThenAdd(a: u8, b: u8, carry: bool)
    ensures Add8(Sub8(a, b, carry).v, b, carry).v == a
    ensures Add8(Sub8(a, b, carry).v, b, carry).flags.cy == Sub8(a, b, carry).flags.cy
    ensures Add8(Sub8(a, b, carry).v, b, carry).flags.h == Sub8(a, b, carry).flags.h
  {
    var c := Ord(carry);
    var d := a - b - c;
    var low := a % 0x10 - b % 0x10 - c;
    var j := if low < 0 then 1 else 0;
    var k := if d < 0 then 1 else 0;
    DivUnique(d, 0x100, -k, d + 0x100 * k);
    var r := Sub8(a, b, carry).v;
    assert r == d + 0x100 * k;
    DivUnique(a, 0x10, a / 0x10, a % 0x10);
    DivUnique(b, 0x10, b / 0x10, b % 0x10);
    DivUnique(r, 0x10, a / 0x10 - b / 0x10 - j + 0x10 * k, low + 0x10 * j);
    DivUnique(r + b + c, 0x100, k, a);
    DivUnique(low + 0x10 * j + b % 0x10 + c, 0x10, j, a % 0x10);
  }

  /** Z is set exactly for a zero result, and N tells additions from subtractions. */
  lemma ArithmeticFlags(a: u8, b: u8, carry: bool)
    ensures Add8(a, b, carry).flags.z <==> (a + b + Ord(carry)) % 0x100 == 0
    ensures Sub8(a, b, carry).flags.z <==> a == (b + Ord(carry)) % 0x100
    ensures !Add8(a, b, carry).flags.n && Sub8(a, b, carry).flags.n
    ensures Add8(a, b, carry).flags.cy <==> a + b + Ord(carry) > 0xFF
    ensures Sub8(a, b, carry).flags.cy <==> b + Ord(carry) > a
  {
    AddFlags(a, b, carry);
    SubFlags(a, b, carry);
  }

  lemma AddFlags(a: u8, b: u8, carry: bool)
    ensures Add8(a, b, carry).flags.z <==> (a + b + Ord(carry)) % 0x100 == 0
    ensures Add8(a, b, carry).flags.cy <==> a + b + Ord(carry) > 0xFF
  {
    var s := a + b + Ord(carry);
    DivUnique(s, 0x100, if s > 0xFF then 1 else 0, if s > 0xFF then s - 0x100 else s);
  }

  lemma SubFlags(a: u8, b: u8, carry: bool)
    ensures Sub8(a, b, carry).flags.z <==> a == (b + Ord(carry)) % 0x100
    ensures Sub8(a, b, carry).flags.cy <==> b + Ord(carry) > a
  {
    var c := b + Ord(carry);
    var d := a - c;
    DivUnique(d, 0x100, if d < 0 then -1 else 0, if d < 0 then d + 0x100 else d);
    DivUnique(c, 0x100, if c > 0xFF then 1 else 0, if c > 0xFF then 0 else c);
  }

  /** INC8 and DEC8 compute the ADD8 and SUB8 of 1 but keep the carry flag they are given. */
  lemma IncDecAreAddSubOfOne(a: u8, cy: bool)
    ensures Inc8(a, cy) == Out8(Add8(a, 1, false).v, Add8(a, 1, false).flags.(cy := cy))
    ensures Dec8(a, cy) == Out8(Sub8(a, 1, false).v, Sub8(a, 1, false).flags.(cy := cy))
  {
  }

  /** DEC8 undoes INC8 and INC8 undoes DEC8, wrapping at 0xFF and 0x00. */
  lemma IncDecInverse(a: u8, cy: bool)
    ensures Dec8(Inc8(a, cy).v, cy).v == a && Inc8(Dec8(a, cy).v, cy).v == a
    ensures Inc8(0xFF, cy).v == 0 && Inc8(0xFF, cy).flags.z && Dec8(0, cy).v == 0xFF
  {
  }

  /** A negative offset never sets the carry; a non-negative one is the unsigned ADD16. */
  lemma SignedAddAgrees(a: u16, b: i8)
    ensures b >= 0 ==> AddSigned16(a, b) == Add16(a, b)
    ensures b < 0 ==> !AddSigned16(a, b).cy
    ensures AddSigned16(a, b).v == (a + b) % 0x1_0000
  {
  }

  /** The 16-bit sum wraps and reports the carry out of bit 15 and of bit 11. */
  lemma Add16Flags(a: u16, b: u16)
    ensures Add16(a, b).v == (a + b) % 0x1_0000
    ensures Add16(a, b).cy <==> a + b > 0xFFFF
    ensures Add16(a, b).h <==> a % 0x1000 + b % 0x1000 > 0xFFF
  {
  }

  /** RLC and RRC rotate by one bit, and each undoes the other. */
  lemma RotateInverse(a: u8)
    ensures Rrc(Rlc(a).v).v == a && Rlc(Rrc(a).v).v == a
  {
    var v: int := Rlc(a).v;
    if a >= 0x80 {
      DivUnique(2 * a, 0x100, 1, 2 * (a - 0x80));
      DivUnique(v, 2, a - 0x80, 1);
    } else {
      DivUnique(2 * a, 0x100, 0, 2 * a);
      DivUnique(v, 2, a, 0);
    }
    var w: int := Rrc(a).v;
    DivUnique(a, 2, a / 2, a % 2);
    DivUnique(2 * w, 0x100, a % 2, 2 * (a / 2));
    DivUnique(w, 0x80, a % 2, a / 2);
  }

  /** RL and RR rotate the nine bits of the byte and the carry; each undoes the other. */
  lemma RotateThroughCarryInverse(a: u8, cy: bool)
    ensures Rr(Rl(a, cy).v, Rl(a, cy).out) == Shifted(a, cy)
    ensures Rl(Rr(a, cy).v, Rr(a, cy).out) == Shifted(a, cy)
  {
    var c := Ord(cy);
    DivUnique(a, 0x80, a / 0x80, a % 0x80);
    DivUnique(2 * a, 0x100, a / 0x80, 2 * (a % 0x80));
    DivUnique(2 * (a % 0x80) + c, 2, a % 0x80, c);
    var w: int := Rr(a, cy).v;
    DivUnique(a, 2, a / 2, a % 2);
    DivUnique(2 * w, 0x100, c, 2 * (a / 2));
    DivUnique(w, 0x80, c, a / 2);
  }

  /** SLA doubles, SRL halves, SRA halves keeping bit 7; the bit shifted out is the carry. */
  lemma ShiftMeaning(a: u8)
    ensures Sla(a) == Shifted((2 * a) % 0x100, a >= 0x80)
    ensures Srl(a) == Shifted(a / 2, a % 2 == 1)
    ensures Sra(a).v == a / 2 + (if a >= 0x80 then 0x80 else 0) && (Sra(a).out <==> a % 2 == 1)
    ensures Srl(Sla(a).v).v == a % 0x80 && Sla(Srl(a).v).v == a - a % 2
  {
  }

  /** SWAP exchanges the nibbles, so applying it twice gives the byte back. */
  lemma SwapNibbles(a: u8)
    ensures Swap(a) == (a % 0x10) * 0x10 + a / 0x10
    ensures Swap(Swap(a)) == a
  {
    var w := Swap(a);
    DivUnique(w, 0x10, a % 0x10, a / 0x10);
  }

  /** `a & (0xFF ^ (1 << k))` clears bit k of a byte and keeps the others. */
  lemma ResMaskBits(a: u8, k: nat, i: nat)
    requires k < 8
    ensures Bit(And(a, Xor(0xFF, Pow2(k))), i) == if i == k then 0 else Bit(a, i)
  {
    var mask := Xor(0xFF, Pow2(k));
    ByteBitsAbove(0xFF, i);
    BitXor(0xFF, Pow2(k), i);
    BitPow2(k, i);
    assert Bit(mask, i) == if i < 8 && i != k then 1 else 0;
    BitAnd(a, mask, i);
    ByteBitsAbove(a, i);
  }

  /** A byte has no bits from bit 8 up, and 0xFF has all eight below. */
  lemma ByteBitsAbove(a: u8, i: nat)
    ensures i >= 8 ==> Bit(a, i) == 0
    ensures a == 0xFF && i < 8 ==> Bit(a, i) == 1
  {
    assert Pow2(8) == 0x100;
    if i >= 8 {
      BitAbove(a, 8, i);
    }
    BitOnes(8, i);
  }

  /** After SET the bit tests as set, after RES as clear; RES undoes SET and SET undoes RES on bit k. */
  lemma SetResRoundTrip(a: u8, k: nat)
    requires k < 8
    ensures !TestBit(SetBit(a, k), k) && TestBit(ResBit(a, k), k)
    ensures ResBit(SetBit(a, k), k) == ResBit(a, k)
    ensures SetBit(ResBit(a, k), k) == SetBit(a, k)
  {
    assert Pow2(8) == 0x100;
    BitsDetermine(ResBit(SetBit(a, k), k), ResBit(a, k), 8);
    BitsDetermine(SetBit(ResBit(a, k), k), SetBit(a, k), 8);
  }
}
