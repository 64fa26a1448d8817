/**
 * The Sharp LR35902 register file (src/cpu/registers.rs): eight 8-bit
 * registers, the 16-bit stack pointer and program counter, the four 16-bit
 * pair views AF, BC, DE, HL, and the flag byte F.
 */
module Registers {
  import opened Bits

  datatype Register = A | B | C | D | E | F | H | L | AF | BC | DE | HL | SP | PC
  {
    /** The names `get8`/`set8` accept; `get16`/`set16` accept the others. */
    predicate Is8()
    {
      match this
      case A | B | C | D | E | F | H | L => true
      case _ => false
    }
  }

  /** `combine`: a register pair as one 16-bit value, high byte first. */
  function Combine(hi: u8, lo: u8): (v: u16)
    ensures v / 0x100 == hi && v % 0x100 == lo
  {
    hi * 0x100 + lo
  }

  /** The F byte written by `set_flags`: Z, N, H, C in bits 7, 6, 5, 4. */
  function FlagsByte(z: bool, n: bool, h: bool, cy: bool): (f: u8)
    ensures f % 16 == 0
  {
    (if z then 0x80 else 0) + (if n then 0x40 else 0) + (if h then 0x20 else 0) + (if cy then 0x10 else 0)
  }

  /** The value of the whole register file. */
  datatype RegFile = RegFile(a: u8, b: u8, c: u8, d: u8, e: u8, f: u8, h: u8, l: u8, sp: u16, pc: u16)
  {
    function Get8(r: Register): u8
      requires r.Is8()
    {
      match r
      case A => a
      case B => b
      case C => c
      case D => d
      case E => e
      case F => f
      case H => h
      case L => l
    }

    function Get16(r: Register): u16
      requires !r.Is8()
    {
      match r
      case AF => Combine(a, f)
      case BC => Combine(b, c)
      case DE => Combine(d, e)
      case HL => Combine(h, l)
      case SP => sp
      case PC => pc
    }

    function Set8(r: Register, v: u8): RegFile
      requires r.Is8()
    {
      match r
      case A => this.(a := v)
      case B => this.(b := v)
      case C => this.(c := v)
      case D => this.(d := v)
      case E => this.(e := v)
      case F => this.(f := v)
      case H => this.(h := v)
      case L => this.(l := v)
    }

    /** `set16`: a pair is split into `v >> 8` for its high and `v & 0xFF` for its low register. */
    function Set16(r: Register, v: u16): RegFile
      requires !r.Is8()
    {
      match r
      case AF => this.Set8(A, v / 0x100).Set8(F, v % 0x100)
      case BC => this.Set8(B, v / 0x100).Set8(C, v % 0x100)
      case DE => this.Set8(D, v / 0x100).Set8(E, v % 0x100)
      case HL => this.Set8(H, v / 0x100).Set8(L, v % 0x100)
      case SP => this.(sp := v)
      case PC => this.(pc := v)
    }

    function SetFlags(z: bool, n: bool, hc: bool, cy: bool): RegFile
    {
      this.(f := FlagsByte(z, n, hc, cy))
    }

    /** `inc_pc`, with the u16 addition wrapping around. */
    function IncPc(n: u16): RegFile
    {
      this.(pc := Wrap16(pc + n))
    }

    predicate ZFlag() { (f / 0x80) % 2 == 1 }
    predicate NFlag() { (f / 0x40) % 2 == 1 }
    predicate HFlag() { (f / 0x20) % 2 == 1 }
    predicate CyFlag() { (f / 0x10) % 2 == 1 }
  }

  const Zero := RegFile(0, 0, 0, 0, 0, 0, 0, 0, 0, 0)

  // ---------------------------------------------------------------------
  // Properties of the register file

  /** `set16` then `get16` returns the value written, for every 16-bit name. */
  lemma Set16Get16(rf: RegFile, r: Register, v: u16)
    requires !r.Is8()
    ensures rf.Set16(r, v).Get16(r) == v
  {
  }

  /** `set16` on a pair writes the high byte to the first and the low byte to the second register. */
  lemma Set16Halves(rf: RegFile, v: u16)
    ensures rf.Set16(AF, v).a == v / 0x100 && rf.Set16(AF, v).f == v % 0x100
    ensures rf.Set16(BC, v).b == v / 0x100 && rf.Set16(BC, v).c == v % 0x100
    ensures rf.Set16(DE, v).d == v / 0x100 && rf.Set16(DE, v).e == v % 0x100
    ensures rf.Set16(HL, v).h == v / 0x100 && rf.Set16(HL, v).l == v % 0x100
  {
  }

  /** `set8(r, v)` changes register r only; SP and PC are untouched. */
  lemma Set8Only(rf: RegFile, r: Register, v: u8, s: Register)
    requires r.Is8() && s.Is8()
    ensures rf.Set8(r, v).Get8(s) == if s == r then v else rf.Get8(s)
    ensures rf.Set8(r, v).sp == rf.sp && rf.Set8(r, v).pc == rf.pc
  {
  }

  /** `set16(SP|PC)` changes only that field. */
  lemma Set16PointerOnly(rf: RegFile, r: Register, v: u16, s: Register)
    requires r == SP || r == PC
    requires s.Is8()
    ensures rf.Set16(r, v).Get8(s) == rf.Get8(s)
    ensures r == SP ==> rf.Set16(r, v).pc == rf.pc
    ensures r == PC ==> rf.Set16(r, v).sp == rf.sp
  {
  }

  /** The flag readers read back what `set_flags` wrote. */
  lemma FlagsRoundTrip(rf: RegFile, z: bool, n: bool, hc: bool, cy: bool)
    ensures rf.SetFlags(z, n, hc, cy).ZFlag() == z
    ensures rf.SetFlags(z, n, hc, cy).NFlag() == n
    ensures rf.SetFlags(z, n, hc, cy).HFlag() == hc
    ensures rf.SetFlags(z, n, hc, cy).CyFlag() == cy
  {
  }

  /** The flag readers see bits 7, 6, 5, 4 of F. */
  lemma FlagBits(rf: RegFile)
    ensures rf.ZFlag() <==> Bit(rf.f, 7) == 1
    ensures rf.NFlag() <==> Bit(rf.f, 6) == 1
    ensures rf.HFlag() <==> Bit(rf.f, 5) == 1
    ensures rf.CyFlag() <==> Bit(rf.f, 4) == 1
  {
    assert Pow2(4) == 0x10 && Pow2(5) == 0x20 && Pow2(6) == 0x40 && Pow2(7) == 0x80;
    BitShr(rf.f, 7, 0);
    BitShr(rf.f, 6, 0);
    BitShr(rf.f, 5, 0);
    BitShr(rf.f, 4, 0);
  }

  /** `inc_pc(n)` moves PC forward by n modulo 2^16 and changes nothing else. */
  lemma IncPcOnly(rf: RegFile, n: u16)
    ensures rf.IncPc(n).pc == (rf.pc + n) % 0x1_0000
    ensures rf.IncPc(n) == rf.(pc := rf.IncPc(n).pc)
  {
  }

  // ---------------------------------------------------------------------
  // The register file as the CPU holds it

  class Registers {
    var a: u8
    var b: u8
    var c: u8
    var d: u8
    var e: u8
    var f: u8
    var h: u8
    var l: u8
    var sp: u16
    var pc: u16

    function Model(): RegFile
      reads this
    {
      RegFile(a, b, c, d, e, f, h, l, sp, pc)
    }

    /** `new`: every register starts at 0. */
    constructor ()
      ensures Model() == Zero
    {
      a, b, c, d, e, f, h, l := 0, 0, 0, 0, 0, 0, 0, 0;
      sp, pc := 0, 0;
    }

    function Get8(r: Register): (v: u8)
      requires r.Is8()
      reads this
      ensures v == Model().Get8(r)
    {
      match r
      case A => a
      case B => b
      case C => c
      case D => d
      case E => e
      case F => f
      case H => h
      case L => l
    }

    function Get16(r: Register): (v: u16)
      requires !r.Is8()
      reads this
      ensures v == Model().Get16(r)
    {
      match r
      case AF => Combine(a, f)
      case BC => Combine(b, c)
      case DE => Combine(d, e)
      case HL => Combine(h, l)
      case SP => sp
      case PC => pc
    }

    function Pc(): (v: u16)
      reads this
      ensures v == Model().pc
    {
      pc
    }

    method Set8(r: Register, v: u8)
      requires r.Is8()
      modifies this
      ensures Model() == old(Model()).Set8(r, v)
    {
      match r
      case A => a := v;
      case B => b := v;
      case C => c := v;
      case D => d := v;
      case E => e := v;
      case F => f := v;
      case H => h := v;
      case L => l := v;
    }

    method Set16(r: Register, v: u16)
      requires !r.Is8()
      modifies this
      ensures Model() == old(Model()).Set16(r, v)
    {
      match r
      case AF => Split(A, F, v);
      case BC => Split(B, C, v);
      case DE => Split(D, E, v);
      case HL => Split(H, L, v);
      case SP => sp := v;
      case PC => pc := v;
    }

    /** `split`: the high byte goes to `rh`, the low byte to `rl`. */
    method Split(rh: Register, rl: Register, v: u16)
      requires rh.Is8() && rl.Is8()
      modifies this
      ensures Model() == old(Model()).Set8(rh, v / 0x100).Set8(rl, v % 0x100)
    {
      Set8(rh, v / 0x100);
      Set8(rl, v % 0x100);
    }

    method IncPc(n: u16)
      modifies this
      ensures Model() == old(Model()).IncPc(n)
    {
      pc := Wrap16(pc + n);
    }

    method SetFlags(z: bool, n: bool, hc: bool, cy: bool)
      modifies this
      ensures Model() == old(Model()).SetFlags(z, n, hc, cy)
    {
      f := FlagsByte(z, n, hc, cy);
    }

    predicate ZFlag() reads this { Model().ZFlag() }
    predicate NFlag() reads this { Model().NFlag() }
    predicate HFlag() reads this { Model().HFlag() }
    predicate CyFlag() reads this { Model().CyFlag() }
  }
}
