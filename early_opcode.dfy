/**
 * The decoder of the first generation of the engine (src/opcode.rs): the
 * loads, the stack instructions, NOP and HALT.  Its 16-bit immediates are
 * big-endian, `bytes[1]` being the high byte, unlike the later decoder.
 */
module EarlyOpcode {
  import opened Bits
  import opened Wrappers
  import opened Registers

  /** Where an 8- or 16-bit load writes. */
  datatype Dst = Reg(r: Register) | Deref(r: Register) | A8(a8: u8) | A16(a16: u16)

  /** Where a load reads. */
  datatype Src = Reg(r: Register) | Deref(r: Register) | A8(a8: u8) | A16(a16: u16) | D8(d8: u8) | D16(d16: u16)

  datatype Opcode =
    | NOP
    | LD8(dst: Dst, src: Src)
    | LD8I(dst: Dst, src: Src)
    | LD8D(dst: Dst, src: Src)
    | LD16(dst: Dst, src: Src)
    | PUSH(reg: Register)
    | POP(reg: Register)
    | HALT

  datatype Instr = Instr(opcode: Opcode, cycles: nat, nBytes: nat)

  /**
   * `disassemble`: the opcode byte, the byte after it and the big-endian
   * 16-bit immediate `bytes[1] << 8 | bytes[2]`; `None` for a byte the table
   * does not list, where the source panics.
   */
  function Disassemble(bytes: seq<u8>): (i: Option<Instr>)
    requires |bytes| >= 3
  {
    var b0, b1 := bytes[0], bytes[1];
    var b12 := Combine(bytes[1], bytes[2]);
    if b0 < 0x40 then Table00(b0, b1, b12)
    else if b0 < 0x80 then Table40(b0, b1, b12)
    else Table80(b0, b1, b12)
  }

  function Table00(b0: u8, b1: u8, b12: u16): Option<Instr>
    requires 0x00 <= b0 < 0x40
  {
    match b0
    case 0x00 => Some(Instr(NOP, 1, 1))
    case 0x01 => Some(Instr(LD16(Dst.Reg(BC), Src.D16(b12)), 3, 3))
    case 0x02 => Some(Instr(LD8(Dst.Deref(BC), Src.Reg(A)), 2, 1))
    case 0x06 => Some(Instr(LD8(Dst.Reg(B), Src.D8(b1)), 2, 2))
    case 0x08 => Some(Instr(LD16(Dst.A16(b12), Src.Reg(SP)), 5, 3))
    case 0x0A => Some(Instr(LD8(Dst.Reg(A), Src.Deref(BC)), 2, 1))
    case 0x0E => Some(Instr(LD8(Dst.Reg(C), Src.D8(b1)), 2, 2))
    case 0x11 => Some(Instr(LD16(Dst.Reg(DE), Src.D16(b12)), 3, 3))
    case 0x12 => Some(Instr(LD8(Dst.Deref(DE), Src.Reg(A)), 2, 1))
    case 0x16 => Some(Instr(LD8(Dst.Reg(D), Src.D8(b1)), 2, 2))
    case 0x1A => Some(Instr(LD8(Dst.Reg(A), Src.Deref(DE)), 2, 1))
    case 0x1E => Some(Instr(LD8(Dst.Reg(E), Src.D8(b1)), 2, 2))
    case 0x21 => Some(Instr(LD16(Dst.Reg(HL), Src.D16(b12)), 3, 3))
    case 0x22 => Some(Instr(LD8I(Dst.Deref(HL), Src.Reg(A)), 2, 1))
    case 0x26 => Some(Instr(LD8(Dst.Reg(H), Src.D8(b1)), 2, 2))
    case 0x2A => Some(Instr(LD8I(Dst.Reg(A), Src.Deref(HL)), 2, 1))
    case 0x2E => Some(Instr(LD8(Dst.Reg(L), Src.D8(b1)), 2, 2))
    case 0x31 => Some(Instr(LD16(Dst.Reg(SP), Src.D16(b12)), 3, 3))
    case 0x32 => Some(Instr(LD8D(Dst.Deref(HL), Src.Reg(A)), 2, 1))
    case 0x36 => Some(Instr(LD8(Dst.Deref(HL), Src.D8(b1)), 2, 2))
    case 0x3A => Some(Instr(LD8D(Dst.Reg(A), Src.Deref(HL)), 2, 1))
    case 0x3E => Some(Instr(LD8(Dst.Reg(A), Src.D8(b1)), 2, 2))
    case _ => None
  }

  function Table40(b0: u8, b1: u8, b12: u16): Option<Instr>
    requires 0x40 <= b0 < 0x80
  {
    match b0
    case 0x40 => Some(Instr(LD8(Dst.Reg(B), Src.Reg(B)), 1, 1))
    case 0x41 => Some(Instr(LD8(Dst.Reg(B), Src.Reg(C)), 1, 1))
    case 0x42 => Some(Instr(LD8(Dst.Reg(B), Src.Reg(D)), 1, 1))
    case 0x43 => Some(Instr(LD8(Dst.Reg(B), Src.Reg(E)), 1, 1))
    case 0x44 => Some(Instr(LD8(Dst.Reg(B), Src.Reg(H)), 1, 1))
    case 0x45 => Some(Instr(LD8(Dst.Reg(B), Src.Reg(L)), 1, 1))
    case 0x46 => Some(Instr(LD8(Dst.Reg(B), Src.Deref(HL)), 2, 1))
    case 0x47 => Some(Instr(LD8(Dst.Reg(B), Src.Reg(A)), 1, 1))
    case 0x48 => Some(Instr(LD8(Dst.Reg(C), Src.Reg(B)), 1, 1))
    case 0x49 => Some(Instr(LD8(Dst.Reg(C), Src.Reg(C)), 1, 1))
    case 0x4A => Some(Instr(LD8(Dst.Reg(C), Src.Reg(D)), 1, 1))
    case 0x4B => Some(Instr(LD8(Dst.Reg(C), Src.Reg(E)), 1, 1))
    case 0x4C => Some(Instr(LD8(Dst.Reg(C), Src.Reg(H)), 1, 1))
    case 0x4D => Some(Instr(LD8(Dst.Reg(C), Src.Reg(L)), 1, 1))
    case 0x4E => Some(Instr(LD8(Dst.Reg(C), Src.Deref(HL)), 2, 1))
    case 0x4F => Some(Instr(LD8(Dst.Reg(C), Src.Reg(A)), 1, 1))
    case 0x50 => Some(Instr(LD8(Dst.Reg(D), Src.Reg(B)), 1, 1))
    case 0x51 => Some(Instr(LD8(Dst.Reg(D), Src.Reg(C)), 1, 1))
    case 0x52 => Some(Instr(LD8(Dst.Reg(D), Src.Reg(D)), 1, 1))
    case 0x53 => Some(Instr(LD8(Dst.Reg(D), Src.Reg(E)), 1, 1))
    case 0x54 => Some(Instr(LD8(Dst.Reg(D), Src.Reg(H)), 1, 1))
    case 0x55 => Some(Instr(LD8(Dst.Reg(D), Src.Reg(L)), 1, 1))
    case 0x56 => Some(Instr(LD8(Dst.Reg(D), Src.Deref(HL)), 2, 1))
    case 0x57 => Some(Instr(LD8(Dst.Reg(D), Src.Reg(A)), 1, 1))
    case 0x58 => Some(Instr(LD8(Dst.Reg(E), Src.Reg(B)), 1, 1))
    case 0x59 => Some(Instr(LD8(Dst.Reg(E), Src.Reg(C)), 1, 1))
    case 0x5A => Some(Instr(LD8(Dst.Reg(E), Src.Reg(D)), 1, 1))
    case 0x5B => Some(Instr(LD8(Dst.Reg(E), Src.Reg(E)), 1, 1))
    case 0x5C => Some(Instr(LD8(Dst.Reg(E), Src.Reg(H)), 1, 1))
    case 0x5D => Some(Instr(LD8(Dst.Reg(E), Src.Reg(L)), 1, 1))
    case 0x5E => Some(Instr(LD8(Dst.Reg(E), Src.Deref(HL)), 2, 1))
    case 0x5F => Some(Instr(LD8(Dst.Reg(E), Src.Reg(A)), 1, 1))
    case 0x60 => Some(Instr(LD8(Dst.Reg(H), Src.Reg(B)), 1, 1))
    case 0x61 => Some(Instr(LD8(Dst.Reg(H), Src.Reg(C)), 1, 1))
    case 0x62 => Some(Instr(LD8(Dst.Reg(H), Src.Reg(D)), 1, 1))
    case 0x63 => Some(Instr(LD8(Dst.Reg(H), Src.Reg(E)), 1, 1))
    case 0x64 => Some(Instr(LD8(Dst.Reg(H), Src.Reg(H)), 1, 1))
    case 0x65 => Some(Instr(LD8(Dst.Reg(H), Src.Reg(L)), 1, 1))
    case 0x66 => Some(Instr(LD8(Dst.Reg(H), Src.Deref(HL)), 2, 1))
    case 0x67 => Some(Instr(LD8(Dst.Reg(H), Src.Reg(A)), 1, 1))
    case 0x68 => Some(Instr(LD8(Dst.Reg(L), Src.Reg(B)), 1, 1))
    case 0x69 => Some(Instr(LD8(Dst.Reg(L), Src.Reg(C)), 1, 1))
    case 0x6A => Some(Instr(LD8(Dst.Reg(L), Src.Reg(D)), 1, 1))
    case 0x6B => Some(Instr(LD8(Dst.Reg(L), Src.Reg(E)), 1, 1))
    case 0x6C => Some(Instr(LD8(Dst.Reg(L), Src.Reg(H)), 1, 1))
    case 0x6D => Some(Instr(LD8(Dst.Reg(L), Src.Reg(L)), 1, 1))
    case 0x6E => Some(Instr(LD8(Dst.Reg(L), Src.Deref(HL)), 2, 1))
    case 0x6F => Some(Instr(LD8(Dst.Reg(L), Src.Reg(A)), 1, 1))
    case 0x70 => Some(Instr(LD8(Dst.Deref(HL), Src.Reg(B)), 1, 1))
    case 0x71 => Some(Instr(LD8(Dst.Deref(HL), Src.Reg(C)), 1, 1))
    case 0x72 => Some(Instr(LD8(Dst.Deref(HL), Src.Reg(D)), 1, 1))
    case 0x73 => Some(Instr(LD8(Dst.Deref(HL), Src.Reg(E)), 1, 1))
    case 0x74 => Some(Instr(LD8(Dst.Deref(HL), Src.Reg(H)), 1, 1))
    case 0x75 => Some(Instr(LD8(Dst.Deref(HL), Src.Reg(L)), 1, 1))
    case 0x76 => Some(Instr(HALT, 1, 1))
    case 0x77 => Some(Instr(LD8(Dst.Deref(HL), Src.Reg(A)), 1, 1))
    case 0x78 => Some(Instr(LD8(Dst.Reg(A), Src.Reg(B)), 1, 1))
    case 0x79 => Some(Instr(LD8(Dst.Reg(A), Src.Reg(C)), 1, 1))
    case 0x7A => Some(Instr(LD8(Dst.Reg(A), Src.Reg(D)), 1, 1))
    case 0x7B => Some(Instr(LD8(Dst.Reg(A), Src.Reg(E)), 1, 1))
    case 0x7C => Some(Instr(LD8(Dst.Reg(A), Src.Reg(H)), 1, 1))
    case 0x7D => Some(Instr(LD8(Dst.Reg(A), Src.Reg(L)), 1, 1))
    case 0x7E => Some(Instr(LD8(Dst.Reg(A), Src.Deref(HL)), 2, 1))
    case 0x7F => Some(Instr(LD8(Dst.Reg(A), Src.Reg(A)), 1, 1))
    case _ => None
  }

  function Table80(b0: u8, b1: u8, b12: u16): Option<Instr>
    requires 0x80 <= b0 < 0x100
  {
    match b0
    case 0xC1 => Some(Instr(POP(BC), 4, 1))
    case 0xC5 => Some(Instr(PUSH(BC), 4, 1))
    case 0xD1 => Some(Instr(POP(DE), 4, 1))
    case 0xD5 => Some(Instr(PUSH(DE), 4, 1))
    case 0xE0 => Some(Instr(LD8(Dst.A8(b1), Src.Reg(A)), 3, 2))
    case 0xE1 => Some(Instr(POP(HL), 4, 1))
    case 0xE5 => Some(Instr(PUSH(HL), 4, 1))
    case 0xE2 => Some(Instr(LD8(Dst.Deref(C), Src.Reg(A)), 2, 1))
    case 0xEA => Some(Instr(LD8(Dst.A16(b12), Src.Reg(A)), 4, 3))
    case 0xF0 => Some(Instr(LD8(Dst.Reg(A), Src.A8(b1)), 3, 2))
    case 0xF1 => Some(Instr(POP(AF), 4, 1))
    case 0xF2 => Some(Instr(LD8(Dst.Reg(A), Src.Deref(C)), 2, 1))
    case 0xF5 => Some(Instr(PUSH(AF), 4, 1))
    case 0xF9 => Some(Instr(LD16(Dst.Reg(SP), Src.Reg(HL)), 2, 1))
    case 0xFA => Some(Instr(LD8(Dst.Reg(A), Src.A16(b12)), 4, 3))
    case _ => None
  }

  // ---------------------------------------------------------------------
  // What the decoder produces

  /** The operand order [B, C, D, E, H, L, (HL), A] of the 0x40-0x7F block, as a source. */
  function SrcOperand(i: nat): Src
    requires i < 8
  {
    match i
    case 0 => Src.Reg(B)
    case 1 => Src.Reg(C)
    case 2 => Src.Reg(D)
    case 3 => Src.Reg(E)
    case 4 => Src.Reg(H)
    case 5 => Src.Reg(L)
    case 6 => Src.Deref(HL)
    case 7 => Src.Reg(A)
  }

  /** The same order as a destination. */
  function DstOperand(i: nat): Dst
    requires i < 8
  {
    match i
    case 0 => Dst.Reg(B)
    case 1 => Dst.Reg(C)
    case 2 => Dst.Reg(D)
    case 3 => Dst.Reg(E)
    case 4 => Dst.Reg(H)
    case 5 => Dst.Reg(L)
    case 6 => Dst.Deref(HL)
    case 7 => Dst.Reg(A)
  }

  /** Every 16-bit immediate in `op` is `v`. */
  predicate WideImmediates(op: Opcode, v: u16)
  {
    match op
    case LD8(d, s) => (d.A16? ==> d.a16 == v) && (s.A16? ==> s.a16 == v) && (s.D16? ==> s.d16 == v)
    case LD16(d, s) => (d.A16? ==> d.a16 == v) && (s.A16? ==> s.a16 == v) && (s.D16? ==> s.d16 == v)
    case _ => true
  }

  /** Every 8-bit immediate in `op` is `b`. */
  predicate NarrowImmediates(op: Opcode, b: u8)
  {
    match op
    case LD8(d, s) => (d.A8? ==> d.a8 == b) && (s.A8? ==> s.a8 == b) && (s.D8? ==> s.d8 == b)
    case _ => true
  }

  /**
   * Operand kinds the processor can carry out: no 16-bit source or
   * register pair in an 8-bit load, a pair or SP in a 16-bit one, and PUSH
   * and POP only on the four pairs.
   */
  predicate WellFormed(op: Opcode)
  {
    match op
    case LD8(d, s) => !(d.Reg? && !d.r.Is8()) && !s.D16? && !(s.Reg? && !s.r.Is8())
                      && (d.Deref? ==> d.r == C || !d.r.Is8()) && (s.Deref? ==> s.r == C || !s.r.Is8())
    case LD8I(d, s) => (d.Reg? && d.r == A && s.Deref? && s.r == HL) || (d.Deref? && d.r == HL && s.Reg? && s.r == A)
    case LD8D(d, s) => (d.Reg? && d.r == A && s.Deref? && s.r == HL) || (d.Deref? && d.r == HL && s.Reg? && s.r == A)
    case LD16(d, s) => ((d.Reg? && !d.r.Is8() && d.r != PC) || d.A16?) && ((s.Reg? && !s.r.Is8()) || s.D16?)
    case PUSH(r) => r == BC || r == DE || r == HL || r == AF
    case POP(r) => r == BC || r == DE || r == HL || r == AF
    case _ => true
  }

  /** What holds of each entry of the table. */
  predicate TableFacts(bytes: seq<u8>)
    requires |bytes| >= 3
  {
    var b0 := bytes[0];
    var o := Disassemble(bytes);
    && (o.Some? ==>
          var i := o.value;
          && 1 <= i.nBytes <= 3 && 1 <= i.cycles <= 5
          && WellFormed(i.opcode)
          && WideImmediates(i.opcode, 0x100 * (bytes[1] as int) + bytes[2])
          && NarrowImmediates(i.opcode, bytes[1])
          && ((i.opcode.PUSH? || i.opcode.POP?) ==> i.cycles == 4 && i.nBytes == 1)
          && (i.opcode.LD16? && i.opcode.src.D16? ==> i.cycles == 3 && i.nBytes == 3))
    && (0x40 <= b0 < 0x80 ==>
          o == Some(if b0 == 0x76 then Instr(HALT, 1, 1)
                    else Instr(LD8(DstOperand((b0 / 8) % 8), SrcOperand(b0 % 8)), if b0 % 8 == 6 then 2 else 1, 1)))
  }

  lemma TableFacts00(bytes: seq<u8>)
    requires |bytes| >= 3 && bytes[0] < 0x40
    ensures TableFacts(bytes)
  {
  }

  lemma TableFacts40(bytes: seq<u8>)
    requires |bytes| >= 3 && 0x40 <= bytes[0] < 0x50
    ensures TableFacts(bytes)
  {
  }

  lemma TableFacts50(bytes: seq<u8>)
    requires |bytes| >= 3 && 0x50 <= bytes[0] < 0x60
    ensures TableFacts(bytes)
  {
  }

  lemma TableFacts60(bytes: seq<u8>)
    requires |bytes| >= 3 && 0x60 <= bytes[0] < 0x70
    ensures TableFacts(bytes)
  {
  }

  lemma TableFacts70(bytes: seq<u8>)
    requires |bytes| >= 3 && 0x70 <= bytes[0] < 0x80
    ensures TableFacts(bytes)
  {
  }

  lemma TableFacts80(bytes: seq<u8>)
    requires |bytes| >= 3 && 0x80 <= bytes[0]
    ensures TableFacts(bytes)
  {
  }

  lemma {:induction false} AllTableFacts(bytes: seq<u8>)
    requires |bytes| >= 3
    ensures TableFacts(bytes)
  {
    if bytes[0] < 0x40 {
      TableFacts00(bytes);
    } else if bytes[0] < 0x50 {
      TableFacts40(bytes);
    } else if bytes[0] < 0x60 {
      TableFacts50(bytes);
    } else if bytes[0] < 0x70 {
      TableFacts60(bytes);
    } else if bytes[0] < 0x80 {
      TableFacts70(bytes);
    } else {
      TableFacts80(bytes);
    }
  }
}
