/**
 * The instruction decoder (src/cpu/instr.rs): a total function from the
 * three bytes at PC to an opcode, its cost in machine cycles and its length
 * in bytes, covering the unprefixed table and the table behind the 0xCB
 * prefix.
 */
module Instr {
  import opened Bits
  import opened Registers

  /** An operand: a register, memory through a register, or an immediate. */
  datatype Src =
    | Reg(r: Register)
    | Deref(r: Register)
    | A8(a8: u8)
    | A16(a16: u16)
    | D8(d8: u8)
    | D16(d16: u16)
    | I8(i8: i8)

  /** Branch conditions on the Z and C flags. */
  datatype FlagCondition = IfZ | IfNZ | IfC | IfNC | Always

  datatype Opcode =
    | NOP
    | LD8(dst: Src, src: Src)
    | LD8I(dst: Src, src: Src)
    | LD8D(dst: Src, src: Src)
    | LD16(dst: Src, src: Src)
    | PUSH(reg: Register)
    | POP(reg: Register)
    | ADD8(operand: Src)
    | ADC8(operand: Src)
    | SUB8(operand: Src)
    | SBC8(operand: Src)
    | AND(operand: Src)
    | OR(operand: Src)
    | XOR(operand: Src)
    | CP(operand: Src)
    | INC8(operand: Src)
    | DEC8(operand: Src)
    | ADD16(reg: Register, operand: Src)
    | INC16(reg: Register)
    | DEC16(reg: Register)
    | RLCA
    | RLA
    | RRCA
    | RRA
    | RLC(operand: Src)
    | RL(operand: Src)
    | RRC(operand: Src)
    | RR(operand: Src)
    | SLA(operand: Src)
    | SRA(operand: Src)
    | SRL(operand: Src)
    | SWAP(operand: Src)
    | BIT(bit: BitIndex, operand: Src)
    | SET(bit: BitIndex, operand: Src)
    | RES(bit: BitIndex, operand: Src)
    | JP(cond: FlagCondition, target: Src)
    | JR(cond: FlagCondition, offset: i8)
    | CALL(cond: FlagCondition, addr: u16)
    | RET(cond: FlagCondition)
    | RETI
    | RST(vector: u8)
    | DAA
    | CPL
    | CCF
    | SCF
    | DI
    | EI
    | HALT
    | STOP
    | INVALID(byte: u8)

  /** The bit numbers 0..7 that BIT, SET and RES carry (`u8` in the source; the table holds no other). */
  type BitIndex = x: int | 0 <= x < 8

  datatype Instr = Instr(opcode: Opcode, cycles: nat, nBytes: nat)

  /** `b as i8`: the byte read as a two's-complement number. */
  function AsI8(b: u8): (v: i8)
    ensures (v - b) % 0x100 == 0
    ensures v < 0 <==> b >= 0x80
  {
    if b < 0x80 then b else b - 0x100
  }

  /**
   * `disassemble`: reads `bytes[0..3]`; a 16-bit immediate is little-endian,
   * `bytes[2]` being its high byte.
   */
  function Disassemble(bytes: seq<u8>): (i: Instr)
    requires |bytes| >= 3
    ensures 1 <= i.nBytes <= 3 && 1 <= i.cycles <= 6
  {
    PrimaryBounds(bytes[0], bytes[1], Combine(bytes[2], bytes[1]));
    Primary(bytes[0], bytes[1], Combine(bytes[2], bytes[1]))
  }

  /**
   * The unprefixed opcode table; `b1` is the byte after the opcode and `b21`
   * the 16-bit immediate.  The table is split into rows of 32 entries.
   */
  function Primary(b0: u8, b1: u8, b21: u16): Instr
  {
    if b0 < 0x20 then Primary00(b0, b1, b21)
    else if b0 < 0x40 then Primary20(b0, b1, b21)
    else if b0 < 0x60 then Primary40(b0, b1, b21)
    else if b0 < 0x80 then Primary60(b0, b1, b21)
    else if b0 < 0xA0 then Primary80(b0, b1, b21)
    else if b0 < 0xC0 then PrimaryA0(b0, b1, b21)
    else if b0 < 0xE0 then PrimaryC0(b0, b1, b21)
    else PrimaryE0(b0, b1, b21)
  }

  function Primary00(b0: u8, b1: u8, b21: u16): Instr
    requires 0x00 <= b0 < 0x20
  {
    match b0
    case 0x00 => Instr(NOP, 1, 1)
    case 0x01 => Instr(LD16(Reg(BC), D16(b21)), 3, 3)
    case 0x02 => Instr(LD8(Deref(BC), Reg(A)), 2, 1)
    case 0x03 => Instr(INC16(BC), 2, 1)
    case 0x04 => Instr(INC8(Reg(B)), 1, 1)
    case 0x05 => Instr(DEC8(Reg(B)), 1, 1)
    case 0x06 => Instr(LD8(Reg(B), D8(b1)), 2, 2)
    case 0x07 => Instr(RLCA, 1, 1)
    case 0x08 => Instr(LD16(A16(b21), Reg(SP)), 5, 3)
    case 0x09 => Instr(ADD16(HL, Reg(BC)), 2, 1)
    case 0x0A => Instr(LD8(Reg(A), Deref(BC)), 2, 1)
    case 0x0B => Instr(DEC16(BC), 2, 1)
    case 0x0C => Instr(INC8(Reg(C)), 1, 1)
    case 0x0D => Instr(DEC8(Reg(C)), 1, 1)
    case 0x0E => Instr(LD8(Reg(C), D8(b1)), 2, 2)
    case 0x0F => Instr(RRCA, 1, 1)
    case 0x10 => Instr(STOP, 1, 1)
    case 0x11 => Instr(LD16(Reg(DE), D16(b21)), 3, 3)
    case 0x12 => Instr(LD8(Deref(DE), Reg(A)), 2, 1)
    case 0x13 => Instr(INC16(DE), 2, 1)
    case 0x14 => Instr(INC8(Reg(D)), 1, 1)
    case 0x15 => Instr(DEC8(Reg(D)), 1, 1)
    case 0x16 => Instr(LD8(Reg(D), D8(b1)), 2, 2)
    case 0x17 => Instr(RLA, 1, 1)
    case 0x18 => Instr(JR(Always, AsI8(b1)), 3, 2)
    case 0x19 => Instr(ADD16(HL, Reg(DE)), 2, 1)
    case 0x1A => Instr(LD8(Reg(A), Deref(DE)), 2, 1)
    case 0x1B => Instr(DEC16(DE), 2, 1)
    case 0x1C => Instr(INC8(Reg(E)), 1, 1)
    case 0x1D => Instr(DEC8(Reg(E)), 1, 1)
    case 0x1E => Instr(LD8(Reg(E), D8(b1)), 2, 2)
    case _ /* 0x1F */ => Instr(RRA, 1, 1)
  }

  function Primary20(b0: u8, b1: u8, b21: u16): Instr
    requires 0x20 <= b0 < 0x40
  {
    match b0
    case 0x20 => Instr(JR(IfNZ, AsI8(b1)), 4, 2)
    case 0x21 => Instr(LD16(Reg(HL), D16(b21)), 3, 3)
    case 0x22 => Instr(LD8I(Deref(HL), Reg(A)), 2, 1)
    case 0x23 => Instr(INC16(HL), 2, 1)
    case 0x24 => Instr(INC8(Reg(H)), 1, 1)
    case 0x25 => Instr(DEC8(Reg(H)), 1, 1)
    case 0x26 => Instr(LD8(Reg(H), D8(b1)), 2, 2)
    case 0x27 => Instr(DAA, 1, 1)
    case 0x28 => Instr(JR(IfZ, AsI8(b1)), 4, 2)
    case 0x29 => Instr(ADD16(HL, Reg(HL)), 2, 1)
    case 0x2A => Instr(LD8I(Reg(A), Deref(HL)), 2, 1)
    case 0x2B => Instr(DEC16(HL), 2, 1)
    case 0x2C => Instr(INC8(Reg(L)), 1, 1)
    case 0x2D => Instr(DEC8(Reg(L)), 1, 1)
    case 0x2E => Instr(LD8(Reg(L), D8(b1)), 2, 2)
    case 0x2F => Instr(CPL, 1, 1)
    case 0x30 => Instr(JR(IfNC, AsI8(b1)), 4, 2)
    case 0x31 => Instr(LD16(Reg(SP), D16(b21)), 3, 3)
    case 0x32 => Instr(LD8D(Deref(HL), Reg(A)), 2, 1)
    case 0x33 => Instr(INC16(SP), 2, 1)
    case 0x34 => Instr(INC8(Deref(HL)), 3, 1)
    case 0x35 => Instr(DEC8(Deref(HL)), 3, 1)
    case 0x36 => Instr(LD8(Deref(HL), D8(b1)), 2, 2)
    case 0x37 => Instr(SCF, 1, 1)
    case 0x38 => Instr(JR(IfC, AsI8(b1)), 4, 2)
    case 0x39 => Instr(ADD16(HL, Reg(SP)), 2, 1)
    case 0x3A => Instr(LD8D(Reg(A), Deref(HL)), 2, 1)
    case 0x3B => Instr(DEC16(SP), 2, 1)
    case 0x3C => Instr(INC8(Reg(A)), 1, 1)
    case 0x3D => Instr(DEC8(Reg(A)), 1, 1)
    case 0x3E => Instr(LD8(Reg(A), D8(b1)), 2, 2)
    case _ /* 0x3F */ => Instr(CCF, 1, 1)
  }

  function Primary40(b0: u8, b1: u8, b21: u16): Instr
    requires 0x40 <= b0 < 0x60
  {
    match b0
    case 0x40 => Instr(LD8(Reg(B), Reg(B)), 1, 1)
    case 0x41 => Instr(LD8(Reg(B), Reg(C)), 1, 1)
    case 0x42 => Instr(LD8(Reg(B), Reg(D)), 1, 1)
    case 0x43 => Instr(LD8(Reg(B), Reg(E)), 1, 1)
    case 0x44 => Instr(LD8(Reg(B), Reg(H)), 1, 1)
    case 0x45 => Instr(LD8(Reg(B), Reg(L)), 1, 1)
    case 0x46 => Instr(LD8(Reg(B), Deref(HL)), 2, 1)
    case 0x47 => Instr(LD8(Reg(B), Reg(A)), 1, 1)
    case 0x48 => Instr(LD8(Reg(C), Reg(B)), 1, 1)
    case 0x49 => Instr(LD8(Reg(C), Reg(C)), 1, 1)
    case 0x4A => Instr(LD8(Reg(C), Reg(D)), 1, 1)
    case 0x4B => Instr(LD8(Reg(C), Reg(E)), 1, 1)
    case 0x4C => Instr(LD8(Reg(C), Reg(H)), 1, 1)
    case 0x4D => Instr(LD8(Reg(C), Reg(L)), 1, 1)
    case 0x4E => Instr(LD8(Reg(C), Deref(HL)), 2, 1)
    case 0x4F => Instr(LD8(Reg(C), Reg(A)), 1, 1)
    case 0x50 => Instr(LD8(Reg(D), Reg(B)), 1, 1)
    case 0x51 => Instr(LD8(Reg(D), Reg(C)), 1, 1)
    case 0x52 => Instr(LD8(Reg(D), Reg(D)), 1, 1)
    case 0x53 => Instr(LD8(Reg(D), Reg(E)), 1, 1)
    case 0x54 => Instr(LD8(Reg(D), Reg(H)), 1, 1)
    case 0x55 => Instr(LD8(Reg(D), Reg(L)), 1, 1)
    case 0x56 => Instr(LD8(Reg(D), Deref(HL)), 2, 1)
    case 0x57 => Instr(LD8(Reg(D), Reg(A)), 1, 1)
    case 0x58 => Instr(LD8(Reg(E), Reg(B)), 1, 1)
    case 0x59 => Instr(LD8(Reg(E), Reg(C)), 1, 1)
    case 0x5A => Instr(LD8(Reg(E), Reg(D)), 1, 1)
    case 0x5B => Instr(LD8(Reg(E), Reg(E)), 1, 1)
    case 0x5C => Instr(LD8(Reg(E), Reg(H)), 1, 1)
    case 0x5D => Instr(LD8(Reg(E), Reg(L)), 1, 1)
    case 0x5E => Instr(LD8(Reg(E), Deref(HL)), 2, 1)
    case _ /* 0x5F */ => Instr(LD8(Reg(E), Reg(A)), 1, 1)
  }

  function Primary60(b0: u8, b1: u8, b21: u16): Instr
    requires 0x60 <= b0 < 0x80
  {
    match b0
    case 0x60 => Instr(LD8(Reg(H), Reg(B)), 1, 1)
    case 0x61 => Instr(LD8(Reg(H), Reg(C)), 1, 1)
    case 0x62 => Instr(LD8(Reg(H), Reg(D)), 1, 1)
    case 0x63 => Instr(LD8(Reg(H), Reg(E)), 1, 1)
    case 0x64 => Instr(LD8(Reg(H), Reg(H)), 1, 1)
    case 0x65 => Instr(LD8(Reg(H), Reg(L)), 1, 1)
    case 0x66 => Instr(LD8(Reg(H), Deref(HL)), 2, 1)
    case 0x67 => Instr(LD8(Reg(H), Reg(A)), 1, 1)
    case 0x68 => Instr(LD8(Reg(L), Reg(B)), 1, 1)
    case 0x69 => Instr(LD8(Reg(L), Reg(C)), 1, 1)
    case 0x6A => Instr(LD8(Reg(L), Reg(D)), 1, 1)
    case 0x6B => Instr(LD8(Reg(L), Reg(E)), 1, 1)
    case 0x6C => Instr(LD8(Reg(L), Reg(H)), 1, 1)
    case 0x6D => Instr(LD8(Reg(L), Reg(L)), 1, 1)
    case 0x6E => Instr(LD8(Reg(L), Deref(HL)), 2, 1)
    case 0x6F => Instr(LD8(Reg(L), Reg(A)), 1, 1)
    case 0x70 => Instr(LD8(Deref(HL), Reg(B)), 1, 1)
    case 0x71 => Instr(LD8(Deref(HL), Reg(C)), 1, 1)
    case 0x72 => Instr(LD8(Deref(HL), Reg(D)), 1, 1)
    case 0x73 => Instr(LD8(Deref(HL), Reg(E)), 1, 1)
    case 0x74 => Instr(LD8(Deref(HL), Reg(H)), 1, 1)
    case 0x75 => Instr(LD8(Deref(HL), Reg(L)), 1, 1)
    case 0x76 => Instr(HALT, 1, 1)
    case 0x77 => Instr(LD8(Deref(HL), Reg(A)), 1, 1)
    case 0x78 => Instr(LD8(Reg(A), Reg(B)), 1, 1)
    case 0x79 => Instr(LD8(Reg(A), Reg(C)), 1, 1)
    case 0x7A => Instr(LD8(Reg(A), Reg(D)), 1, 1)
    case 0x7B => Instr(LD8(Reg(A), Reg(E)), 1, 1)
    case 0x7C => Instr(LD8(Reg(A), Reg(H)), 1, 1)
    case 0x7D => Instr(LD8(Reg(A), Reg(L)), 1, 1)
    case 0x7E => Instr(LD8(Reg(A), Deref(HL)), 2, 1)
    case _ /* 0x7F */ => Instr(LD8(Reg(A), Reg(A)), 1, 1)
  }

  function Primary80(b0: u8, b1: u8, b21: u16): Instr
    requires 0x80 <= b0 < 0xA0
  {
    match b0
    case 0x80 => Instr(ADD8(Reg(B)), 1, 1)
    case 0x81 => Instr(ADD8(Reg(C)), 1, 1)
    case 0x82 => Instr(ADD8(Reg(D)), 1, 1)
    case 0x83 => Instr(ADD8(Reg(E)), 1, 1)
    case 0x84 => Instr(ADD8(Reg(H)), 1, 1)
    case 0x85 => Instr(ADD8(Reg(L)), 1, 1)
    case 0x86 => Instr(ADD8(Deref(HL)), 2, 1)
    case 0x87 => Instr(ADD8(Reg(A)), 1, 1)
    case 0x88 => Instr(ADC8(Reg(B)), 1, 1)
    case 0x89 => Instr(ADC8(Reg(C)), 1, 1)
    case 0x8A => Instr(ADC8(Reg(D)), 1, 1)
    case 0x8B => Instr(ADC8(Reg(E)), 1, 1)
    case 0x8C => Instr(ADC8(Reg(H)), 1, 1)
    case 0x8D => Instr(ADC8(Reg(L)), 1, 1)
    case 0x8E => Instr(ADC8(Deref(HL)), 2, 1)
    case 0x8F => Instr(ADC8(Reg(A)), 1, 1)
    case 0x90 => Instr(SUB8(Reg(B)), 1, 1)
    case 0x91 => Instr(SUB8(Reg(C)), 1, 1)
    case 0x92 => Instr(SUB8(Reg(D)), 1, 1)
    case 0x93 => Instr(SUB8(Reg(E)), 1, 1)
    case 0x94 => Instr(SUB8(Reg(H)), 1, 1)
    case 0x95 => Instr(SUB8(Reg(L)), 1, 1)
    case 0x96 => Instr(SUB8(Deref(HL)), 2, 1)
    case 0x97 => Instr(SUB8(Reg(A)), 1, 1)
    case 0x98 => Instr(SBC8(Reg(B)), 1, 1)
    case 0x99 => Instr(SBC8(Reg(C)), 1, 1)
    case 0x9A => Instr(SBC8(Reg(D)), 1, 1)
    case 0x9B => Instr(SBC8(Reg(E)), 1, 1)
    case 0x9C => Instr(SBC8(Reg(H)), 1, 1)
    case 0x9D => Instr(SBC8(Reg(L)), 1, 1)
    case 0x9E => Instr(SBC8(Deref(HL)), 2, 1)
    case _ /* 0x9F */ => Instr(SBC8(Reg(A)), 1, 1)
  }

  function PrimaryA0(b0: u8, b1: u8, b21: u16): Instr
    requires 0xA0 <= b0 < 0xC0
  {
    match b0
    case 0xA0 => Instr(AND(Reg(B)), 1, 1)
    case 0xA1 => Instr(AND(Reg(C)), 1, 1)
    case 0xA2 => Instr(AND(Reg(D)), 1, 1)
    case 0xA3 => Instr(AND(Reg(E)), 1, 1)
    case 0xA4 => Instr(AND(Reg(H)), 1, 1)
    case 0xA5 => Instr(AND(Reg(L)), 1, 1)
    case 0xA6 => Instr(AND(Deref(HL)), 2, 1)
    case 0xA7 => Instr(AND(Reg(A)), 1, 1)
    case 0xA8 => Instr(XOR(Reg(B)), 1, 1)
    case 0xA9 => Instr(XOR(Reg(C)), 1, 1)
    case 0xAA => Instr(XOR(Reg(D)), 1, 1)
    case 0xAB => Instr(XOR(Reg(E)), 1, 1)
    case 0xAC => Instr(XOR(Reg(H)), 1, 1)
    case 0xAD => Instr(XOR(Reg(L)), 1, 1)
    case 0xAE => Instr(XOR(Deref(HL)), 2, 1)
    case 0xAF => Instr(XOR(Reg(A)), 1, 1)
    case 0xB0 => Instr(OR(Reg(B)), 1, 1)
    case 0xB1 => Instr(OR(Reg(C)), 1, 1)
    case 0xB2 => Instr(OR(Reg(D)), 1, 1)
    case 0xB3 => Instr(OR(Reg(E)), 1, 1)
    case 0xB4 => Instr(OR(Reg(H)), 1, 1)
    case 0xB5 => Instr(OR(Reg(L)), 1, 1)
    case 0xB6 => Instr(OR(Deref(HL)), 2, 1)
    case 0xB7 => Instr(OR(Reg(A)), 1, 1)
    case 0xB8 => Instr(CP(Reg(B)), 1, 1)
    case 0xB9 => Instr(CP(Reg(C)), 1, 1)
    case 0xBA => Instr(CP(Reg(D)), 1, 1)
    case 0xBB => Instr(CP(Reg(E)), 1, 1)
    case 0xBC => Instr(CP(Reg(H)), 1, 1)
    case 0xBD => Instr(CP(Reg(L)), 1, 1)
    case 0xBE => Instr(CP(Deref(HL)), 2, 1)
    case _ /* 0xBF */ => Instr(CP(Reg(A)), 1, 1)
  }

  function PrimaryC0(b0: u8, b1: u8, b21: u16): Instr
    requires 0xC0 <= b0 < 0xE0
  {
    match b0
    case 0xC0 => Instr(RET(IfNZ), 5, 1)
    case 0xC1 => Instr(POP(BC), 4, 1)
    case 0xC2 => Instr(JP(IfNZ, D16(b21)), 4, 3)
    case 0xC3 => Instr(JP(Always, D16(b21)), 4, 3)
    case 0xC4 => Instr(CALL(IfNZ, b21), 6, 3)
    case 0xC5 => Instr(PUSH(BC), 4, 1)
    case 0xC6 => Instr(ADD8(D8(b1)), 2, 2)
    case 0xC7 => Instr(RST(0x00), 4, 1)
    case 0xC8 => Instr(RET(IfZ), 5, 1)
    case 0xC9 => Instr(RET(Always), 4, 1)
    case 0xCA => Instr(JP(IfZ, D16(b21)), 4, 3)
    case 0xCB => Prefixed(b1)
    case 0xCC => Instr(CALL(IfZ, b21), 6, 3)
    case 0xCD => Instr(CALL(Always, b21), 6, 3)
    case 0xCE => Instr(ADC8(D8(b1)), 2, 2)
    case 0xCF => Instr(RST(0x08), 4, 1)
    case 0xD0 => Instr(RET(IfNC), 5, 1)
    case 0xD1 => Instr(POP(DE), 4, 1)
    case 0xD2 => Instr(JP(IfNC, D16(b21)), 4, 3)
    case 0xD3 => Instr(INVALID(b0), 1, 1)
    case 0xD4 => Instr(CALL(IfNC, b21), 6, 3)
    case 0xD5 => Instr(PUSH(DE), 4, 1)
    case 0xD6 => Instr(SUB8(D8(b1)), 2, 2)
    case 0xD7 => Instr(RST(0x10), 4, 1)
    case 0xD8 => Instr(RET(IfC), 5, 1)
    case 0xD9 => Instr(RETI, 4, 1)
    case 0xDA => Instr(JP(IfC, D16(b21)), 4, 3)
    case 0xDB => Instr(INVALID(b0), 1, 1)
    case 0xDC => Instr(CALL(IfC, b21), 6, 3)
    case 0xDD => Instr(INVALID(b0), 1, 1)
    case 0xDE => Instr(SBC8(D8(b1)), 2, 2)
    case _ /* 0xDF */ => Instr(RST(0x18), 4, 1)
  }

  function PrimaryE0(b0: u8, b1: u8, b21: u16): Instr
    requires 0xE0 <= b0
  {
    match b0
    case 0xE0 => Instr(LD8(A8(b1), Reg(A)), 3, 2)
    case 0xE1 => Instr(POP(HL), 4, 1)
    case 0xE2 => Instr(LD8(Deref(C), Reg(A)), 2, 1)
    case 0xE3 => Instr(INVALID(b0), 1, 1)
    case 0xE4 => Instr(INVALID(b0), 1, 1)
    case 0xE5 => Instr(PUSH(HL), 4, 1)
    case 0xE6 => Instr(AND(D8(b1)), 2, 2)
    case 0xE7 => Instr(RST(0x20), 4, 1)
    case 0xE8 => Instr(ADD16(SP, I8(AsI8(b1))), 4, 2)
    case 0xE9 => Instr(JP(Always, Reg(HL)), 1, 1)
    case 0xEA => Instr(LD8(A16(b21), Reg(A)), 4, 3)
    case 0xEB => Instr(INVALID(b0), 1, 1)
    case 0xEC => Instr(INVALID(b0), 1, 1)
    case 0xED => Instr(INVALID(b0), 1, 1)
    case 0xEE => Instr(XOR(D8(b1)), 2, 2)
    case 0xEF => Instr(RST(0x28), 4, 1)
    case 0xF0 => Instr(LD8(Reg(A), A8(b1)), 3, 2)
    case 0xF1 => Instr(POP(AF), 4, 1)
    case 0xF2 => Instr(LD8(Reg(A), Deref(C)), 2, 1)
    case 0xF3 => Instr(DI, 1, 1)
    case 0xF4 => Instr(INVALID(b0), 1, 1)
    case 0xF5 => Instr(PUSH(AF), 4, 1)
    case 0xF6 => Instr(OR(D8(b1)), 2, 2)
    case 0xF7 => Instr(RST(0x30), 4, 1)
    case 0xF8 => Instr(LD16(Reg(HL), I8(AsI8(b1))), 3, 2)
    case 0xF9 => Instr(LD16(Reg(SP), Reg(HL)), 2, 1)
    case 0xFA => Instr(LD8(Reg(A), A16(b21)), 4, 3)
    case 0xFB => Instr(EI, 1, 1)
    case 0xFC => Instr(INVALID(b0), 1, 1)
    case 0xFD => Instr(INVALID(b0), 1, 1)
    case 0xFE => Instr(CP(D8(b1)), 2, 2)
    case _ /* 0xFF */ => Instr(RST(0x38), 4, 1)
  }

  /** The table of opcodes that follow the 0xCB prefix byte, in rows of 32 entries. */
  function Prefixed(b1: u8): Instr
  {
    if b1 < 0x20 then Prefixed00(b1)
    else if b1 < 0x40 then Prefixed20(b1)
    else if b1 < 0x60 then Prefixed40(b1)
    else if b1 < 0x80 then Prefixed60(b1)
    else if b1 < 0xA0 then Prefixed80(b1)
    else if b1 < 0xC0 then PrefixedA0(b1)
    else if b1 < 0xE0 then PrefixedC0(b1)
    else PrefixedE0(b1)
  }

  function Prefixed00(b1: u8): Instr
    requires 0x00 <= b1 < 0x20
  {
    match b1
    case 0x00 => Instr(RLC(Reg(B)), 2, 2)
    case 0x01 => Instr(RLC(Reg(C)), 2, 2)
    case 0x02 => Instr(RLC(Reg(D)), 2, 2)
    case 0x03 => Instr(RLC(Reg(E)), 2, 2)
    case 0x04 => Instr(RLC(Reg(H)), 2, 2)
    case 0x05 => Instr(RLC(Reg(L)), 2, 2)
    case 0x06 => Instr(RLC(Deref(HL)), 4, 2)
    case 0x07 => Instr(RLC(Reg(A)), 2, 2)
    case 0x08 => Instr(RRC(Reg(B)), 2, 2)
    case 0x09 => Instr(RRC(Reg(C)), 2, 2)
    case 0x0A => Instr(RRC(Reg(D)), 2, 2)
    case 0x0B => Instr(RRC(Reg(E)), 2, 2)
    case 0x0C => Instr(RRC(Reg(H)), 2, 2)
    case 0x0D => Instr(RRC(Reg(L)), 2, 2)
    case 0x0E => Instr(RRC(Deref(HL)), 4, 2)
    case 0x0F => Instr(RRC(Reg(A)), 2, 2)
    case 0x10 => Instr(RL(Reg(B)), 2, 2)
    case 0x11 => Instr(RL(Reg(C)), 2, 2)
    case 0x12 => Instr(RL(Reg(D)), 2, 2)
    case 0x13 => Instr(RL(Reg(E)), 2, 2)
    case 0x14 => Instr(RL(Reg(H)), 2, 2)
    case 0x15 => Instr(RL(Reg(L)), 2, 2)
    case 0x16 => Instr(RL(Deref(HL)), 4, 2)
    case 0x17 => Instr(RL(Reg(A)), 2, 2)
    case 0x18 => Instr(RR(Reg(B)), 2, 2)
    case 0x19 => Instr(RR(Reg(C)), 2, 2)
    case 0x1A => Instr(RR(Reg(D)), 2, 2)
    case 0x1B => Instr(RR(Reg(E)), 2, 2)
    case 0x1C => Instr(RR(Reg(H)), 2, 2)
    case 0x1D => Instr(RR(Reg(L)), 2, 2)
    case 0x1E => Instr(RR(Deref(HL)), 4, 2)
    case _ /* 0x1F */ => Instr(RR(Reg(A)), 2, 2)
  }

  function Prefixed20(b1: u8): Instr
    requires 0x20 <= b1 < 0x40
  {
    match b1
    case 0x20 => Instr(SLA(Reg(B)), 2, 2)
    case 0x21 => Instr(SLA(Reg(C)), 2, 2)
    case 0x22 => Instr(SLA(Reg(D)), 2, 2)
    case 0x23 => Instr(SLA(Reg(E)), 2, 2)
    case 0x24 => Instr(SLA(Reg(H)), 2, 2)
    case 0x25 => Instr(SLA(Reg(L)), 2, 2)
    case 0x26 => Instr(SLA(Deref(HL)), 4, 2)
    case 0x27 => Instr(SLA(Reg(A)), 2, 2)
    case 0x28 => Instr(SRA(Reg(B)), 2, 2)
    case 0x29 => Instr(SRA(Reg(C)), 2, 2)
    case 0x2A => Instr(SRA(Reg(D)), 2, 2)
    case 0x2B => Instr(SRA(Reg(E)), 2, 2)
    case 0x2C => Instr(SRA(Reg(H)), 2, 2)
    case 0x2D => Instr(SRA(Reg(L)), 2, 2)
    case 0x2E => Instr(SRA(Deref(HL)), 4, 2)
    case 0x2F => Instr(SRA(Reg(A)), 2, 2)
    case 0x30 => Instr(SWAP(Reg(B)), 2, 2)
    case 0x31 => Instr(SWAP(Reg(C)), 2, 2)
    case 0x32 => Instr(SWAP(Reg(D)), 2, 2)
    case 0x33 => Instr(SWAP(Reg(E)), 2, 2)
    case 0x34 => Instr(SWAP(Reg(H)), 2, 2)
    case 0x35 => Instr(SWAP(Reg(L)), 2, 2)
    case 0x36 => Instr(SWAP(Deref(HL)), 4, 2)
    case 0x37 => Instr(SWAP(Reg(A)), 2, 2)
    case 0x38 => Instr(SRL(Reg(B)), 2, 2)
    case 0x39 => Instr(SRL(Reg(C)), 2, 2)
    case 0x3A => Instr(SRL(Reg(D)), 2, 2)
    case 0x3B => Instr(SRL(Reg(E)), 2, 2)
    case 0x3C => Instr(SRL(Reg(H)), 2, 2)
    case 0x3D => Instr(SRL(Reg(L)), 2, 2)
    case 0x3E => Instr(SRL(Deref(HL)), 4, 2)
    case _ /* 0x3F */ => Instr(SRL(Reg(A)), 2, 2)
  }

  function Prefixed40(b1: u8): Instr
    requires 0x40 <= b1 < 0x60
  {
    match b1
    case 0x40 => Instr(BIT(0, Reg(B)), 2, 2)
    case 0x41 => Instr(BIT(0, Reg(C)), 2, 2)
    case 0x42 => Instr(BIT(0, Reg(D)), 2, 2)
    case 0x43 => Instr(BIT(0, Reg(E)), 2, 2)
    case 0x44 => Instr(BIT(0, Reg(H)), 2, 2)
    case 0x45 => Instr(BIT(0, Reg(L)), 2, 2)
    case 0x46 => Instr(BIT(0, Deref(HL)), 3, 2)
    case 0x47 => Instr(BIT(0, Reg(A)), 2, 2)
    case 0x48 => Instr(BIT(1, Reg(B)), 2, 2)
    case 0x49 => Instr(BIT(1, Reg(C)), 2, 2)
    case 0x4A => Instr(BIT(1, Reg(D)), 2, 2)
    case 0x4B => Instr(BIT(1, Reg(E)), 2, 2)
    case 0x4C => Instr(BIT(1, Reg(H)), 2, 2)
    case 0x4D => Instr(BIT(1, Reg(L)), 2, 2)
    case 0x4E => Instr(BIT(1, Deref(HL)), 3, 2)
    case 0x4F => Instr(BIT(1, Reg(A)), 2, 2)
    case 0x50 => Instr(BIT(2, Reg(B)), 2, 2)
    case 0x51 => Instr(BIT(2, Reg(C)), 2, 2)
    case 0x52 => Instr(BIT(2, Reg(D)), 2, 2)
    case 0x53 => Instr(BIT(2, Reg(E)), 2, 2)
    case 0x54 => Instr(BIT(2, Reg(H)), 2, 2)
    case 0x55 => Instr(BIT(2, Reg(L)), 2, 2)
    case 0x56 => Instr(BIT(2, Deref(HL)), 3, 2)
    case 0x57 => Instr(BIT(2, Reg(A)), 2, 2)
    case 0x58 => Instr(BIT(3, Reg(B)), 2, 2)
    case 0x59 => Instr(BIT(3, Reg(C)), 2, 2)
    case 0x5A => Instr(BIT(3, Reg(D)), 2, 2)
    case 0x5B => Instr(BIT(3, Reg(E)), 2, 2)
    case 0x5C => Instr(BIT(3, Reg(H)), 2, 2)
    case 0x5D => Instr(BIT(3, Reg(L)), 2, 2)
    case 0x5E => Instr(BIT(3, Deref(HL)), 3, 2)
    case _ /* 0x5F */ => Instr(BIT(3, Reg(A)), 2, 2)
  }

  function Prefixed60(b1: u8): Instr
    requires 0x60 <= b1 < 0x80
  {
    match b1
    case 0x60 => Instr(BIT(4, Reg(B)), 2, 2)
    case 0x61 => Instr(BIT(4, Reg(C)), 2, 2)
    case 0x62 => Instr(BIT(4, Reg(D)), 2, 2)
    case 0x63 => Instr(BIT(4, Reg(E)), 2, 2)
    case 0x64 => Instr(BIT(4, Reg(H)), 2, 2)
    case 0x65 => Instr(BIT(4, Reg(L)), 2, 2)
    case 0x66 => Instr(BIT(4, Deref(HL)), 3, 2)
    case 0x67 => Instr(BIT(4, Reg(A)), 2, 2)
    case 0x68 => Instr(BIT(5, Reg(B)), 2, 2)
    case 0x69 => Instr(BIT(5, Reg(C)), 2, 2)
    case 0x6A => Instr(BIT(5, Reg(D)), 2, 2)
    case 0x6B => Instr(BIT(5, Reg(E)), 2, 2)
    case 0x6C => Instr(BIT(5, Reg(H)), 2, 2)
    case 0x6D => Instr(BIT(5, Reg(L)), 2, 2)
    case 0x6E => Instr(BIT(5, Deref(HL)), 3, 2)
    case 0x6F => Instr(BIT(5, Reg(A)), 2, 2)
    case 0x70 => Instr(BIT(6, Reg(B)), 2, 2)
    case 0x71 => Instr(BIT(6, Reg(C)), 2, 2)
    case 0x72 => Instr(BIT(6, Reg(D)), 2, 2)
    case 0x73 => Instr(BIT(6, Reg(E)), 2, 2)
    case 0x74 => Instr(BIT(6, Reg(H)), 2, 2)
    case 0x75 => Instr(BIT(6, Reg(L)), 2, 2)
    case 0x76 => Instr(BIT(6, Deref(HL)), 3, 2)
    case 0x77 => Instr(BIT(6, Reg(A)), 2, 2)
    case 0x78 => Instr(BIT(7, Reg(B)), 2, 2)
    case 0x79 => Instr(BIT(7, Reg(C)), 2, 2)
    case 0x7A => Instr(BIT(7, Reg(D)), 2, 2)
    case 0x7B => Instr(BIT(7, Reg(E)), 2, 2)
    case 0x7C => Instr(BIT(7, Reg(H)), 2, 2)
    case 0x7D => Instr(BIT(7, Reg(L)), 2, 2)
    case 0x7E => Instr(BIT(7, Deref(HL)), 3, 2)
    case _ /* 0x7F */ => Instr(BIT(7, Reg(A)), 2, 2)
  }

  function Prefixed80(b1: u8): Instr
    requires 0x80 <= b1 < 0xA0
  {
    match b1
    case 0x80 => Instr(RES(0, Reg(B)), 2, 2)
    case 0x81 => Instr(RES(0, Reg(C)), 2, 2)
    case 0x82 => Instr(RES(0, Reg(D)), 2, 2)
    case 0x83 => Instr(RES(0, Reg(E)), 2, 2)
    case 0x84 => Instr(RES(0, Reg(H)), 2, 2)
    case 0x85 => Instr(RES(0, Reg(L)), 2, 2)
    case 0x86 => Instr(RES(0, Deref(HL)), 4, 2)
    case 0x87 => Instr(RES(0, Reg(A)), 2, 2)
    case 0x88 => Instr(RES(1, Reg(B)), 2, 2)
    case 0x89 => Instr(RES(1, Reg(C)), 2, 2)
    case 0x8A => Instr(RES(1, Reg(D)), 2, 2)
    case 0x8B => Instr(RES(1, Reg(E)), 2, 2)
    case 0x8C => Instr(RES(1, Reg(H)), 2, 2)
    case 0x8D => Instr(RES(1, Reg(L)), 2, 2)
    case 0x8E => Instr(RES(1, Deref(HL)), 4, 2)
    case 0x8F => Instr(RES(1, Reg(A)), 2, 2)
    case 0x90 => Instr(RES(2, Reg(B)), 2, 2)
    case 0x91 => Instr(RES(2, Reg(C)), 2, 2)
    case 0x92 => Instr(RES(2, Reg(D)), 2, 2)
    case 0x93 => Instr(RES(2, Reg(E)), 2, 2)
    case 0x94 => Instr(RES(2, Reg(H)), 2, 2)
    case 0x95 => Instr(RES(2, Reg(L)), 2, 2)
    case 0x96 => Instr(RES(2, Deref(HL)), 4, 2)
    case 0x97 => Instr(RES(2, Reg(A)), 2, 2)
    case 0x98 => Instr(RES(3, Reg(B)), 2, 2)
    case 0x99 => Instr(RES(3, Reg(C)), 2, 2)
    case 0x9A => Instr(RES(3, Reg(D)), 2, 2)
    case 0x9B => Instr(RES(3, Reg(E)), 2, 2)
    case 0x9C => Instr(RES(3, Reg(H)), 2, 2)
    case 0x9D => Instr(RES(3, Reg(L)), 2, 2)
    case 0x9E => Instr(RES(3, Deref(HL)), 4, 2)
    case _ /* 0x9F */ => Instr(RES(3, Reg(A)), 2, 2)
  }

  function PrefixedA0(b1: u8): Instr
    requires 0xA0 <= b1 < 0xC0
  {
    match b1
    case 0xA0 => Instr(RES(4, Reg(B)), 2, 2)
    case 0xA1 => Instr(RES(4, Reg(C)), 2, 2)
    case 0xA2 => Instr(RES(4, Reg(D)), 2, 2)
    case 0xA3 => Instr(RES(4, Reg(E)), 2, 2)
    case 0xA4 => Instr(RES(4, Reg(H)), 2, 2)
    case 0xA5 => Instr(RES(4, Reg(L)), 2, 2)
    case 0xA6 => Instr(RES(4, Deref(HL)), 4, 2)
    case 0xA7 => Instr(RES(4, Reg(A)), 2, 2)
    case 0xA8 => Instr(RES(5, Reg(B)), 2, 2)
    case 0xA9 => Instr(RES(5, Reg(C)), 2, 2)
    case 0xAA => Instr(RES(5, Reg(D)), 2, 2)
    case 0xAB => Instr(RES(5, Reg(E)), 2, 2)
    case 0xAC => Instr(RES(5, Reg(H)), 2, 2)
    case 0xAD => Instr(RES(5, Reg(L)), 2, 2)
    case 0xAE => Instr(RES(5, Deref(HL)), 4, 2)
    case 0xAF => Instr(RES(5, Reg(A)), 2, 2)
    case 0xB0 => Instr(RES(6, Reg(B)), 2, 2)
    case 0xB1 => Instr(RES(6, Reg(C)), 2, 2)
    case 0xB2 => Instr(RES(6, Reg(D)), 2, 2)
    case 0xB3 => Instr(RES(6, Reg(E)), 2, 2)
    case 0xB4 => Instr(RES(6, Reg(H)), 2, 2)
    case 0xB5 => Instr(RES(6, Reg(L)), 2, 2)
    case 0xB6 => Instr(RES(6, Deref(HL)), 4, 2)
    case 0xB7 => Instr(RES(6, Reg(A)), 2, 2)
    case 0xB8 => Instr(RES(7, Reg(B)), 2, 2)
    case 0xB9 => Instr(RES(7, Reg(C)), 2, 2)
    case 0xBA => Instr(RES(7, Reg(D)), 2, 2)
    case 0xBB => Instr(RES(7, Reg(E)), 2, 2)
    case 0xBC => Instr(RES(7, Reg(H)), 2, 2)
    case 0xBD => Instr(RES(7, Reg(L)), 2, 2)
    case 0xBE => Instr(RES(7, Deref(HL)), 4, 2)
    case _ /* 0xBF */ => Instr(RES(7, Reg(A)), 2, 2)
  }

  function PrefixedC0(b1: u8): Instr
    requires 0xC0 <= b1 < 0xE0
  {
    match b1
    case 0xC0 => Instr(SET(0, Reg(B)), 2, 2)
    case 0xC1 => Instr(SET(0, Reg(C)), 2, 2)
    case 0xC2 => Instr(SET(0, Reg(D)), 2, 2)
    case 0xC3 => Instr(SET(0, Reg(E)), 2, 2)
    case 0xC4 => Instr(SET(0, Reg(H)), 2, 2)
    case 0xC5 => Instr(SET(0, Reg(L)), 2, 2)
    case 0xC6 => Instr(SET(0, Deref(HL)), 4, 2)
    case 0xC7 => Instr(SET(0, Reg(A)), 2, 2)
    case 0xC8 => Instr(SET(1, Reg(B)), 2, 2)
    case 0xC9 => Instr(SET(1, Reg(C)), 2, 2)
    case 0xCA => Instr(SET(1, Reg(D)), 2, 2)
    case 0xCB => Instr(SET(1, Reg(E)), 2, 2)
    case 0xCC => Instr(SET(1, Reg(H)), 2, 2)
    case 0xCD => Instr(SET(1, Reg(L)), 2, 2)
    case 0xCE => Instr(SET(1, Deref(HL)), 4, 2)
    case 0xCF => Instr(SET(1, Reg(A)), 2, 2)
    case 0xD0 => Instr(SET(2, Reg(B)), 2, 2)
    case 0xD1 => Instr(SET(2, Reg(C)), 2, 2)
    case 0xD2 => Instr(SET(2, Reg(D)), 2, 2)
    case 0xD3 => Instr(SET(2, Reg(E)), 2, 2)
    case 0xD4 => Instr(SET(2, Reg(H)), 2, 2)
    case 0xD5 => Instr(SET(2, Reg(L)), 2, 2)
    case 0xD6 => Instr(SET(2, Deref(HL)), 4, 2)
    case 0xD7 => Instr(SET(2, Reg(A)), 2, 2)
    case 0xD8 => Instr(SET(3, Reg(B)), 2, 2)
    case 0xD9 => Instr(SET(3, Reg(C)), 2, 2)
    case 0xDA => Instr(SET(3, Reg(D)), 2, 2)
    case 0xDB => Instr(SET(3, Reg(E)), 2, 2)
    case 0xDC => Instr(SET(3, Reg(H)), 2, 2)
    case 0xDD => Instr(SET(3, Reg(L)), 2, 2)
    case 0xDE => Instr(SET(3, Deref(HL)), 4, 2)
    case _ /* 0xDF */ => Instr(SET(3, Reg(A)), 2, 2)
  }

  function PrefixedE0(b1: u8): Instr
    requires 0xE0 <= b1
  {
    match b1
    case 0xE0 => Instr(SET(4, Reg(B)), 2, 2)
    case 0xE1 => Instr(SET(4, Reg(C)), 2, 2)
    case 0xE2 => Instr(SET(4, Reg(D)), 2, 2)
    case 0xE3 => Instr(SET(4, Reg(E)), 2, 2)
    case 0xE4 => Instr(SET(4, Reg(H)), 2, 2)
    case 0xE5 => Instr(SET(4, Reg(L)), 2, 2)
    case 0xE6 => Instr(SET(4, Deref(HL)), 4, 2)
    case 0xE7 => Instr(SET(4, Reg(A)), 2, 2)
    case 0xE8 => Instr(SET(5, Reg(B)), 2, 2)
    case 0xE9 => Instr(SET(5, Reg(C)), 2, 2)
    case 0xEA => Instr(SET(5, Reg(D)), 2, 2)
    case 0xEB => Instr(SET(5, Reg(E)), 2, 2)
    case 0xEC => Instr(SET(5, Reg(H)), 2, 2)
    case 0xED => Instr(SET(5, Reg(L)), 2, 2)
    case 0xEE => Instr(SET(5, Deref(HL)), 4, 2)
    case 0xEF => Instr(SET(5, Reg(A)), 2, 2)
    case 0xF0 => Instr(SET(6, Reg(B)), 2, 2)
    case 0xF1 => Instr(SET(6, Reg(C)), 2, 2)
    case 0xF2 => Instr(SET(6, Reg(D)), 2, 2)
    case 0xF3 => Instr(SET(6, Reg(E)), 2, 2)
    case 0xF4 => Instr(SET(6, Reg(H)), 2, 2)
    case 0xF5 => Instr(SET(6, Reg(L)), 2, 2)
    case 0xF6 => Instr(SET(6, Deref(HL)), 4, 2)
    case 0xF7 => Instr(SET(6, Reg(A)), 2, 2)
    case 0xF8 => Instr(SET(7, Reg(B)), 2, 2)
    case 0xF9 => Instr(SET(7, Reg(C)), 2, 2)
    case 0xFA => Instr(SET(7, Reg(D)), 2, 2)
    case 0xFB => Instr(SET(7, Reg(E)), 2, 2)
    case 0xFC => Instr(SET(7, Reg(H)), 2, 2)
    case 0xFD => Instr(SET(7, Reg(L)), 2, 2)
    case 0xFE => Instr(SET(7, Deref(HL)), 4, 2)
    case _ /* 0xFF */ => Instr(SET(7, Reg(A)), 2, 2)
  }

  // ---------------------------------------------------------------------
  // The regular structure of the tables

  /** The operand order [B, C, D, E, H, L, (HL), A] indexed by three opcode bits. */
  function Operand(i: nat): Src
    requires i < 8
  {
    match i
    case 0 => Reg(B)
    case 1 => Reg(C)
    case 2 => Reg(D)
    case 3 => Reg(E)
    case 4 => Reg(H)
    case 5 => Reg(L)
    case 6 => Deref(HL)
    case 7 => Reg(A)
  }

  /** The 8-bit ALU operation selected by bits 3-5 of 0x80-0xBF. */
  function AluOp(k: nat, s: Src): Opcode
    requires k < 8
  {
    match k
    case 0 => ADD8(s)
    case 1 => ADC8(s)
    case 2 => SUB8(s)
    case 3 => SBC8(s)
    case 4 => AND(s)
    case 5 => XOR(s)
    case 6 => OR(s)
    case 7 => CP(s)
  }

  /** The rotate or shift selected by bits 3-5 of 0xCB 0x00-0x3F. */
  function ShiftOp(k: nat, s: Src): Opcode
    requires k < 8
  {
    match k
    case 0 => RLC(s)
    case 1 => RRC(s)
    case 2 => RL(s)
    case 3 => RR(s)
    case 4 => SLA(s)
    case 5 => SRA(s)
    case 6 => SWAP(s)
    case 7 => SRL(s)
  }

  const InvalidBytes: set<u8> := {0xD3, 0xDB, 0xDD, 0xE3, 0xE4, 0xEB, 0xEC, 0xED, 0xF4, 0xFC, 0xFD}

  /** Branches are decoded with the cost of the taken path. */
  predicate BranchCost(i: Instr)
  {
    match i.opcode
    case JR(c, _) => i.cycles == (if c == Always then 3 else 4) && i.nBytes == 2
    case RET(c) => i.cycles == (if c == Always then 4 else 5) && i.nBytes == 1
    case CALL(_, _) => i.cycles == 6 && i.nBytes == 3
    case JP(_, t) => if t.Reg? then i.cycles == 1 && i.nBytes == 1 else i.cycles == 4 && i.nBytes == 3
    case RST(v) => i.cycles == 4 && i.nBytes == 1 && v % 8 == 0 && v < 0x40
    case _ => true
  }

  /** Every 16-bit immediate in `op` is `v`. */
  predicate WideImmediates(op: Opcode, v: u16)
  {
    match op
    case LD8(d, s) => WideIs(d, v) && WideIs(s, v)
    case LD16(d, s) => WideIs(d, v) && WideIs(s, v)
    case JP(_, t) => WideIs(t, v)
    case CALL(_, a) => a == v
    case _ => true
  }

  predicate WideIs(s: Src, v: u16)
  {
    match s
    case A16(x) => x == v
    case D16(x) => x == v
    case _ => true
  }

  /** Every 8-bit immediate in `op` is `b`, read as unsigned or as signed. */
  predicate NarrowImmediates(op: Opcode, b: u8)
  {
    match op
    case LD8(d, s) => NarrowIs(d, b) && NarrowIs(s, b)
    case LD16(d, s) => NarrowIs(d, b) && NarrowIs(s, b)
    case ADD16(_, s) => NarrowIs(s, b)
    case ADD8(s) => NarrowIs(s, b)
    case ADC8(s) => NarrowIs(s, b)
    case SUB8(s) => NarrowIs(s, b)
    case SBC8(s) => NarrowIs(s, b)
    case AND(s) => NarrowIs(s, b)
    case OR(s) => NarrowIs(s, b)
    case XOR(s) => NarrowIs(s, b)
    case CP(s) => NarrowIs(s, b)
    case JR(_, o) => o == AsI8(b)
    case _ => true
  }

  predicate NarrowIs(s: Src, b: u8)
  {
    match s
    case A8(x) => x == b
    case D8(x) => x == b
    case I8(x) => x == AsI8(b)
    case _ => true
  }

  /** What holds of each unprefixed entry of the table. */
  predicate PrimaryFacts(b0: u8, b1: u8, b21: u16)
    requires b0 != 0xCB
  {
    var i := Primary(b0, b1, b21);
    && 1 <= i.nBytes <= 3 && 1 <= i.cycles <= 6
    && (i.opcode.INVALID? <==> b0 in InvalidBytes)
    && (b0 in InvalidBytes ==> i == Instr(INVALID(b0), 1, 1))
    && BranchCost(i)
    && WideImmediates(i.opcode, b21)
    && NarrowImmediates(i.opcode, b1)
    && (0x40 <= b0 < 0x80 ==>
          i == if b0 == 0x76 then Instr(HALT, 1, 1)
               else Instr(LD8(Operand((b0 / 8) % 8), Operand(b0 % 8)), if b0 % 8 == 6 then 2 else 1, 1))
    && (0x80 <= b0 < 0xC0 ==>
          i == Instr(AluOp((b0 / 8) % 8, Operand(b0 % 8)), if b0 % 8 == 6 then 2 else 1, 1))
  }

  lemma PrimaryFacts00(b0: u8, b1: u8, b21: u16)
    requires b0 < 0x10
    ensures PrimaryFacts(b0, b1, b21)
  {
  }

  lemma PrimaryFacts10(b0: u8, b1: u8, b21: u16)
    requires 0x10 <= b0 < 0x20
    ensures PrimaryFacts(b0, b1, b21)
  {
  }

  lemma PrimaryFacts20(b0: u8, b1: u8, b21: u16)
    requires 0x20 <= b0 < 0x30
    ensures PrimaryFacts(b0, b1, b21)
  {
  }

  lemma PrimaryFacts30(b0: u8, b1: u8, b21: u16)
    requires 0x30 <= b0 < 0x40
    ensures PrimaryFacts(b0, b1, b21)
  {
  }

  lemma PrimaryFacts40(b0: u8, b1: u8, b21: u16)
    requires 0x40 <= b0 < 0x50
    ensures PrimaryFacts(b0, b1, b21)
  {
  }

  lemma PrimaryFacts50(b0: u8, b1: u8, b21: u16)
    requires 0x50 <= b0 < 0x60
    ensures PrimaryFacts(b0, b1, b21)
  {
  }

  lemma PrimaryFacts60(b0: u8, b1: u8, b21: u16)
    requires 0x60 <= b0 < 0x70
    ensures PrimaryFacts(b0, b1, b21)
  {
  }

  lemma PrimaryFacts70(b0: u8, b1: u8, b21: u16)
    requires 0x70 <= b0 < 0x80
    ensures PrimaryFacts(b0, b1, b21)
  {
  }

  lemma PrimaryFacts80(b0: u8, b1: u8, b21: u16)
    requires 0x80 <= b0 < 0x90
    ensures PrimaryFacts(b0, b1, b21)
  {
  }

  lemma PrimaryFacts90(b0: u8, b1: u8, b21: u16)
    requires 0x90 <= b0 < 0xA0
    ensures PrimaryFacts(b0, b1, b21)
  {
  }

  lemma PrimaryFactsA0(b0: u8, b1: u8, b21: u16)
    requires 0xA0 <= b0 < 0xB0
    ensures PrimaryFacts(b0, b1, b21)
  {
  }

  lemma PrimaryFactsB0(b0: u8, b1: u8, b21: u16)
    requires 0xB0 <= b0 < 0xC0
    ensures PrimaryFacts(b0, b1, b21)
  {
  }

  lemma PrimaryFactsC0(b0: u8, b1: u8, b21: u16)
    requires 0xC0 <= b0 < 0xD0 && b0 != 0xCB
    ensures PrimaryFacts(b0, b1, b21)
  {
  }

  lemma PrimaryFactsD0(b0: u8, b1: u8, b21: u16)
    requires 0xD0 <= b0 < 0xE0
    ensures PrimaryFacts(b0, b1, b21)
  {
  }

  lemma PrimaryFactsE0(b0: u8, b1: u8, b21: u16)
    requires 0xE0 <= b0 < 0xF0
    ensures PrimaryFacts(b0, b1, b21)
  {
  }

  lemma PrimaryFactsF0(b0: u8, b1: u8, b21: u16)
    requires 0xF0 <= b0
    ensures PrimaryFacts(b0, b1, b21)
  {
  }

  lemma {:induction false} AllPrimaryFacts(b0: u8, b1: u8, b21: u16)
    requires b0 != 0xCB
    ensures PrimaryFacts(b0, b1, b21)
  {
    if b0 < 0x10 {
      PrimaryFacts00(b0, b1, b21);
    } else if b0 < 0x20 {
      PrimaryFacts10(b0, b1, b21);
    } else if b0 < 0x30 {
      PrimaryFacts20(b0, b1, b21);
    } else if b0 < 0x40 {
      PrimaryFacts30(b0, b1, b21);
    } else if b0 < 0x50 {
      PrimaryFacts40(b0, b1, b21);
    } else if b0 < 0x60 {
      PrimaryFacts50(b0, b1, b21);
    } else if b0 < 0x70 {
      PrimaryFacts60(b0, b1, b21);
    } else if b0 < 0x80 {
      PrimaryFacts70(b0, b1, b21);
    } else if b0 < 0x90 {
      PrimaryFacts80(b0, b1, b21);
    } else if b0 < 0xA0 {
      PrimaryFacts90(b0, b1, b21);
    } else if b0 < 0xB0 {
      PrimaryFactsA0(b0, b1, b21);
    } else if b0 < 0xC0 {
      PrimaryFactsB0(b0, b1, b21);
    } else if b0 < 0xD0 {
      PrimaryFactsC0(b0, b1, b21);
    } else if b0 < 0xE0 {
      PrimaryFactsD0(b0, b1, b21);
    } else if b0 < 0xF0 {
      PrimaryFactsE0(b0, b1, b21);
    } else {
      PrimaryFactsF0(b0, b1, b21);
    }
  }

  /** What holds of each entry of the prefixed table. */
  predicate PrefixedFacts(b1: u8)
  {
    var i := Prefixed(b1);
    && i.nBytes == 2
    && i.cycles == (if b1 % 8 != 6 then 2 else if 0x40 <= b1 < 0x80 then 3 else 4)
    && i.opcode == (if b1 < 0x40 then ShiftOp(b1 / 8, Operand(b1 % 8))
                    else if b1 < 0x80 then BIT((b1 / 8) % 8, Operand(b1 % 8))
                    else if b1 < 0xC0 then RES((b1 / 8) % 8, Operand(b1 % 8))
                    else SET((b1 / 8) % 8, Operand(b1 % 8)))
  }

  lemma PrefixedFacts00(b1: u8)
    requires b1 < 0x20
    ensures PrefixedFacts(b1)
  {
  }

  lemma PrefixedFacts20(b1: u8)
    requires 0x20 <= b1 < 0x40
    ensures PrefixedFacts(b1)
  {
  }

  lemma PrefixedFacts40(b1: u8)
    requires 0x40 <= b1 < 0x60
    ensures PrefixedFacts(b1)
  {
  }

  lemma PrefixedFacts60(b1: u8)
    requires 0x60 <= b1 < 0x80
    ensures PrefixedFacts(b1)
  {
  }

  lemma PrefixedFacts80(b1: u8)
    requires 0x80 <= b1 < 0xA0
    ensures PrefixedFacts(b1)
  {
  }

  lemma PrefixedFactsA0(b1: u8)
    requires 0xA0 <= b1 < 0xC0
    ensures PrefixedFacts(b1)
  {
  }

  lemma PrefixedFactsC0(b1: u8)
    requires 0xC0 <= b1 < 0xE0
    ensures PrefixedFacts(b1)
  {
  }

  lemma PrefixedFactsE0(b1: u8)
    requires 0xE0 <= b1
    ensures PrefixedFacts(b1)
  {
  }

  lemma {:induction false} AllPrefixedFacts(b1: u8)
    ensures PrefixedFacts(b1)
  {
    if b1 < 0x20 {
      PrefixedFacts00(b1);
    } else if b1 < 0x40 {
      PrefixedFacts20(b1);
    } else if b1 < 0x60 {
      PrefixedFacts40(b1);
    } else if b1 < 0x80 {
      PrefixedFacts60(b1);
    } else if b1 < 0xA0 {
      PrefixedFacts80(b1);
    } else if b1 < 0xC0 {
      PrefixedFactsA0(b1);
    } else if b1 < 0xE0 {
      PrefixedFactsC0(b1);
    } else {
      PrefixedFactsE0(b1);
    }
  }

  // ---------------------------------------------------------------------
  // Properties of the decoder

  lemma PrimaryBounds(b0: u8, b1: u8, b21: u16)
    ensures 1 <= Primary(b0, b1, b21).nBytes <= 3
    ensures 1 <= Primary(b0, b1, b21).cycles <= 6
  {
    if b0 == 0xCB {
      AllPrefixedFacts(b1);
    } else {
      AllPrimaryFacts(b0, b1, b21);
    }
  }

  /** Exactly the eleven unused bytes decode to INVALID, costing 1 cycle and 1 byte. */
  lemma InvalidOpcodes(bytes: seq<u8>)
    requires |bytes| >= 3
    ensures Disassemble(bytes).opcode.INVALID? <==> bytes[0] in InvalidBytes
    ensures bytes[0] in InvalidBytes ==> Disassemble(bytes) == Instr(INVALID(bytes[0]), 1, 1)
  {
    if bytes[0] == 0xCB {
      AllPrefixedFacts(bytes[1]);
    } else {
      AllPrimaryFacts(bytes[0], bytes[1], Combine(bytes[2], bytes[1]));
    }
  }

  /** 0x40-0x7F: register-to-register loads, except 0x76 which is HALT. */
  lemma LoadBlock(b0: u8, b1: u8, b21: u16)
    requires 0x40 <= b0 < 0x80
    ensures b0 == 0x76 ==> Primary(b0, b1, b21) == Instr(HALT, 1, 1)
    ensures b0 != 0x76 ==>
      Primary(b0, b1, b21) == Instr(LD8(Operand((b0 / 8) % 8), Operand(b0 % 8)), if b0 % 8 == 6 then 2 else 1, 1)
  {
    AllPrimaryFacts(b0, b1, b21);
  }

  /** 0x80-0xBF: the eight ALU operations on the eight operands. */
  lemma AluBlock(b0: u8, b1: u8, b21: u16)
    requires 0x80 <= b0 < 0xC0
    ensures Primary(b0, b1, b21) == Instr(AluOp((b0 / 8) % 8, Operand(b0 % 8)), if b0 % 8 == 6 then 2 else 1, 1)
  {
    AllPrimaryFacts(b0, b1, b21);
  }

  /**
   * Every prefixed instruction is 2 bytes long; the register forms cost 2,
   * the (HL) forms 4, except BIT n,(HL) which costs 3.  Bits 3-5 choose the
   * shift, or the bit index for BIT, RES and SET; bits 0-2 the operand.
   */
  lemma PrefixedTable(bytes: seq<u8>)
    requires |bytes| >= 3 && bytes[0] == 0xCB
    ensures var i, b1 := Disassemble(bytes), bytes[1];
      && i.nBytes == 2
      && i.cycles == (if b1 % 8 != 6 then 2 else if 0x40 <= b1 < 0x80 then 3 else 4)
      && (b1 < 0x40 ==> i.opcode == ShiftOp(b1 / 8, Operand(b1 % 8)))
      && (0x40 <= b1 < 0x80 ==> i.opcode == BIT((b1 / 8) % 8, Operand(b1 % 8)))
      && (0x80 <= b1 < 0xC0 ==> i.opcode == RES((b1 / 8) % 8, Operand(b1 % 8)))
      && (0xC0 <= b1 ==> i.opcode == SET((b1 / 8) % 8, Operand(b1 % 8)))
  {
    AllPrefixedFacts(bytes[1]);
  }

  /** Branches are decoded with the cost of the taken path. */
  lemma BranchCosts(bytes: seq<u8>)
    requires |bytes| >= 3
    ensures BranchCost(Disassemble(bytes))
  {
    if bytes[0] == 0xCB {
      AllPrefixedFacts(bytes[1]);
    } else {
      AllPrimaryFacts(bytes[0], bytes[1], Combine(bytes[2], bytes[1]));
    }
  }

  /** Immediates come from `bytes[1]`, and 16-bit ones are `bytes[2] << 8 | bytes[1]`. */
  lemma Immediates(bytes: seq<u8>)
    requires |bytes| >= 3
    ensures WideImmediates(Disassemble(bytes).opcode, 0x100 * (bytes[2] as int) + bytes[1])
    ensures NarrowImmediates(Disassemble(bytes).opcode, bytes[1])
  {
    var b21 := Combine(bytes[2], bytes[1]);
    assert b21 == 0x100 * (bytes[2] as int) + bytes[1];
    assert Disassemble(bytes) == Primary(bytes[0], bytes[1], b21);
    if bytes[0] == 0xCB {
      assert Primary(bytes[0], bytes[1], b21) == Prefixed(bytes[1]);
      PrefixedImmediates(bytes[1], b21);
    } else {
      PrimaryImmediates(bytes[0], bytes[1], b21);
    }
  }

  /** The unprefixed instructions take their immediates from the bytes after the opcode. */
  lemma PrimaryImmediates(b0: u8, b1: u8, b21: u16)
    requires b0 != 0xCB
    ensures WideImmediates(Primary(b0, b1, b21).opcode, b21)
    ensures NarrowImmediates(Primary(b0, b1, b21).opcode, b1)
  {
    AllPrimaryFacts(b0, b1, b21);
  }

  /** The prefixed instructions carry no immediate. */
  lemma PrefixedImmediates(b1: u8, v: u16)
    ensures WideImmediates(Prefixed(b1).opcode, v)
    ensures NarrowImmediates(Prefixed(b1).opcode, b1)
  {
    AllPrefixedFacts(b1);
  }

  /** The 16-bit immediate of the length-3 instructions is read little-endian. */
  lemma JumpExample()
    ensures Disassemble([0xC3, 0x12, 0x80]) == Instr(JP(Always, D16(0x8012)), 4, 3)
  {
  }
}
