/**
 * What one `Cpu::eval` (src/cpu/eval.rs) does, as a function of the state:
 * the register file, the interrupt master enable `ime` and the 64K memory.
 * A panic of the source (HALT, STOP, an invalid opcode, an operand form an
 * instruction cannot take, a 16-bit access at 0xFFFF) is the outcome
 * `Panic`.  Unsigned 8- and 16-bit arithmetic wraps around.
 */
module Exec {
  import opened Bits
  import opened Wrappers
  import opened Registers
  import opened Instr
  import opened Alu
  import opened FlatMemoryBus

  datatype Machine = Machine(rf: RegFile, ime: bool, mem: seq<u8>)
  {
    predicate Valid()
    {
      |mem| == MEMORY_SIZE
    }
  }

  datatype Outcome = Next(m: Machine, cycles: nat) | Panic

  // ---------------------------------------------------------------------
  // Operands

  /** Where an 8-bit operand lives. */
  datatype Loc = InReg(r: Register) | InMem(addr: u16)

  /**
   * The operand forms `get_u8` and `ld8` share: a register, `(C)` at
   * 0xFF00 + C, `(rr)`, `(a8)` at 0xFF00 + a8 and `(a16)`; `None` for the forms
   * that panic (a 16-bit register, `(r)` for an 8-bit r other than C, an
   * immediate).
   */
  function Locate(rf: RegFile, s: Src): (l: Option<Loc>)
    ensures l.Some? && l.value.InReg? ==> l.value.r.Is8()
  {
    match s
    case Reg(r) => if r.Is8() then Some(InReg(r)) else None
    case Deref(r) =>
      if r == C then Some(InMem(0xFF00 + rf.c))
      else if r.Is8() then None
      else Some(InMem(rf.Get16(r)))
    case A8(a) => Some(InMem(0xFF00 + a))
    case A16(a) => Some(InMem(a))
    case _ => None
  }

  /** `get_u8`: an 8-bit immediate, or the byte at the operand's location. */
  function GetU8(m: Machine, s: Src): (r: Option<u8>)
    requires m.Valid()
    ensures r.None? <==> s.D16? || s.I8? || (s.Reg? && !s.r.Is8()) || (s.Deref? && s.r != C && s.r.Is8())
    ensures s.Reg? && s.r.Is8() ==> r == Some(m.rf.Get8(s.r))
    ensures s.Deref? && s.r == C ==> r == Some(m.mem[0xFF00 + m.rf.c])
    ensures s.A8? ==> r == Some(m.mem[0xFF00 + s.a8])
  {
    if s.D8? then Some(s.d8)
    else match Locate(m.rf, s)
      case None => None
      case Some(InReg(r)) => Some(m.rf.Get8(r))
      case Some(InMem(a)) => Some(m.mem[a])
  }

  /** The store half of `ld8`: writes `v` to the location `dst` names. */
  function Store8(m: Machine, dst: Src, v: u8): (r: Option<Machine>)
    requires m.Valid()
    ensures r.Some? ==> r.value.Valid() && r.value.ime == m.ime
  {
    match Locate(m.rf, dst)
    case None => None
    case Some(InReg(r)) => Some(m.(rf := m.rf.Set8(r, v)))
    case Some(InMem(a)) => Some(m.(mem := m.mem[a := v]))
  }

  /** `ld8(dst, src)`. */
  function Load8(m: Machine, dst: Src, src: Src): (r: Option<Machine>)
    requires m.Valid()
    ensures r.Some? ==> r.value.Valid() && r.value.ime == m.ime
  {
    var v :- GetU8(m, src);
    Store8(m, dst, v)
  }

  /** `get_u16`: a 16-bit register, a 16-bit immediate, or a signed byte sign-extended (`i8 as u16`). */
  function GetU16(rf: RegFile, s: Src): (r: Option<u16>)
    ensures r.None? <==> !(s.D16? || s.I8? || (s.Reg? && !s.r.Is8()))
    ensures s.I8? ==> r == Some(if s.i8 < 0 then s.i8 + 0x1_0000 else s.i8)
    ensures s.Reg? && !s.r.Is8() ==> r == Some(rf.Get16(s.r))
  {
    match s
    case Reg(r) => if r.Is8() then None else Some(rf.Get16(r))
    case D16(v) => Some(v)
    case I8(v) => Some(Wrap16(v))
    case _ => None
  }

  /** The store half of `ld16`: a 16-bit register, or memory at `(a16)` high byte first. */
  function Store16(m: Machine, dst: Src, v: u16): (r: Option<Machine>)
    requires m.Valid()
    ensures r.Some? ==> r.value.Valid() && r.value.ime == m.ime
  {
    match dst
    case Reg(r) => if r.Is8() then None else Some(m.(rf := m.rf.Set16(r, v)))
    case A16(a) =>
      var mem :- Write16(m.mem, a, v);
      Some(m.(mem := mem))
    case _ => None
  }

  /** `ld16(dst, src)`. */
  function Load16(m: Machine, dst: Src, src: Src): (r: Option<Machine>)
    requires m.Valid()
    ensures r.Some? ==> r.value.Valid() && r.value.ime == m.ime
  {
    var v :- GetU16(m.rf, src);
    Store16(m, dst, v)
  }

  function WriteFlags(rf: RegFile, f: Flags): RegFile
  {
    rf.SetFlags(f.z, f.n, f.h, f.cy)
  }

  /** `flag_match`. */
  predicate Matches(rf: RegFile, c: FlagCondition)
  {
    match c
    case IfZ => rf.ZFlag()
    case IfNZ => !rf.ZFlag()
    case IfC => rf.CyFlag()
    case IfNC => !rf.CyFlag()
    case Always => true
  }

  // ---------------------------------------------------------------------
  // Loads and the stack

  /** LD8, and LD8I and LD8D, which then step HL up or down by one. */
  function LoadByte(m: Machine, op: Opcode): (r: Option<Machine>)
    requires m.Valid() && (op.LD8? || op.LD8I? || op.LD8D?)
    ensures r.Some? ==> r.value.Valid() && r.value.ime == m.ime
  {
    var m1 :- Load8(m, op.dst, op.src);
    if op.LD8? then Some(m1)
    else Some(m1.(rf := m1.rf.Set16(HL, Wrap16(m1.rf.Get16(HL) + (if op.LD8I? then 1 else -1)))))
  }

  /** LD16; `LD HL, SP+r8` adds the signed offset to SP and sets H from the carry out of bit 11 and C from the carry out of bit 15, as AddSigned16 computes them. */
  function LoadWord(m: Machine, d: Src, s: Src): (r: Option<Machine>)
    requires m.Valid()
    ensures r.Some? ==> r.value.Valid() && r.value.ime == m.ime
  {
    if d == Reg(HL) && s.I8? then
      var o := AddSigned16(m.rf.sp, s.i8);
      Some(m.(rf := m.rf.Set16(HL, o.v).SetFlags(false, false, o.h, o.cy)))
    else Load16(m, d, s)
  }

  /** PUSH: SP goes down by two, then the pair is stored there with `set16`. */
  function Push(m: Machine, reg: Register): (r: Option<Machine>)
    requires m.Valid()
    ensures r.Some? ==> r.value.Valid() && r.value.ime == m.ime
  {
    var sp := Wrap16(m.rf.sp - 2);
    var rf := m.rf.Set16(SP, sp);
    if reg.Is8() then None
    else
      var mem :- Write16(m.mem, sp, rf.Get16(reg));
      Some(Machine(rf, m.ime, mem))
  }

  /** POP: SP goes up by two, then the pair is loaded with `get16` at the old SP. */
  function Pop(m: Machine, reg: Register): (r: Option<Machine>)
    requires m.Valid()
    ensures r.Some? ==> r.value.Valid() && r.value.ime == m.ime
  {
    var rf := m.rf.Set16(SP, Wrap16(m.rf.sp + 2));
    var v :- Read16(m.mem, m.rf.sp);
    if reg.Is8() then None else Some(m.(rf := rf.Set16(reg, v)))
  }

  /** NOP, the loads and the stack. */
  function Loads(m: Machine, op: Opcode): (r: Option<Machine>)
    requires m.Valid()
    ensures r.Some? ==> r.value.Valid() && r.value.ime == m.ime
  {
    if op.NOP? then Some(m)
    else if op.LD8? || op.LD8I? || op.LD8D? then LoadByte(m, op)
    else if op.LD16? then LoadWord(m, op.dst, op.src)
    else if op.PUSH? then Push(m, op.reg)
    else if op.POP? then Pop(m, op.reg)
    else None
  }

  // ---------------------------------------------------------------------
  // 8- and 16-bit arithmetic

  function SetA(m: Machine, o: Out8): Machine
  {
    m.(rf := WriteFlags(m.rf.Set8(A, o.v), o.flags))
  }

  /** The instructions that combine A with an 8-bit operand. */
  predicate IsAluOp(op: Opcode)
  {
    op.ADD8? || op.ADC8? || op.SUB8? || op.SBC8? || op.AND? || op.OR? || op.XOR? || op.CP?
  }

  /** The result and flags of an accumulator instruction for A = `a`, operand `b` and C flag `cy`. */
  function AluResult(op: Opcode, a: u8, b: u8, cy: bool): Out8
    requires IsAluOp(op)
  {
    match op
    case ADD8(_) => Add8(a, b, false)
    case ADC8(_) => Add8(a, b, cy)
    case SUB8(_) | CP(_) => Sub8(a, b, false)
    case SBC8(_) => Sub8(a, b, cy)
    case AND(_) => And8(a, b)
    case OR(_) => Or8(a, b)
    case XOR(_) => Xor8(a, b)
  }

  /** INC8 or DEC8 of `x`, writing back the C flag `cy`. */
  function IncDec(op: Opcode, x: u8, cy: bool): Out8
    requires op.INC8? || op.DEC8?
  {
    if op.INC8? then Inc8(x, cy) else Dec8(x, cy)
  }

  /**
   * The 8-bit arithmetic: the result goes to A (CP keeps A and writes only
   * the flags); INC8 and DEC8 store the result back to their operand and
   * then copy the C flag as it is after the store.
   */
  function Arith8(m: Machine, op: Opcode): (r: Option<Machine>)
    requires m.Valid()
    ensures r.Some? ==> r.value.Valid() && r.value.ime == m.ime
  {
    if IsAluOp(op) then
      var b :- GetU8(m, op.operand);
      var o := AluResult(op, m.rf.a, b, m.rf.CyFlag());
      if op.CP? then Some(m.(rf := WriteFlags(m.rf, o.flags))) else Some(SetA(m, o))
    else if op.INC8? || op.DEC8? then
      var x :- GetU8(m, op.operand);
      var m1 :- Store8(m, op.operand, IncDec(op, x, false).v);
      Some(m1.(rf := WriteFlags(m1.rf, IncDec(op, x, m1.rf.CyFlag()).flags)))
    else None
  }

  function Arith16(m: Machine, op: Opcode): (r: Option<Machine>)
    requires m.Valid()
    ensures r.Some? ==> r.value.Valid() && r.value.ime == m.ime
  {
    match op
    case ADD16(reg, s) =>
      if reg.Is8() then None
      else if s.I8? then
        var o := AddSigned16(m.rf.Get16(reg), s.i8);
        Some(m.(rf := m.rf.Set16(reg, o.v).SetFlags(false, false, o.h, o.cy)))
      else
        var b :- GetU16(m.rf, s);
        var o := Add16(m.rf.Get16(reg), b);
        var rf := m.rf.Set16(reg, o.v);
        Some(m.(rf := rf.SetFlags(rf.ZFlag(), false, o.h, o.cy)))
    case INC16(reg) =>
      if reg.Is8() then None else Some(m.(rf := m.rf.Set16(reg, Wrap16(m.rf.Get16(reg) + 1))))
    case DEC16(reg) =>
      if reg.Is8() then None else Some(m.(rf := m.rf.Set16(reg, Wrap16(m.rf.Get16(reg) - 1))))
    case _ => None
  }

  // ---------------------------------------------------------------------
  // Rotates, shifts and single bits

  /** RLCA, RLA, RRCA, RRA: the result goes to A and Z is always cleared. */
  function RotateA(m: Machine, r: Shifted): Machine
  {
    m.(rf := m.rf.Set8(A, r.v).SetFlags(false, false, false, r.out))
  }

  /** The CB-prefixed rotates and shifts: the result is stored back and Z tells a zero result. */
  function ShiftInto(m: Machine, d: Src, r: Shifted): (o: Option<Machine>)
    requires m.Valid()
    ensures o.Some? ==> o.value.Valid() && o.value.ime == m.ime
  {
    var m1 :- Store8(m, d, r.v);
    Some(m1.(rf := m1.rf.SetFlags(r.v == 0, false, false, r.out)))
  }

  predicate IsRotateA(op: Opcode)
  {
    op.RLCA? || op.RLA? || op.RRCA? || op.RRA?
  }

  predicate IsShift(op: Opcode)
  {
    op.RLC? || op.RL? || op.RRC? || op.RR? || op.SLA? || op.SRA? || op.SRL?
  }

  /** The rotate or shift an opcode names, applied to `x` with C flag `cy`. */
  function ShiftResult(op: Opcode, x: u8, cy: bool): Shifted
    requires IsRotateA(op) || IsShift(op)
  {
    match op
    case RLCA | RLC(_) => Rlc(x)
    case RLA | RL(_) => Rl(x, cy)
    case RRCA | RRC(_) => Rrc(x)
    case RRA | RR(_) => Rr(x, cy)
    case SLA(_) => Sla(x)
    case SRA(_) => Sra(x)
    case SRL(_) => Srl(x)
  }

  predicate IsCbOp(op: Opcode)
  {
    IsShift(op) || op.SWAP? || op.BIT? || op.SET? || op.RES?
  }

  /** A CB-prefixed instruction once its operand `x` has been read. */
  function CbOp(m: Machine, op: Opcode, x: u8): (r: Option<Machine>)
    requires m.Valid() && IsCbOp(op)
    ensures r.Some? ==> r.value.Valid() && r.value.ime == m.ime
  {
    if IsShift(op) then ShiftInto(m, op.operand, ShiftResult(op, x, m.rf.CyFlag()))
    else if op.SWAP? then
      var m1 :- Store8(m, op.operand, Swap(x));
      Some(m1.(rf := m1.rf.SetFlags(Swap(x) == 0, false, false, false)))
    else if op.BIT? then Some(m.(rf := m.rf.SetFlags(TestBit(x, op.bit), false, true, m.rf.CyFlag())))
    else if op.RES? then Store8(m, op.operand, ResBit(x, op.bit))
    else Store8(m, op.operand, SetBit(x, op.bit))
  }

  /** The rotates and shifts, SWAP, BIT, SET and RES. */
  function BitOps(m: Machine, op: Opcode): (r: Option<Machine>)
    requires m.Valid()
    ensures r.Some? ==> r.value.Valid() && r.value.ime == m.ime
  {
    if IsRotateA(op) then Some(RotateA(m, ShiftResult(op, m.rf.a, m.rf.CyFlag())))
    else if IsCbOp(op) then
      var x :- GetU8(m, op.operand);
      CbOp(m, op, x)
    else None
  }

  // ---------------------------------------------------------------------
  // DAA, the flag instructions and the interrupt enable

  /**
   * The adjustment a BCD-correct DAA adds to A and whether it sets C: the
   * decisions of the source except the one on the high digit after an
   * addition, where 0x60 is added when the carry is set or A is above 0x99.
   * It is the reference `DaaAdjustAsWritten` is compared with.
   */
  function DaaAdjust(a: u8, n: bool, h: bool, cy: bool): (r: (u8, bool))
    ensures r.0 in {0, 6, 0x60, 0x66, 0xFA, 0xA0, 0x9A}
    ensures !n ==> (r.1 <==> cy || a > 0x99)
    ensures n && !cy ==> !r.1
    ensures !n && !h && !cy && a / 0x10 <= 9 && a % 0x10 <= 9 ==> r == (0, false)
  {
    var ln := a % 0x10;
    var hn := a / 0x10;
    if n then
      if !cy then
        (if hn <= 8 && ln >= 6 && h then 0xFA else 0, false)
      else if hn >= 7 && !h && ln <= 9 then (0xA0, true)
      else if hn >= 6 && h && ln >= 6 then (0x9A, true)
      else (0, false)
    else
      var low := if ln >= 10 || h then 6 else 0;
      if a > 0x99 || cy then (low + 0x60, true) else (low, false)
  }

  /** DAA exactly as the source decides it: 0x60 is added when the carry is set or the high digit is 10 or more. */
  function DaaAdjustAsWritten(a: u8, n: bool, h: bool, cy: bool): (r: (u8, bool))
    ensures n ==> r == DaaAdjust(a, n, h, cy)
    ensures !n ==> (r.1 <==> cy || a >= 0xA0)
    ensures r != DaaAdjust(a, n, h, cy) <==> !n && !cy && 0x9A <= a <= 0x9F
  {
    var ln := a % 0x10;
    var hn := a / 0x10;
    if n then DaaAdjust(a, n, h, cy)
    else
      var low := if ln >= 10 || h then 6 else 0;
      if hn >= 10 || cy then (low + 0x60, true) else (low, false)
  }

  /** The BCD-correct DAA applied to A and the flags; the result is `(a + to_add) as u8`. */
  function Daa(a: u8, n: bool, h: bool, cy: bool): (r: Out8)
    ensures r.flags.n == n && !r.flags.h && (r.flags.z <==> r.v == 0)
    ensures !n ==> (r.flags.cy <==> cy || a > 0x99)
    ensures !n && !h && !cy && a / 0x10 <= 9 && a % 0x10 <= 9 ==> r == Out8(a, Flags(a == 0, false, false, false))
  {
    var (add, setCy) := DaaAdjust(a, n, h, cy);
    var r := (a + add) % 0x100;
    Out8(r, Flags(r == 0, n, false, setCy))
  }

  /** DAA as the source computes it, which the engine runs; the result is `(a + to_add) as u8`. */
  function DaaAsWritten(a: u8, n: bool, h: bool, cy: bool): (r: Out8)
    ensures r.flags.n == n && !r.flags.h && (r.flags.z <==> r.v == 0)
    ensures n ==> r == Daa(a, n, h, cy)
    ensures r != Daa(a, n, h, cy) <==> !n && !cy && 0x9A <= a <= 0x9F
  {
    var (add, setCy) := DaaAdjustAsWritten(a, n, h, cy);
    var r := (a + add) % 0x100;
    Out8(r, Flags(r == 0, n, false, setCy))
  }

  /** DAA, CPL, CCF, SCF: the register file after each. */
  function FlagOp(rf: RegFile, op: Opcode): (r: RegFile)
    requires op.DAA? || op.CPL? || op.CCF? || op.SCF?
    ensures r == rf.(a := r.a, f := r.f) && r.f % 0x10 == 0
    ensures op.DAA? ==> var o := DaaAsWritten(rf.a, rf.NFlag(), rf.HFlag(), rf.CyFlag());
      r.a == o.v && r.ZFlag() == o.flags.z && r.NFlag() == rf.NFlag() && !r.HFlag() && r.CyFlag() == o.flags.cy
    ensures op.CPL? ==> r.a == 0xFF - rf.a && r.NFlag() && r.HFlag() && r.ZFlag() == rf.ZFlag() && r.CyFlag() == rf.CyFlag()
    ensures op.CCF? ==> r.a == rf.a && r.CyFlag() == !rf.CyFlag() && r.ZFlag() == rf.ZFlag() && r.NFlag() == rf.NFlag() && r.HFlag() == rf.HFlag()
    ensures op.SCF? ==> r.a == rf.a && r.CyFlag() && !r.NFlag() && !r.HFlag() && r.ZFlag() == rf.ZFlag()
  {
    if op.DAA? then
      var o := DaaAsWritten(rf.a, rf.NFlag(), rf.HFlag(), rf.CyFlag());
      FlagsRoundTrip(rf.Set8(A, o.v), o.flags.z, o.flags.n, o.flags.h, o.flags.cy);
      WriteFlags(rf.Set8(A, o.v), o.flags)
    else if op.CPL? then
      var rf1 := rf.Set8(A, 0xFF - rf.a);
      FlagsRoundTrip(rf1, rf1.ZFlag(), true, true, rf1.CyFlag());
      rf1.SetFlags(rf1.ZFlag(), true, true, rf1.CyFlag())
    else if op.CCF? then
      FlagsRoundTrip(rf, rf.ZFlag(), rf.NFlag(), rf.HFlag(), !rf.CyFlag());
      rf.SetFlags(rf.ZFlag(), rf.NFlag(), rf.HFlag(), !rf.CyFlag())
    else
      FlagsRoundTrip(rf, rf.ZFlag(), false, false, true);
      rf.SetFlags(rf.ZFlag(), false, false, true)
  }

  /** The flag instructions and DI, EI. */
  function Misc(m: Machine, op: Opcode): (r: Option<Machine>)
    requires m.Valid()
    ensures r.Some? ==> r.value.Valid()
  {
    if op.DI? then Some(m.(ime := false))
    else if op.EI? then Some(m.(ime := true))
    else if op.DAA? || op.CPL? || op.CCF? || op.SCF? then Some(m.(rf := FlagOp(m.rf, op)))
    else None
  }

  // ---------------------------------------------------------------------
  // Jumps, calls and returns

  /** The state after an instruction's own work, before `inc_pc`. */
  datatype After = After(m: Machine, incPc: bool, cycles: nat)

  predicate IsControl(op: Opcode)
  {
    op.JP? || op.JR? || op.CALL? || op.RET? || op.RETI? || op.RST?
  }

  /** PC plus the signed offset, wrapping around: the reference the source's JR target is compared with. */
  function JrTarget(pc: u16, offset: i8): (t: u16)
    ensures 0 <= pc + offset < 0x1_0000 ==> t == pc + offset
    ensures pc + offset < 0 ==> t == pc + offset + 0x1_0000
    ensures pc + offset >= 0x1_0000 ==> t == pc + offset - 0x1_0000
  {
    Wrap16(pc + offset)
  }

  /** `offset * -1` in `i8`, which wraps for -128. */
  function NegI8(x: i8): i8
  {
    if x == -128 then -128 else -x
  }

  /** The taken JR target as the source computes it, which the engine runs: `pc + offset as u16`, or `pc - (offset * -1) as u16`. */
  function JrTargetAsWritten(pc: u16, offset: i8): (t: u16)
    ensures offset != -128 ==> t == JrTarget(pc, offset)
    ensures offset == -128 ==> t == (pc + 128) % 0x1_0000 && t != JrTarget(pc, offset)
  {
    if offset >= 0 then Wrap16(pc + offset) else Wrap16(pc - Wrap16(NegI8(offset)))
  }

  /** `push_pc(n)`: PC + n is stored high byte at SP - 1 and low byte at SP - 2, and SP moves down by 2. */
  function PushPc(m: Machine, n: u16): (r: Machine)
    requires m.Valid()
    ensures r.Valid() && r.ime == m.ime
  {
    var pc := Wrap16(m.rf.pc + n);
    var sp := m.rf.sp;
    var mem := m.mem[Wrap16(sp - 1) := pc / 0x100][Wrap16(sp - 2) := pc % 0x100];
    Machine(m.rf.Set16(SP, Wrap16(sp - 2)), m.ime, mem)
  }

  /** `pop_pc`: PC is the low byte at SP and the high byte at SP + 1, and SP moves up by 2. */
  function PopPc(m: Machine): (r: Machine)
    requires m.Valid()
    ensures r.Valid() && r.ime == m.ime
  {
    var sp := m.rf.sp;
    var addr := Combine(m.mem[Wrap16(sp + 1)], m.mem[sp]);
    m.(rf := m.rf.Set16(PC, addr).Set16(SP, Wrap16(sp + 2)))
  }

  function Control(m: Machine, i: Instr): (r: Option<After>)
    requires m.Valid() && BranchCost(i) && i.nBytes < 0x1_0000
    ensures r.Some? ==> r.value.m.Valid()
  {
    match i.opcode
    case JP(c, t) =>
      if Matches(m.rf, c) then
        var v :- GetU16(m.rf, t);
        Some(After(m.(rf := m.rf.Set16(PC, v)), false, i.cycles))
      else Some(After(m, true, i.cycles - 1))
    case JR(c, offset) =>
      if Matches(m.rf, c) then Some(After(m.(rf := m.rf.Set16(PC, JrTargetAsWritten(m.rf.pc, offset))), true, i.cycles))
      else Some(After(m, true, i.cycles - 1))
    case CALL(c, addr) =>
      if Matches(m.rf, c) then
        var m1 := PushPc(m, i.nBytes);
        Some(After(m1.(rf := m1.rf.Set16(PC, addr)), false, i.cycles))
      else Some(After(m, true, i.cycles - 3))
    case RET(c) =>
      if Matches(m.rf, c) then Some(After(PopPc(m), false, i.cycles))
      else Some(After(m, true, i.cycles - 3))
    case RETI => Some(After(PopPc(m.(ime := true)), false, i.cycles))
    case RST(v) =>
      var m1 := PushPc(m, i.nBytes);
      Some(After(m1.(rf := m1.rf.Set16(PC, v)), false, i.cycles))
    case _ => None
  }

  // ---------------------------------------------------------------------
  // One instruction

  predicate IsLoad(op: Opcode)
  {
    op.NOP? || op.LD8? || op.LD8I? || op.LD8D? || op.LD16? || op.PUSH? || op.POP?
  }

  predicate IsArith8(op: Opcode)
  {
    IsAluOp(op) || op.INC8? || op.DEC8?
  }

  predicate IsArith16(op: Opcode)
  {
    op.ADD16? || op.INC16? || op.DEC16?
  }

  predicate IsMisc(op: Opcode)
  {
    op.DAA? || op.CPL? || op.CCF? || op.SCF? || op.DI? || op.EI?
  }

  /** HALT and STOP reach `unimplemented!()`, an invalid byte `panic!`. */
  predicate IsUnimplemented(op: Opcode)
  {
    op.HALT? || op.STOP? || op.INVALID?
  }

  /** Every opcode that is not a jump, call or return. */
  function Plain(m: Machine, op: Opcode): (r: Option<Machine>)
    requires m.Valid()
    ensures r.Some? ==> r.value.Valid()
  {
    if IsLoad(op) then Loads(m, op)
    else if IsArith8(op) then Arith8(m, op)
    else if IsArith16(op) then Arith16(m, op)
    else if IsMisc(op) then Misc(m, op)
    else if IsUnimplemented(op) then None
    else BitOps(m, op)
  }

  /** The body of `eval` for a decoded instruction, followed by `inc_pc(n_bytes)` unless a jump took place. */
  function Execute(m: Machine, i: Instr): (o: Outcome)
    requires m.Valid() && BranchCost(i) && i.nBytes < 0x1_0000
    ensures o.Next? ==> o.m.Valid()
  {
    var after :=
      if IsControl(i.opcode) then Control(m, i)
      else match Plain(m, i.opcode)
        case None => None
        case Some(m1) => Some(After(m1, true, i.cycles));
    match after
    case None => Panic
    case Some(a) => Next(if a.incPc then a.m.(rf := a.m.rf.IncPc(i.nBytes)) else a.m, a.cycles)
  }

  /** The three bytes at PC the decoder reads (`get_slice(pc, 3)`); reading past the end panics. */
  function Fetch(mem: seq<u8>, pc: u16): (w: Option<seq<u8>>)
    requires |mem| == MEMORY_SIZE
    ensures w.Some? ==> |w.value| == 3
  {
    if pc + 3 <= MEMORY_SIZE then Some(mem[pc..pc + 3]) else None
  }

  /** `eval`: decode the instruction at PC and execute it; the outcome carries the cycle count. */
  function Step(m: Machine): (o: Outcome)
    requires m.Valid()
    ensures o.Next? ==> o.m.Valid()
  {
    match Fetch(m.mem, m.rf.pc)
    case None => Panic
    case Some(w) =>
      BranchCosts(w);
      Execute(m, Disassemble(w))
  }
}
