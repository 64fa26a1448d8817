/**
 * The processor (src/cpu/mod.rs, src/cpu/eval.rs): the register file, the
 * interrupt master enable and the `halted`/`debug` switches, and `eval`,
 * which decodes the instruction at PC and carries it out in place on the
 * registers and the memory bus.  Each method is proved against the function
 * of module Exec that gives its effect as a value; a method returns a failure
 * (`false` or `None`) exactly where the source panics, and then says nothing
 * about the state, which the panic abandons.
 */
module Cpu {
  import opened Bits
  import opened Wrappers
  import opened Registers
  import opened Instr
  import opened Alu
  import opened Hardware
  import opened FlatMemoryBus
  import opened Exec
  import ExecFacts

  class Cpu {
    const registers: Registers
    var ime: bool
    var halted: bool
    var debug: bool

    /** The state `eval` works on, as a value. */
    ghost function State(bus: MemoryBus): Machine
      reads this, registers, bus, bus.memory
    {
      Machine(registers.Model(), ime, bus.Contents())
    }

    /** `new(mode)`: every register zero except A = 0x11 on a Game Boy Color; interrupts disabled, not halted. */
    constructor (mode: Mode)
      ensures fresh(registers)
      ensures registers.Model() == if mode == CGB then Zero.(a := 0x11) else Zero
      ensures !ime && !halted && !debug
    {
      var r := new Registers();
      if mode == CGB {
        r.Set8(A, 0x11);
      }
      registers := r;
      ime, halted, debug := false, false, false;
    }

    /** `skip_boot_rom`: execution starts at the cartridge entry point 0x100. */
    method SkipBootRom()
      modifies registers
      ensures registers.Model() == old(registers.Model()).(pc := 0x100)
    {
      registers.Set16(PC, 0x100);
    }

    method EnableDebug()
      modifies this
      ensures debug && ime == old(ime) && halted == old(halted)
    {
      debug := true;
    }

    /** `step`: one `eval`, returning its cycle count. */
    method Step(bus: MemoryBus) returns (cycles: Option<nat>)
      requires bus.Valid()
      modifies this, registers, bus.memory
      ensures var o := Exec.Step(old(State(bus)));
        (cycles.None? <==> o.Panic?) && (o.Next? ==> cycles == Some(o.cycles) && State(bus) == o.m)
    {
      cycles := Eval(bus);
    }

    /**
     * `eval`: reads the three bytes at PC, decodes them, runs the instruction
     * and moves PC past it unless it jumped.  `None` where the source panics.
     */
    method Eval(bus: MemoryBus) returns (cycles: Option<nat>)
      requires bus.Valid()
      modifies this, registers, bus.memory
      ensures var o := Exec.Step(old(State(bus)));
        (cycles.None? <==> o.Panic?) && (o.Next? ==> cycles == Some(o.cycles) && State(bus) == o.m)
    {
      ghost var m := State(bus);
      var bytes := new u8[3];
      var fetched := bus.ReadBytes(registers.Pc(), bytes);
      if !fetched {
        return None;
      }
      assert Fetch(m.mem, m.rf.pc) == Some(bytes[..]);
      BranchCosts(bytes[..]);
      var instr := Disassemble(bytes[..]);
      var incPc := true;
      var n := instr.cycles;
      if IsControl(instr.opcode) {
        ExecFacts.ExecuteControl(m, instr);
        var ok;
        ok, incPc, n := EvalControl(instr, bus);
        if !ok {
          return None;
        }
      } else {
        ExecFacts.ExecutePlain(m, instr);
        var ok := EvalPlain(instr.opcode, bus);
        if !ok {
          return None;
        }
      }
      if incPc {
        registers.IncPc(instr.nBytes);
      }
      cycles := Some(n);
    }

    /** The arms of `eval` for every opcode that is not a jump, call or return. */
    method EvalPlain(op: Opcode, bus: MemoryBus) returns (ok: bool)
      requires bus.Valid() && !IsControl(op)
      modifies this, registers, bus.memory
      ensures ok <==> Plain(old(State(bus)), op).Some?
      ensures ok ==> State(bus) == Plain(old(State(bus)), op).value
    {
      if IsLoad(op) {
        ok := EvalLoad(op, bus);
      } else if IsArith8(op) {
        ok := EvalArith8(op, bus);
      } else if IsArith16(op) {
        ok := EvalArith16(op, bus);
      } else if IsMisc(op) {
        EvalMisc(op, bus);
        ok := true;
      } else if IsUnimplemented(op) {
        ok := false;
      } else {
        ok := EvalBitOp(op, bus);
      }
    }

    // -------------------------------------------------------------------
    // Operands

    /** `flag_match`. */
    predicate FlagMatch(fc: FlagCondition)
      reads this, registers
    {
      match fc
      case IfZ => registers.ZFlag()
      case IfNZ => !registers.ZFlag()
      case IfC => registers.CyFlag()
      case IfNC => !registers.CyFlag()
      case Always => true
    }

    /** `get_u8`. */
    method GetU8(src: Src, bus: MemoryBus) returns (v: Option<u8>)
      requires bus.Valid()
      ensures v == Exec.GetU8(State(bus), src)
    {
      match src
      case Reg(r) =>
        v := if r.Is8() then Some(registers.Get8(r)) else None;
      case D8(d8) =>
        v := Some(d8);
      case Deref(r) =>
        if r == C {
          v := Some(bus.Get8(0xFF00 + registers.Get8(C)));
        } else if r.Is8() {
          v := None;
        } else {
          v := Some(bus.Get8(registers.Get16(r)));
        }
      case A8(a8) =>
        v := Some(bus.Get8(0xFF00 + a8));
      case A16(a16) =>
        v := Some(bus.Get8(a16));
      case D16(_) | I8(_) =>
        v := None;
    }

    /** `ld8`: reads `src`, then writes the byte to the register or address `dst` names. */
    method Ld8(dst: Src, src: Src, bus: MemoryBus) returns (ok: bool)
      requires bus.Valid()
      modifies registers, bus.memory
      ensures ok <==> Load8(old(State(bus)), dst, src).Some?
      ensures ok ==> State(bus) == Load8(old(State(bus)), dst, src).value
    {
      var v := GetU8(src, bus);
      if v.None? {
        return false;
      }
      match dst {
      case Reg(r) =>
        if !r.Is8() {
          return false;
        }
        registers.Set8(r, v.value);
      case Deref(r) =>
        if r == C {
          bus.Set8(0xFF00 + registers.Get8(C), v.value);
        } else if r.Is8() {
          return false;
        } else {
          bus.Set8(registers.Get16(r), v.value);
        }
      case A16(a16) =>
        bus.Set8(a16, v.value);
      case A8(a8) =>
        bus.Set8(0xFF00 + a8, v.value);
      case D8(_) | D16(_) | I8(_) =>
        return false;
      }
      ok := true;
    }

    /** `get_u16`. */
    method GetU16(src: Src) returns (v: Option<u16>)
      ensures v == Exec.GetU16(registers.Model(), src)
    {
      match src
      case Reg(r) =>
        v := if r.Is8() then None else Some(registers.Get16(r));
      case D16(d16) =>
        v := Some(d16);
      case I8(i8) =>
        v := Some(Wrap16(i8));
      case Deref(_) | A8(_) | A16(_) | D8(_) =>
        v := None;
    }

    /** `ld16`: a 16-bit register, or two bytes of memory through `set16`. */
    method Ld16(dst: Src, src: Src, bus: MemoryBus) returns (ok: bool)
      requires bus.Valid()
      modifies registers, bus.memory
      ensures ok <==> Load16(old(State(bus)), dst, src).Some?
      ensures ok ==> State(bus) == Load16(old(State(bus)), dst, src).value
    {
      var v := GetU16(src);
      if v.None? {
        return false;
      }
      match dst
      case Reg(r) =>
        if r.Is8() {
          return false;
        }
        registers.Set16(r, v.value);
        ok := true;
      case A16(a16) =>
        ok := bus.Set16(a16, v.value);
      case Deref(_) | A8(_) | D8(_) | D16(_) | I8(_) =>
        ok := false;
    }

    /** `push_pc(n)`: stores PC + n below SP, high byte first, and moves SP down by two. */
    method PushPc(n: u16, bus: MemoryBus)
      requires bus.Valid()
      modifies registers, bus.memory
      ensures State(bus) == Exec.PushPc(old(State(bus)), n)
    {
      var pc := Wrap16(registers.Get16(PC) + n);
      var sp: int := registers.Get16(SP);
      var hb := pc / 0x100;
      var lb := pc % 0x100;
      bus.Set8(Wrap16(sp - 1), hb);
      bus.Set8(Wrap16(sp - 2), lb);
      registers.Set16(SP, Wrap16(sp - 2));
    }

    /** `pop_pc`: PC from the low byte at SP and the high byte above it; SP moves up by two. */
    method PopPc(bus: MemoryBus)
      requires bus.Valid()
      modifies registers
      ensures State(bus) == Exec.PopPc(old(State(bus)))
    {
      var sp: int := registers.Get16(SP);
      var lb := bus.Get8(sp);
      var hb := bus.Get8(Wrap16(sp + 1));
      registers.Set16(PC, Combine(hb, lb));
      registers.Set16(SP, Wrap16(sp + 2));
    }

    // -------------------------------------------------------------------
    // The arms of `eval`, family by family

    /** NOP, the 8- and 16-bit loads, PUSH and POP. */
    method EvalLoad(op: Opcode, bus: MemoryBus) returns (ok: bool)
      requires bus.Valid()
      requires IsLoad(op)
      modifies registers, bus.memory
      ensures ok <==> Loads(old(State(bus)), op).Some?
      ensures ok ==> State(bus) == Loads(old(State(bus)), op).value
    {
      if op.NOP? {
        ok := true;
      } else if op.LD8? || op.LD8I? || op.LD8D? {
        ok := LoadByte(op, bus);
      } else if op.LD16? {
        ok := LoadWord(op.dst, op.src, bus);
      } else if op.PUSH? {
        ok := Push(op.reg, bus);
      } else {
        ok := Pop(op.reg, bus);
      }
    }

    /** LD8, LD8I, LD8D. */
    method LoadByte(op: Opcode, bus: MemoryBus) returns (ok: bool)
      requires bus.Valid() && (op.LD8? || op.LD8I? || op.LD8D?)
      modifies registers, bus.memory
      ensures ok <==> Exec.LoadByte(old(State(bus)), op).Some?
      ensures ok ==> State(bus) == Exec.LoadByte(old(State(bus)), op).value
    {
      ok := Ld8(op.dst, op.src, bus);
      if ok && op.LD8I? {
        registers.Set16(HL, Wrap16(registers.Get16(HL) + 1));
      } else if ok && op.LD8D? {
        registers.Set16(HL, Wrap16(registers.Get16(HL) - 1));
      }
    }

    /** LD16, with `LD HL, SP+r8` done in place. */
    method LoadWord(d: Src, s: Src, bus: MemoryBus) returns (ok: bool)
      requires bus.Valid()
      modifies registers, bus.memory
      ensures ok <==> Exec.LoadWord(old(State(bus)), d, s).Some?
      ensures ok ==> State(bus) == Exec.LoadWord(old(State(bus)), d, s).value
    {
      if d == Reg(HL) && s.I8? {
        var o := AddSigned16(registers.Get16(SP), s.i8);
        registers.Set16(HL, o.v);
        registers.SetFlags(false, false, o.h, o.cy);
        ok := true;
      } else {
        ok := Ld16(d, s, bus);
      }
    }

    /** PUSH. */
    method Push(reg: Register, bus: MemoryBus) returns (ok: bool)
      requires bus.Valid()
      modifies registers, bus.memory
      ensures ok <==> Exec.Push(old(State(bus)), reg).Some?
      ensures ok ==> State(bus) == Exec.Push(old(State(bus)), reg).value
    {
      var sp: int := registers.Get16(SP);
      registers.Set16(SP, Wrap16(sp - 2));
      if reg.Is8() {
        return false;
      }
      ok := bus.Set16(Wrap16(sp - 2), registers.Get16(reg));
    }

    /** POP. */
    method Pop(reg: Register, bus: MemoryBus) returns (ok: bool)
      requires bus.Valid()
      modifies registers
      ensures ok <==> Exec.Pop(old(State(bus)), reg).Some?
      ensures ok ==> State(bus) == Exec.Pop(old(State(bus)), reg).value
    {
      var sp: int := registers.Get16(SP);
      registers.Set16(SP, Wrap16(sp + 2));
      var v := bus.Get16(sp);
      if v.None? || reg.Is8() {
        return false;
      }
      registers.Set16(reg, v.value);
      ok := true;
    }

    /** Writes an 8-bit result to A and its flags to F. */
    method SetAccumulator(o: Out8)
      modifies registers
      ensures registers.Model() == WriteFlags(old(registers.Model()).Set8(A, o.v), o.flags)
    {
      registers.Set8(A, o.v);
      registers.SetFlags(o.flags.z, o.flags.n, o.flags.h, o.flags.cy);
    }

    /** ADD8, ADC8, SUB8, SBC8, AND, OR, XOR, CP, INC8, DEC8. */
    method EvalArith8(op: Opcode, bus: MemoryBus) returns (ok: bool)
      requires bus.Valid()
      requires IsArith8(op)
      modifies registers, bus.memory
      ensures ok <==> Arith8(old(State(bus)), op).Some?
      ensures ok ==> State(bus) == Arith8(old(State(bus)), op).value
    {
      var a := registers.Get8(A);
      var cy := registers.CyFlag();
      var b := GetU8(op.operand, bus);
      if b.None? {
        return false;
      }
      if IsAluOp(op) {
        var o := AluResult(op, a, b.value, cy);
        if op.CP? {
          registers.SetFlags(o.flags.z, o.flags.n, o.flags.h, o.flags.cy);
        } else {
          SetAccumulator(o);
        }
        ok := true;
      } else {
        ok := Ld8(op.operand, D8(IncDec(op, b.value, false).v), bus);
        if ok {
          var f := IncDec(op, b.value, registers.CyFlag()).flags;
          registers.SetFlags(f.z, f.n, f.h, f.cy);
        }
      }
    }

    /** ADD16, INC16, DEC16. */
    method EvalArith16(op: Opcode, bus: MemoryBus) returns (ok: bool)
      requires bus.Valid()
      requires IsArith16(op)
      modifies registers
      ensures ok <==> Arith16(old(State(bus)), op).Some?
      ensures ok ==> State(bus) == Arith16(old(State(bus)), op).value
    {
      if op.reg.Is8() {
        return false;
      }
      if op.ADD16? {
        ok := EvalAdd16(op.reg, op.operand, bus);
      } else {
        EvalIncDec16(op, bus);
        ok := true;
      }
    }

    /** INC16 and DEC16: the register pair steps by one, wrapping at 16 bits; the flags are kept. */
    method EvalIncDec16(op: Opcode, bus: MemoryBus)
      requires bus.Valid()
      requires (op.INC16? || op.DEC16?) && !op.reg.Is8()
      modifies registers
      ensures Arith16(old(State(bus)), op).Some?
      ensures State(bus) == Arith16(old(State(bus)), op).value
    {
      var v: int := registers.Get16(op.reg);
      registers.Set16(op.reg, Wrap16(if op.INC16? then v + 1 else v - 1));
    }

    /** ADD16: `ADD SP, r8` clears Z and N; the other forms keep Z and clear N. */
    method EvalAdd16(reg: Register, s: Src, bus: MemoryBus) returns (ok: bool)
      requires bus.Valid() && !reg.Is8()
      modifies registers
      ensures ok <==> Arith16(old(State(bus)), ADD16(reg, s)).Some?
      ensures ok ==> State(bus) == Arith16(old(State(bus)), ADD16(reg, s)).value
    {
      if s.I8? {
        var o := AddSigned16(registers.Get16(reg), s.i8);
        registers.Set16(reg, o.v);
        registers.SetFlags(false, false, o.h, o.cy);
      } else {
        var b := GetU16(s);
        if b.None? {
          return false;
        }
        var o := Add16(registers.Get16(reg), b.value);
        registers.Set16(reg, o.v);
        registers.SetFlags(registers.ZFlag(), false, o.h, o.cy);
      }
      ok := true;
    }

    /** RLCA, RLA, RRCA, RRA: the result to A, Z cleared, C the bit shifted out. */
    method RotateAccumulator(r: Shifted)
      modifies registers
      ensures registers.Model() == old(registers.Model()).Set8(A, r.v).SetFlags(false, false, false, r.out)
    {
      registers.Set8(A, r.v);
      registers.SetFlags(false, false, false, r.out);
    }

    /** The CB-prefixed rotates and shifts: `ld8(dst, D8(r))`, then Z for a zero result and C the bit shifted out. */
    method ShiftInto(d: Src, r: Shifted, bus: MemoryBus) returns (ok: bool)
      requires bus.Valid()
      modifies registers, bus.memory
      ensures ok <==> Exec.ShiftInto(old(State(bus)), d, r).Some?
      ensures ok ==> State(bus) == Exec.ShiftInto(old(State(bus)), d, r).value
    {
      ok := Ld8(d, D8(r.v), bus);
      if ok {
        registers.SetFlags(r.v == 0, false, false, r.out);
      }
    }

    /** The rotates, shifts, SWAP, BIT, SET and RES. */
    method EvalBitOp(op: Opcode, bus: MemoryBus) returns (ok: bool)
      requires bus.Valid()
      requires IsRotateA(op) || IsCbOp(op)
      modifies registers, bus.memory
      ensures ok <==> BitOps(old(State(bus)), op).Some?
      ensures ok ==> State(bus) == BitOps(old(State(bus)), op).value
    {
      if IsRotateA(op) {
        RotateAccumulator(ShiftResult(op, registers.Get8(A), registers.CyFlag()));
        return true;
      }
      var x := GetU8(op.operand, bus);
      if x.None? {
        return false;
      }
      ok := EvalCbOp(op, x.value, bus);
    }

    /** A CB-prefixed instruction once its operand `x` has been read. */
    method EvalCbOp(op: Opcode, x: u8, bus: MemoryBus) returns (ok: bool)
      requires bus.Valid() && IsCbOp(op)
      modifies registers, bus.memory
      ensures ok <==> CbOp(old(State(bus)), op, x).Some?
      ensures ok ==> State(bus) == CbOp(old(State(bus)), op, x).value
    {
      if IsShift(op) {
        ok := ShiftInto(op.operand, ShiftResult(op, x, registers.CyFlag()), bus);
      } else if op.SWAP? {
        ok := Ld8(op.operand, D8(Swap(x)), bus);
        if ok {
          registers.SetFlags(Swap(x) == 0, false, false, false);
        }
      } else if op.BIT? {
        registers.SetFlags(TestBit(x, op.bit), false, true, registers.CyFlag());
        ok := true;
      } else if op.RES? {
        ok := Ld8(op.operand, D8(ResBit(x, op.bit)), bus);
      } else {
        ok := Ld8(op.operand, D8(SetBit(x, op.bit)), bus);
      }
    }

    /**
     * DAA, building the adjustment and the new carry in mutable locals the
     * way the source does, high-digit test included.
     */
    method DecimalAdjust()
      modifies registers
      ensures var rf := old(registers.Model());
        var o := DaaAsWritten(rf.a, rf.NFlag(), rf.HFlag(), rf.CyFlag());
        registers.Model() == WriteFlags(rf.Set8(A, o.v), o.flags)
    {
      var a: int := registers.Get8(A);
      var ln := a % 0x10;
      var hn := a / 0x10;
      var toAdd := 0;
      var h := registers.HFlag();
      var cy := registers.CyFlag();
      var setCy := false;
      if registers.NFlag() {
        if !cy {
          if hn <= 8 && ln >= 6 && h {
            toAdd := 0xFA;
          }
        } else {
          if hn >= 7 && !h && ln <= 9 {
            toAdd := 0xA0;
            setCy := true;
          } else if hn >= 6 && h && ln >= 6 {
            toAdd := 0x9A;
            setCy := true;
          }
        }
      } else {
        if ln >= 10 || h {
          toAdd := toAdd + 6;
        }
        if hn >= 10 || cy {
          toAdd := toAdd + 0x60;
          setCy := true;
        }
      }
      var r := (a + toAdd) % 0x100;
      var n := registers.NFlag();
      registers.Set8(A, r);
      registers.SetFlags(r == 0, n, false, setCy);
    }

    /** DAA, CPL, CCF, SCF, DI, EI: none of them can fail. */
    method EvalMisc(op: Opcode, bus: MemoryBus)
      requires bus.Valid() && IsMisc(op)
      modifies this, registers
      ensures Misc(old(State(bus)), op) == Some(State(bus))
    {
      if op.DI? {
        ime := false;
      } else if op.EI? {
        ime := true;
      } else {
        EvalFlagOp(op);
      }
    }

    /** DAA, CPL, CCF, SCF: A and the flags. */
    method EvalFlagOp(op: Opcode)
      requires op.DAA? || op.CPL? || op.CCF? || op.SCF?
      modifies registers
      ensures registers.Model() == FlagOp(old(registers.Model()), op)
    {
      if op.DAA? {
        DecimalAdjust();
      } else if op.CPL? {
        registers.Set8(A, 0xFF - registers.Get8(A));
        registers.SetFlags(registers.ZFlag(), true, true, registers.CyFlag());
      } else if op.CCF? {
        registers.SetFlags(registers.ZFlag(), registers.NFlag(), registers.HFlag(), !registers.CyFlag());
      } else {
        registers.SetFlags(registers.ZFlag(), false, false, true);
      }
    }

    /** JP, JR, CALL, RET, RETI, RST: a branch not taken costs less and moves PC on. */
    method EvalControl(instr: Instr, bus: MemoryBus) returns (ok: bool, incPc: bool, cycles: nat)
      requires bus.Valid() && BranchCost(instr) && instr.nBytes < 0x1_0000 && IsControl(instr.opcode)
      modifies this, registers, bus.memory
      ensures ok <==> Control(old(State(bus)), instr).Some?
      ensures ok ==> Control(old(State(bus)), instr).value == After(State(bus), incPc, cycles)
    {
      incPc := true;
      cycles := instr.cycles;
      match instr.opcode {
      case JP(fc, t) =>
        if FlagMatch(fc) {
          var r := GetU16(t);
          if r.None? {
            ok := false;
            return;
          }
          registers.Set16(PC, r.value);
          incPc := false;
        } else {
          cycles := cycles - 1;
        }
      case JR(fc, offset) =>
        if FlagMatch(fc) {
          registers.Set16(PC, JrTargetAsWritten(registers.Get16(PC), offset));
        } else {
          cycles := cycles - 1;
        }
      case CALL(fc, addr) =>
        if FlagMatch(fc) {
          PushPc(instr.nBytes, bus);
          registers.Set16(PC, addr);
          incPc := false;
        } else {
          cycles := cycles - 3;
        }
      case RET(fc) =>
        if FlagMatch(fc) {
          PopPc(bus);
          incPc := false;
        } else {
          cycles := cycles - 3;
        }
      case RETI =>
        ime := true;
        PopPc(bus);
        incPc := false;
      case RST(v) =>
        PushPc(instr.nBytes, bus);
        registers.Set16(PC, v);
        incPc := false;
      }
      ok := true;
    }
  }
}
