/** The processor of the first generation, which owns its memory bus; each method is proved against module EarlyExec. */
module EarlyCpu {
  import opened Bits
  import opened Wrappers
  import opened Registers
  import opened FlatMemoryBus
  import opened EarlyOpcode
  import opened EarlyExec

  // ---------------------------------------------------------------------
  // The processor as the source holds it

  class Cpu {
    const memoryBus: MemoryBus
    const registers: Registers

    ghost predicate Valid()
      reads this, memoryBus
    {
      memoryBus.Valid()
    }

    ghost function Model(): State
      requires Valid()
      reads this, registers, memoryBus, memoryBus.memory
    {
      State(registers.Model(), memoryBus.Contents())
    }

    /** `new(memory_bus)`: the given bus and a zeroed register file. */
    constructor (memoryBus: MemoryBus)
      requires memoryBus.Valid()
      ensures Valid() && fresh(registers)
      ensures this.memoryBus == memoryBus && registers.Model() == Zero
    {
      this.memoryBus := memoryBus;
      registers := new Registers();
    }

    /** `step`; `None` where the source panics. */
    method Step() returns (cycles: Option<nat>)
      requires Valid()
      modifies registers, memoryBus.memory
      ensures var o := EarlyExec.Step(old(Model()));
        (cycles.None? <==> o.Panic?) && (o.Next? ==> cycles == Some(o.cycles) && Model() == o.s)
    {
      var bytes := new u8[3];
      var fetched := memoryBus.ReadBytes(registers.Pc(), bytes);
      if !fetched {
        return None;
      }
      var instr := Disassemble(bytes[..]);
      if instr.None? {
        return None;
      }
      AllTableFacts(bytes[..]);
      var ok := Execute(instr.value.opcode);
      if !ok {
        return None;
      }
      registers.IncPc(instr.value.nBytes);
      cycles := Some(instr.value.cycles);
    }

    /** The match in `step`. */
    method Execute(op: Opcode) returns (ok: bool)
      requires Valid()
      modifies registers, memoryBus.memory
      ensures ok <==> EarlyExec.Execute(old(Model()), op).Some?
      ensures ok ==> Model() == EarlyExec.Execute(old(Model()), op).value
    {
      if op.NOP? || op.HALT? {
        ok := true;
      } else if op.LD8? || op.LD8I? || op.LD8D? {
        ok := LoadByte(op);
      } else if op.LD16? {
        ok := Ld16(op.dst, op.src);
      } else if op.PUSH? {
        ok := Push(op.reg);
      } else {
        ok := Pop(op.reg);
      }
    }

    /** LD8, LD8I, LD8D. */
    method LoadByte(op: Opcode) returns (ok: bool)
      requires Valid() && (op.LD8? || op.LD8I? || op.LD8D?)
      modifies registers, memoryBus.memory
      ensures ok <==> EarlyExec.LoadByte(old(Model()), op).Some?
      ensures ok ==> Model() == EarlyExec.LoadByte(old(Model()), op).value
    {
      ok := Ld8(op.dst, op.src);
      if ok && op.LD8I? {
        registers.Set16(HL, Wrap16(registers.Get16(HL) + 1));
      } else if ok && op.LD8D? {
        registers.Set16(HL, Wrap16(registers.Get16(HL) - 1));
      }
    }

    /** PUSH. */
    method Push(reg: Register) returns (ok: bool)
      requires Valid()
      modifies registers, memoryBus.memory
      ensures ok <==> EarlyExec.Push(old(Model()), reg).Some?
      ensures ok ==> Model() == EarlyExec.Push(old(Model()), reg).value
    {
      var sp: int := registers.Get16(SP);
      registers.Set16(SP, Wrap16(sp - 2));
      if reg.Is8() {
        return false;
      }
      ok := memoryBus.Set16(Wrap16(sp - 2), registers.Get16(reg));
    }

    /** POP. */
    method Pop(reg: Register) returns (ok: bool)
      requires Valid()
      modifies registers
      ensures ok <==> EarlyExec.Pop(old(Model()), reg).Some?
      ensures ok ==> Model() == EarlyExec.Pop(old(Model()), reg).value
    {
      var sp: int := registers.Get16(SP);
      registers.Set16(SP, Wrap16(sp + 2));
      var v := memoryBus.Get16(sp);
      if v.None? || reg.Is8() {
        return false;
      }
      registers.Set16(reg, v.value);
      ok := true;
    }

    /** `ld8`. */
    method Ld8(dst: Dst, src: Src) returns (ok: bool)
      requires Valid()
      modifies registers, memoryBus.memory
      ensures ok <==> Load8(old(Model()), dst, src).Some?
      ensures ok ==> Model() == Load8(old(Model()), dst, src).value
    {
      var v := GetU8(src);
      if v.None? {
        return false;
      }
      match dst {
      case Reg(r) =>
        if !r.Is8() {
          return false;
        }
        registers.Set8(r, v.value);
      case Deref(r) =>
        if r == C {
          memoryBus.Set8(0xFF00 + registers.Get8(C), v.value);
        } else if r.Is8() {
          return false;
        } else {
          memoryBus.Set8(registers.Get16(r), v.value);
        }
      case A16(a16) =>
        memoryBus.Set8(a16, v.value);
      case A8(a8) =>
        memoryBus.Set8(0xFF00 + a8, v.value);
      }
      ok := true;
    }

    /** `get_u8`. */
    method GetU8(src: Src) returns (v: Option<u8>)
      requires Valid()
      ensures v == EarlyExec.GetU8(Model(), src)
    {
      match src
      case Reg(r) =>
        v := if r.Is8() then Some(registers.Get8(r)) else None;
      case D8(d8) =>
        v := Some(d8);
      case Deref(r) =>
        if r == C {
          v := Some(memoryBus.Get8(0xFF00 + registers.Get8(C)));
        } else if r.Is8() {
          v := None;
        } else {
          v := Some(memoryBus.Get8(registers.Get16(r)));
        }
      case A8(a8) =>
        v := Some(memoryBus.Get8(0xFF00 + a8));
      case A16(a16) =>
        v := Some(memoryBus.Get8(a16));
      case D16(_) =>
        v := None;
    }

    /** `ld16`. */
    method Ld16(dst: Dst, src: Src) returns (ok: bool)
      requires Valid()
      modifies registers, memoryBus.memory
      ensures ok <==> Load16(old(Model()), dst, src).Some?
      ensures ok ==> Model() == Load16(old(Model()), dst, src).value
    {
      var v := GetU16(src);
      if v.None? {
        return false;
      }
      match dst {
      case Reg(r) =>
        if r.Is8() {
          return false;
        }
        registers.Set16(r, v.value);
        ok := true;
      case A16(a16) =>
        ok := memoryBus.Set16(a16, v.value);
      case Deref(_) =>
        ok := false;
      case A8(_) =>
        ok := false;
      }
    }

    /** `get_u16`. */
    method GetU16(src: Src) returns (v: Option<u16>)
      ensures v == EarlyExec.GetU16(registers.Model(), src)
    {
      match src
      case Reg(r) =>
        v := if r.Is8() then None else Some(registers.Get16(r));
      case D16(d16) =>
        v := Some(d16);
      case Deref(_) =>
        v := None;
      case A8(_) =>
        v := None;
      case A16(_) =>
        v := None;
      case D8(_) =>
        v := None;
    }
  }
}
