/**
 * Properties of one instruction step (src/cpu/eval.rs) over all states:
 * how PC advances, what an untaken branch costs, the call/return and
 * push/pop stack discipline, the single-bit instructions, DAA, and the
 * panics.
 */
module ExecFacts {
  import opened Bits
  import opened Wrappers
  import opened Registers
  import opened Instr
  import opened Alu
  import opened FlatMemoryBus
  import opened Exec

  /** The opcodes that name PC as the register they write; the decoder produces none of them. */
  predicate WritesPc(op: Opcode)
  {
    match op
    case LD16(d, _) => d == Reg(PC)
    case POP(r) => r == PC
    case ADD16(r, _) => r == PC
    case INC16(r) => r == PC
    case DEC16(r) => r == PC
    case _ => false
  }

  /** Every instruction that neither jumps nor names PC moves PC past itself and costs its decoded cycles; only DI and EI change `ime`. */
  lemma PlainAdvancesPc(m: Machine, i: Instr)
    requires m.Valid() && BranchCost(i) && i.nBytes < 0x1_0000
    requires !IsControl(i.opcode) && !WritesPc(i.opcode)
    ensures Execute(m, i).Next? ==> Execute(m, i).m.rf.pc == (m.rf.pc + i.nBytes) % 0x1_0000
    ensures Execute(m, i).Next? ==> Execute(m, i).cycles == i.cycles
    ensures Execute(m, i).Next? && !i.opcode.DI? && !i.opcode.EI? ==> Execute(m, i).m.ime == m.ime
  {
    var r := Plain(m, i.opcode);
    if r.Some? {
      assert r.value.rf.pc == m.rf.pc by {
        PlainKeepsPc(m, i.opcode);
      }
      if !i.opcode.DI? && !i.opcode.EI? {
        PlainKeepsIme(m, i.opcode);
      }
    }
  }

  lemma PlainKeepsPc(m: Machine, op: Opcode)
    requires m.Valid() && !IsControl(op) && !WritesPc(op)
    ensures Plain(m, op).Some? ==> Plain(m, op).value.rf.pc == m.rf.pc
  {
    LoadsKeepPc(m, op);
    Arith8KeepsPc(m, op);
    Arith16KeepsPc(m, op);
    BitOpsKeepPc(m, op);
    MiscKeepsPc(m, op);
  }

  lemma LoadsKeepPc(m: Machine, op: Opcode)
    requires m.Valid() && !WritesPc(op)
    ensures Loads(m, op).Some? ==> Loads(m, op).value.rf.pc == m.rf.pc
  {
  }

  lemma Arith8KeepsPc(m: Machine, op: Opcode)
    requires m.Valid()
    ensures Arith8(m, op).Some? ==> Arith8(m, op).value.rf.pc == m.rf.pc
  {
  }

  lemma Arith16KeepsPc(m: Machine, op: Opcode)
    requires m.Valid() && !WritesPc(op)
    ensures Arith16(m, op).Some? ==> Arith16(m, op).value.rf.pc == m.rf.pc
  {
  }

  lemma BitOpsKeepPc(m: Machine, op: Opcode)
    requires m.Valid()
    ensures BitOps(m, op).Some? ==> BitOps(m, op).value.rf.pc == m.rf.pc
  {
    if !IsRotateA(op) && IsCbOp(op) && GetU8(m, op.operand).Some? {
      CbOpKeepsPc(m, op, GetU8(m, op.operand).value);
    }
  }

  lemma CbOpKeepsPc(m: Machine, op: Opcode, x: u8)
    requires m.Valid() && IsCbOp(op)
    ensures CbOp(m, op, x).Some? ==> CbOp(m, op, x).value.rf.pc == m.rf.pc
  {
    if IsShift(op) {
      Store8KeepsPc(m, op.operand, ShiftResult(op, x, m.rf.CyFlag()).v);
    } else if op.SWAP? {
      Store8KeepsPc(m, op.operand, Swap(x));
    } else if op.RES? {
      Store8KeepsPc(m, op.operand, ResBit(x, op.bit));
    } else if op.SET? {
      Store8KeepsPc(m, op.operand, SetBit(x, op.bit));
    }
  }

  lemma Store8KeepsPc(m: Machine, d: Src, v: u8)
    requires m.Valid()
    ensures Store8(m, d, v).Some? ==> Store8(m, d, v).value.rf.pc == m.rf.pc
  {
  }

  lemma MiscKeepsPc(m: Machine, op: Opcode)
    requires m.Valid()
    ensures Misc(m, op).Some? ==> Misc(m, op).value.rf.pc == m.rf.pc
  {
  }

  lemma PlainKeepsIme(m: Machine, op: Opcode)
    requires m.Valid() && !IsControl(op) && !op.DI? && !op.EI?
    ensures Plain(m, op).Some? ==> Plain(m, op).value.ime == m.ime
  {
  }

  /** The cycles an untaken conditional branch gives back: 1 for JP and JR, 3 for CALL and RET. */
  function Refund(op: Opcode): nat
  {
    if op.JP? || op.JR? then 1 else 3
  }

  /** A branch whose condition fails only moves PC past itself, and costs the decoded cycles less the refund. */
  lemma UntakenBranch(m: Machine, i: Instr)
    requires m.Valid() && BranchCost(i) && i.nBytes < 0x1_0000
    requires i.opcode.JP? || i.opcode.JR? || i.opcode.CALL? || i.opcode.RET?
    requires !Matches(m.rf, i.opcode.cond)
    ensures i.cycles >= Refund(i.opcode)
    ensures Execute(m, i) == Next(m.(rf := m.rf.IncPc(i.nBytes)), i.cycles - Refund(i.opcode))
  {
    ExecuteControl(m, i);
  }

  /**
   * A taken JR adds the signed offset to PC and then still moves PC past the
   * instruction; for offset -128 the source's negation in `i8` wraps and the
   * jump goes forward by 128 instead.
   */
  lemma TakenJr(m: Machine, c: FlagCondition, offset: i8, cycles: nat)
    requires m.Valid() && Matches(m.rf, c) && cycles == (if c == Always then 3 else 4)
    ensures Execute(m, Instr(JR(c, offset), cycles, 2)) ==
      Next(m.(rf := m.rf.(pc := (m.rf.pc + (if offset == -128 then 128 else offset) + 2) % 0x1_0000)), cycles)
  {
    JrAsWrittenDiffers(m.rf.pc, offset);
  }

  /** A taken JP or CALL, a RET, RETI or RST leaves PC where it put it. */
  lemma TakenJumpTargets(m: Machine, i: Instr)
    requires m.Valid() && BranchCost(i) && i.nBytes < 0x1_0000
    requires Execute(m, i).Next?
    ensures i.opcode.JP? && Matches(m.rf, i.opcode.cond) ==> Execute(m, i).m.rf.pc == GetU16(m.rf, i.opcode.target).value
    ensures i.opcode.CALL? && Matches(m.rf, i.opcode.cond) ==> Execute(m, i).m.rf.pc == i.opcode.addr
    ensures i.opcode.RST? ==> Execute(m, i).m.rf.pc == i.opcode.vector
    ensures (i.opcode.RETI? || (i.opcode.RET? && Matches(m.rf, i.opcode.cond))) ==>
      Execute(m, i).m.rf.pc == Combine(m.mem[Wrap16(m.rf.sp + 1)], m.mem[m.rf.sp])
    ensures i.opcode.RETI? ==> Execute(m, i).m.ime
  {
  }

  /** An instruction that is not a jump runs `Plain` and then moves PC past itself. */
  lemma ExecutePlain(m: Machine, i: Instr)
    requires m.Valid() && BranchCost(i) && i.nBytes < 0x1_0000 && !IsControl(i.opcode)
    ensures Execute(m, i) == match Plain(m, i.opcode)
      case None => Panic
      case Some(m1) => Next(m1.(rf := m1.rf.IncPc(i.nBytes)), i.cycles)
  {
  }

  /** A jump, call or return runs `Control`; PC then moves past the instruction only where `Control` asks for it. */
  lemma ExecuteControl(m: Machine, i: Instr)
    requires m.Valid() && BranchCost(i) && i.nBytes < 0x1_0000 && IsControl(i.opcode)
    ensures Execute(m, i) == match Control(m, i)
      case None => Panic
      case Some(a) => Next(if a.incPc then a.m.(rf := a.m.rf.IncPc(i.nBytes)) else a.m, a.cycles)
  {
  }

  /** Returning from a `push_pc(n)` restores SP and puts PC n bytes past where it was, whatever PC was set to in between. */
  lemma PopPushedPc(m: Machine, n: u16, target: u16)
    requires m.Valid()
    ensures var m1 := PushPc(m, n);
      PopPc(m1.(rf := m1.rf.Set16(PC, target))) == m.(rf := m.rf.IncPc(n), mem := m1.mem)
  {
    var m1 := PushPc(m, n);
    var sp: int := m.rf.sp;
    var pc := Wrap16(m.rf.pc + n);
    assert m1.mem[Wrap16(sp - 1)] == pc / 0x100;
    assert m1.mem[Wrap16(sp - 2)] == pc % 0x100;
    assert Wrap16(Wrap16(sp - 2) + 1) == Wrap16(sp - 1);
    assert Wrap16(Wrap16(sp - 2) + 2) == sp;
    DivUnique(Combine(pc / 0x100, pc % 0x100), 0x100, pc / 0x100, pc % 0x100);
  }

  /** `push_pc(n)` moves SP down by two and changes only the two bytes below the old SP. */
  lemma PushPcFrame(m: Machine, n: u16)
    requires m.Valid()
    ensures var r := PushPc(m, n);
      && r.rf == m.rf.(sp := Wrap16(m.rf.sp - 2))
      && forall a: u16 :: a != Wrap16(m.rf.sp - 1) && a != Wrap16(m.rf.sp - 2) ==> r.mem[a] == m.mem[a]
  {
  }

  /** An unconditional CALL pushes the return address and jumps. */
  lemma CallTaken(m: Machine, addr: u16)
    requires m.Valid()
    ensures Control(m, Instr(CALL(Always, addr), 6, 3)) == Some(After(PushPc(m, 3).(rf := PushPc(m, 3).rf.(pc := addr)), false, 6))
  {
  }

  /** RST pushes the return address and jumps to its vector. */
  lemma RstTaken(m: Machine, v: u8)
    requires m.Valid() && v % 8 == 0 && v < 0x40
    ensures Control(m, Instr(RST(v), 4, 1)) == Some(After(PushPc(m, 1).(rf := PushPc(m, 1).rf.(pc := v)), false, 4))
  {
  }

  /** An unconditional RET pops PC. */
  lemma RetTaken(m: Machine)
    requires m.Valid()
    ensures Control(m, Instr(RET(Always), 4, 1)) == Some(After(PopPc(m), false, 4))
  {
  }

  /**
   * CALL followed by RET returns to the instruction after the CALL with SP
   * restored, after storing the return address as `push_pc` does (see
   * `PushPcFrame`).  Neither moves PC past itself afterwards (see
   * `ExecuteControl`).
   */
  lemma CallThenRet(m: Machine, addr: u16)
    requires m.Valid()
    ensures var c := Control(m, Instr(CALL(Always, addr), 6, 3));
      && c.Some? && !c.value.incPc && c.value.cycles == 6
      && c.value.m == PushPc(m, 3).(rf := PushPc(m, 3).rf.(pc := addr))
      && Control(c.value.m, Instr(RET(Always), 4, 1)) == Some(After(m.(rf := m.rf.IncPc(3), mem := c.value.m.mem), false, 4))
  {
    var m1 := PushPc(m, 3);
    CallTaken(m, addr);
    RetTaken(m1.(rf := m1.rf.Set16(PC, addr)));
    PopPushedPc(m, 3, addr);
  }

  /** RST followed by RET returns to the instruction after the RST. */
  lemma RstThenRet(m: Machine, v: u8)
    requires m.Valid() && v % 8 == 0 && v < 0x40
    ensures var c := Control(m, Instr(RST(v), 4, 1));
      && c.Some? && !c.value.incPc && c.value.cycles == 4
      && c.value.m == PushPc(m, 1).(rf := PushPc(m, 1).rf.(pc := v))
      && Control(c.value.m, Instr(RET(Always), 4, 1)) == Some(After(m.(rf := m.rf.IncPc(1), mem := c.value.m.mem), false, 4))
  {
    var m1 := PushPc(m, 1);
    RstTaken(m, v);
    RetTaken(m1.(rf := m1.rf.Set16(PC, v)));
    PopPushedPc(m, 1, v);
  }

  /** The register pairs PUSH and POP take. */
  predicate IsPair(r: Register)
  {
    r == BC || r == DE || r == HL || r == AF
  }

  /**
   * PUSH r then POP s copies r into s and restores SP; PUSH panics when SP
   * is 1, because the 16-bit store then lands at 0xFFFF.
   */
  lemma PushThenPop(m: Machine, r: Register, s: Register)
    requires m.Valid() && IsPair(r) && IsPair(s)
    ensures m.rf.sp == 1 <==> Push(m, r).None?
    ensures m.rf.sp != 1 ==>
      var o := Push(m, r).value;
      && o.rf.sp == Wrap16(m.rf.sp - 2)
      && var p := Pop(o, s);
      && p.Some?
      && p.value.rf.Get16(s) == m.rf.Get16(r)
      && p.value.rf.sp == m.rf.sp
      && p.value.rf.pc == m.rf.pc
  {
    PushPair(m, r);
    if m.rf.sp != 1 {
      var sp: int := Wrap16(m.rf.sp - 2);
      var v := m.rf.Get16(r);
      var o := Push(m, r).value;
      assert o == Machine(m.rf.(sp := sp), m.ime, Write16(m.mem, sp, v).value);
      assert Pop(o, s) == Some(o.(rf := o.rf.(sp := m.rf.sp).Set16(s, v))) by {
        PopPair(o, s);
        Write16Read16(m.mem, sp, v);
        assert Wrap16(sp + 2) == m.rf.sp;
      }
      Set16Get16(o.rf.(sp := m.rf.sp), s, v);
    }
  }

  /** PUSH of a pair: SP moves down by two and the pair is stored there with `set16`. */
  lemma PushPair(m: Machine, r: Register)
    requires m.Valid() && IsPair(r)
    ensures var sp := Wrap16(m.rf.sp - 2);
      && (Push(m, r).Some? <==> sp != 0xFFFF)
      && (sp != 0xFFFF ==> Push(m, r).value == Machine(m.rf.(sp := sp), m.ime, Write16(m.mem, sp, m.rf.Get16(r)).value))
  {
  }

  /** POP of a pair: the pair is read with `get16` at SP and SP moves up by two. */
  lemma PopPair(m: Machine, s: Register)
    requires m.Valid() && IsPair(s)
    ensures var sp := m.rf.sp;
      && (Pop(m, s).Some? <==> sp != 0xFFFF)
      && (sp != 0xFFFF ==> Pop(m, s).value == m.(rf := m.rf.(sp := Wrap16(sp + 2)).Set16(s, Read16(m.mem, sp).value)))
  {
  }

  /**
   * PUSH stores the pair high byte first at the lower address while RET
   * reads the low byte there, so PUSH rr followed by RET jumps to rr with
   * its bytes exchanged.
   */
  lemma PushThenRetSwapsBytes(m: Machine, r: Register)
    requires m.Valid() && IsPair(r) && m.rf.sp != 1
    ensures var o := Push(m, r);
      && o.Some?
      && var v := m.rf.Get16(r);
      PopPc(o.value).rf.pc == (v % 0x100) * 0x100 + v / 0x100
  {
    var sp: int := Wrap16(m.rf.sp - 2);
    assert Wrap16(sp + 1) == sp + 1;
  }

  /** A byte stored to an operand reads back from the same operand. */
  lemma StoreThenGet(m: Machine, s: Src, v: u8)
    requires m.Valid() && Store8(m, s, v).Some?
    ensures GetU8(Store8(m, s, v).value, s) == Some(v)
  {
    var m1 := Store8(m, s, v).value;
    if s.Deref? && s.r == C {
      assert m1.rf == m.rf;
    }
  }

  /** `ld8` copies: afterwards the destination reads back what the source held. */
  lemma LoadCopies(m: Machine, dst: Src, src: Src)
    requires m.Valid() && Load8(m, dst, src).Some?
    ensures GetU8(m, src).Some? && GetU8(Load8(m, dst, src).value, dst) == GetU8(m, src)
  {
    StoreThenGet(m, dst, GetU8(m, src).value);
  }

  /** `ld16` copies: into a register pair, or into memory at `(a16)` high byte first. */
  lemma Load16Copies(m: Machine, dst: Src, src: Src)
    requires m.Valid() && Load16(m, dst, src).Some?
    ensures GetU16(m.rf, src).Some?
    ensures dst.Reg? ==> Load16(m, dst, src).value.rf.Get16(dst.r) == GetU16(m.rf, src).value
    ensures dst.A16? ==> Read16(Load16(m, dst, src).value.mem, dst.a16) == GetU16(m.rf, src)
  {
    var v := GetU16(m.rf, src).value;
    if dst.Reg? {
      Set16Get16(m.rf, dst.r, v);
    } else if dst.A16? {
      Write16Read16(m.mem, dst.a16, v);
    }
  }

  /** The operand forms `get_u8`, `ld8`, `get_u16` and `ld16` reject. */
  lemma OperandPanics(m: Machine, r: Register, d: u16, b: u8, x: i8)
    requires m.Valid()
    ensures GetU8(m, D16(d)) == None && GetU8(m, I8(x)) == None
    ensures !r.Is8() ==> GetU8(m, Reg(r)) == None && Store8(m, Reg(r), b) == None
    ensures r.Is8() && r != C ==> GetU8(m, Deref(r)) == None && Store8(m, Deref(r), b) == None
    ensures Store8(m, D8(b), b) == None && Store8(m, D16(d), b) == None && Store8(m, I8(x), b) == None
    ensures GetU16(m.rf, D8(b)) == None && GetU16(m.rf, A8(b)) == None && GetU16(m.rf, A16(d)) == None
    ensures GetU16(m.rf, Deref(r)) == None
    ensures r.Is8() ==> GetU16(m.rf, Reg(r)) == None && Store16(m, Reg(r), d) == None
    ensures Store16(m, D16(d), d) == None && Store16(m, D8(b), d) == None && Store16(m, A8(b), d) == None
    ensures Store16(m, Deref(r), d) == None && Store16(m, I8(x), d) == None
  {
  }

  /** HALT, STOP and an invalid opcode panic. */
  lemma UnimplementedPanics(m: Machine, i: Instr)
    requires m.Valid() && BranchCost(i) && i.nBytes < 0x1_0000
    requires i.opcode.HALT? || i.opcode.STOP? || i.opcode.INVALID?
    ensures Execute(m, i) == Panic
  {
    ExecutePlain(m, i);
  }

  /** The accumulator instructions put `AluResult` in A and its flags in F; CP writes only the flags; memory, PC and IME are untouched. */
  lemma AluInstructions(m: Machine, op: Opcode)
    requires m.Valid() && IsAluOp(op) && GetU8(m, op.operand).Some?
    ensures var o := AluResult(op, m.rf.a, GetU8(m, op.operand).value, m.rf.CyFlag());
      var r := Arith8(m, op);
      && r.Some? && r.value.mem == m.mem && r.value.ime == m.ime && r.value.rf.pc == m.rf.pc
      && r.value.rf.a == (if op.CP? then m.rf.a else o.v)
      && r.value.rf.ZFlag() == o.flags.z && r.value.rf.NFlag() == o.flags.n
      && r.value.rf.HFlag() == o.flags.h && r.value.rf.CyFlag() == o.flags.cy
  {
    var o := AluResult(op, m.rf.a, GetU8(m, op.operand).value, m.rf.CyFlag());
    var rf := if op.CP? then m.rf else m.rf.Set8(A, o.v);
    assert Arith8(m, op) == Some(m.(rf := WriteFlags(rf, o.flags)));
    FlagsRoundTrip(rf, o.flags.z, o.flags.n, o.flags.h, o.flags.cy);
  }

  /** INC8 and DEC8 of an operand other than F keep the C flag. */
  lemma IncDecKeepCarry(m: Machine, op: Opcode)
    requires m.Valid() && (op.INC8? || op.DEC8?) && op.operand != Reg(F)
    requires Arith8(m, op).Some?
    ensures Arith8(m, op).value.rf.CyFlag() == m.rf.CyFlag()
  {
    var x := GetU8(m, op.operand).value;
    var m1 := Store8(m, op.operand, IncDec(op, x, false).v).value;
    assert m1.rf.f == m.rf.f;
  }

  /** BIT k tests bit k into Z (inverted), sets H, clears N and keeps C, the other registers and memory. */
  lemma BitInstruction(m: Machine, k: BitIndex, s: Src)
    requires m.Valid() && GetU8(m, s).Some?
    ensures var o := BitOps(m, BIT(k, s));
      && o.Some?
      && (o.value.rf.ZFlag() <==> Bit(GetU8(m, s).value, k) == 0)
      && !o.value.rf.NFlag() && o.value.rf.HFlag() && o.value.rf.CyFlag() == m.rf.CyFlag()
      && o.value.mem == m.mem && o.value.rf == m.rf.(f := o.value.rf.f)
  {
    var x := GetU8(m, s).value;
    FlagsRoundTrip(m.rf, TestBit(x, k), false, true, m.rf.CyFlag());
  }

  /** SET and RES on a register change only the target bit of that register and leave the flags alone. */
  lemma SetResInstructions(m: Machine, k: BitIndex, r: Register, op: Opcode)
    requires m.Valid() && r.Is8() && (op == SET(k, Reg(r)) || op == RES(k, Reg(r)))
    ensures var o := BitOps(m, op);
      && o.Some?
      && o.value.rf.Get8(r) == (if op.SET? then SetBit(m.rf.Get8(r), k) else ResBit(m.rf.Get8(r), k))
      && (forall j: nat :: j != k ==> Bit(o.value.rf.Get8(r), j) == Bit(m.rf.Get8(r), j))
      && (r != F ==> o.value.rf.f == m.rf.f)
      && o.value.mem == m.mem
  {
    var v := m.rf.Get8(r);
    var w := if op.SET? then SetBit(v, k) else ResBit(v, k);
    assert BitOps(m, op) == Some(m.(rf := m.rf.Set8(r, w)));
  }

  // ---------------------------------------------------------------------
  // DAA

  predicate IsBcd(x: u8)
  {
    x / 0x10 <= 9 && x % 0x10 <= 9
  }

  /** The number a BCD byte stands for. */
  function Decimal(x: u8): nat
  {
    (x / 0x10) * 10 + x % 0x10
  }

  /** The BCD byte of a number below 100. */
  function ToBcd(n: nat): u8
    requires n < 100
  {
    (n / 10) * 0x10 + n % 10
  }

  /** After adding two BCD bytes, DAA gives the BCD of the decimal sum modulo 100 and sets C exactly when it reaches 100. */
  lemma DaaAfterAdd(x: u8, y: u8)
    requires IsBcd(x) && IsBcd(y)
    ensures var s := Add8(x, y, false);
      var d := Daa(s.v, s.flags.n, s.flags.h, s.flags.cy);
      && d.v == ToBcd((Decimal(x) + Decimal(y)) % 100)
      && (d.flags.cy <==> Decimal(x) + Decimal(y) >= 100)
  {
    var hs, low := x / 0x10 + y / 0x10, x % 0x10 + y % 0x10;
    DivUnique(x, 0x10, x / 0x10, x % 0x10);
    DivUnique(y, 0x10, y / 0x10, y % 0x10);
    var raw := 0x10 * hs + low;
    var s := Add8(x, y, false);
    DivUnique(raw, 0x100, Ord(s.flags.cy), s.v);
    assert s == Out8(raw % 0x100, Flags(raw % 0x100 == 0, false, low >= 0x10, raw >= 0x100));
    DaaAddDigits(hs, low);
  }

  /** With N, H and C clear, DAA as written adds only 6 to a byte in 0x9A-0x9F. */
  lemma DaaAsWrittenHigh(v: u8)
    requires 0x9A <= v <= 0x9F
    ensures DaaAsWritten(v, false, false, false) == Out8(v + 6, Flags(false, false, false, false))
  {
    DivUnique(v, 0x10, 9, v - 0x90);
    assert DaaAdjustAsWritten(v, false, false, false) == (6, false);
  }

  /** The BCD byte of a two-digit decimal number given by its digits, when the tens digit may exceed 9. */
  lemma BcdOfDigits(n: int, hi: int, lo: int)
    requires n == 10 * hi + lo && -10 <= hi <= 19 && 0 <= lo <= 9
    ensures 0 <= n % 100 < 100
    ensures ToBcd(n % 100) == 0x10 * (if hi >= 10 then hi - 10 else if hi < 0 then hi + 10 else hi) + lo
  {
    var d := if hi >= 10 then hi - 10 else if hi < 0 then hi + 10 else hi;
    DivUnique(n, 100, if hi >= 10 then 1 else if hi < 0 then -1 else 0, 10 * d + lo);
    DivUnique(10 * d + lo, 10, d, lo);
  }

  /** DAA's result from its adjustment: the adjusted value cut to a byte. */
  lemma DaaFromAdjust(v: u8, n: bool, h: bool, cy: bool, add: nat, setCy: bool, k: int, r: int)
    requires DaaAdjust(v, n, h, cy) == (add, setCy)
    requires v + add == 0x100 * k + r && 0 <= r < 0x100
    ensures Daa(v, n, h, cy) == Out8(r, Flags(r == 0, n, false, setCy))
  {
    DivUnique(v + add, 0x100, k, r);
  }

  /** DAA after an addition, in terms of the sum of the high digits and the sum of the low digits. */
  lemma DaaAddDigits(hs: nat, low: nat)
    requires hs <= 18 && low <= 18
    ensures var raw := 0x10 * hs + low;
      var d := Daa(raw % 0x100, false, low >= 0x10, raw >= 0x100);
      var n := 10 * hs + low;
      && d.v == ToBcd(n % 100)
      && (d.flags.cy <==> n >= 100)
  {
    if hs <= 9 && low <= 9 {
      DaaAddPlain(hs, low);
    } else if 10 <= hs <= 15 && low <= 9 {
      DaaAddHighOver(hs, low);
    } else if 16 <= hs <= 18 && low <= 9 {
      DaaAddCarryOut(hs, low);
    } else if hs <= 8 && 10 <= low <= 15 {
      DaaAddLowOver(hs, low);
    } else if 9 <= hs <= 15 && 10 <= low <= 15 {
      DaaAddBothOver(hs, low);
    } else if 16 <= hs <= 18 && 10 <= low <= 15 {
      DaaAddLowOverCarryOut(hs, low);
    } else if hs <= 8 && 16 <= low <= 18 {
      DaaAddHalf(hs, low);
    } else if 9 <= hs <= 14 && 16 <= low <= 18 {
      DaaAddHalfHighOver(hs, low);
    } else {
      DaaAddHalfCarryOut(hs, low);
    }
  }

  /** Decimal digits and no carry: nothing to adjust. */
  lemma DaaAddPlain(hs: nat, low: nat)
    requires hs <= 9 && low <= 9
    ensures var raw := 0x10 * hs + low;
      var d := Daa(raw % 0x100, false, low >= 0x10, raw >= 0x100);
      var n := 10 * hs + low;
      && d.v == ToBcd(n % 100)
      && (d.flags.cy <==> n >= 100)
  {
    var raw := 0x10 * hs + low;
    var h, cy := low >= 0x10, raw >= 0x100;
    var c := if low >= 10 then 1 else 0;
    BcdOfDigits(10 * hs + low, hs + c, low - 10 * c);
    DivUnique(raw, 0x100, 0, raw - 0);
    var v := raw % 0x100;
    DivUnique(v, 0x10, hs, low);
    assert DaaAdjust(v, false, h, cy) == (0, false);
    DaaFromAdjust(v, false, h, cy, 0, false, 0, 0x10 * hs + low);
  }

  /** A high digit above 9 with a decimal low digit: 0x60 is added. */
  lemma DaaAddHighOver(hs: nat, low: nat)
    requires 10 <= hs <= 15 && low <= 9
    ensures var raw := 0x10 * hs + low;
      var d := Daa(raw % 0x100, false, low >= 0x10, raw >= 0x100);
      var n := 10 * hs + low;
      && d.v == ToBcd(n % 100)
      && (d.flags.cy <==> n >= 100)
  {
    var raw := 0x10 * hs + low;
    var h, cy := low >= 0x10, raw >= 0x100;
    var c := if low >= 10 then 1 else 0;
    BcdOfDigits(10 * hs + low, hs + c, low - 10 * c);
    DivUnique(raw, 0x100, 0, raw - 0);
    var v := raw % 0x100;
    DivUnique(v, 0x10, hs, low);
    assert DaaAdjust(v, false, h, cy) == (0x60, true);
    DaaFromAdjust(v, false, h, cy, 0x60, true, 1, 0x10 * (hs - 10) + low);
  }

  /** A carry out of the byte with a decimal low digit: 0x60 is added. */
  lemma DaaAddCarryOut(hs: nat, low: nat)
    requires 16 <= hs <= 18 && low <= 9
    ensures var raw := 0x10 * hs + low;
      var d := Daa(raw % 0x100, false, low >= 0x10, raw >= 0x100);
      var n := 10 * hs + low;
      && d.v == ToBcd(n % 100)
      && (d.flags.cy <==> n >= 100)
  {
    var raw := 0x10 * hs + low;
    var h, cy := low >= 0x10, raw >= 0x100;
    var c := if low >= 10 then 1 else 0;
    BcdOfDigits(10 * hs + low, hs + c, low - 10 * c);
    DivUnique(raw, 0x100, 1, raw - 0x100);
    var v := raw % 0x100;
    DivUnique(v, 0x10, hs - 16, low);
    assert DaaAdjust(v, false, h, cy) == (0x60, true);
    DaaFromAdjust(v, false, h, cy, 0x60, true, 0, 0x10 * (hs - 10) + low);
  }

  /** A low digit above 9 and no overflow of the high digit: 6 is added. */
  lemma DaaAddLowOver(hs: nat, low: nat)
    requires hs <= 8 && 10 <= low <= 15
    ensures var raw := 0x10 * hs + low;
      var d := Daa(raw % 0x100, false, low >= 0x10, raw >= 0x100);
      var n := 10 * hs + low;
      && d.v == ToBcd(n % 100)
      && (d.flags.cy <==> n >= 100)
  {
    var raw := 0x10 * hs + low;
    var h, cy := low >= 0x10, raw >= 0x100;
    var c := if low >= 10 then 1 else 0;
    BcdOfDigits(10 * hs + low, hs + c, low - 10 * c);
    DivUnique(raw, 0x100, 0, raw - 0);
    var v := raw % 0x100;
    DivUnique(v, 0x10, hs, low);
    assert DaaAdjust(v, false, h, cy) == (6, false);
    DaaFromAdjust(v, false, h, cy, 6, false, 0, 0x10 * (hs + 1) + (low - 10));
  }

  /** A low digit above 9 that carries into a high digit of 9 or more: 0x66 is added. */
  lemma DaaAddBothOver(hs: nat, low: nat)
    requires 9 <= hs <= 15 && 10 <= low <= 15
    ensures var raw := 0x10 * hs + low;
      var d := Daa(raw % 0x100, false, low >= 0x10, raw >= 0x100);
      var n := 10 * hs + low;
      && d.v == ToBcd(n % 100)
      && (d.flags.cy <==> n >= 100)
  {
    var raw := 0x10 * hs + low;
    var h, cy := low >= 0x10, raw >= 0x100;
    var c := if low >= 10 then 1 else 0;
    BcdOfDigits(10 * hs + low, hs + c, low - 10 * c);
    DivUnique(raw, 0x100, 0, raw - 0);
    var v := raw % 0x100;
    DivUnique(v, 0x10, hs, low);
    assert DaaAdjust(v, false, h, cy) == (0x66, true);
    DaaFromAdjust(v, false, h, cy, 0x66, true, 1, 0x10 * (hs - 9) + (low - 10));
  }

  /** A low digit above 9 and a carry out of the byte: 0x66 is added. */
  lemma DaaAddLowOverCarryOut(hs: nat, low: nat)
    requires 16 <= hs <= 18 && 10 <= low <= 15
    ensures var raw := 0x10 * hs + low;
      var d := Daa(raw % 0x100, false, low >= 0x10, raw >= 0x100);
      var n := 10 * hs + low;
      && d.v == ToBcd(n % 100)
      && (d.flags.cy <==> n >= 100)
  {
    var raw := 0x10 * hs + low;
    var h, cy := low >= 0x10, raw >= 0x100;
    var c := if low >= 10 then 1 else 0;
    BcdOfDigits(10 * hs + low, hs + c, low - 10 * c);
    DivUnique(raw, 0x100, 1, raw - 0x100);
    var v := raw % 0x100;
    DivUnique(v, 0x10, hs - 16, low);
    assert DaaAdjust(v, false, h, cy) == (0x66, true);
    DaaFromAdjust(v, false, h, cy, 0x66, true, 0, 0x10 * (hs - 9) + (low - 10));
  }

  /** A half carry and no overflow of the high digit: 6 is added. */
  lemma DaaAddHalf(hs: nat, low: nat)
    requires hs <= 8 && 16 <= low <= 18
    ensures var raw := 0x10 * hs + low;
      var d := Daa(raw % 0x100, false, low >= 0x10, raw >= 0x100);
      var n := 10 * hs + low;
      && d.v == ToBcd(n % 100)
      && (d.flags.cy <==> n >= 100)
  {
    var raw := 0x10 * hs + low;
    var h, cy := low >= 0x10, raw >= 0x100;
    var c := if low >= 10 then 1 else 0;
    BcdOfDigits(10 * hs + low, hs + c, low - 10 * c);
    DivUnique(raw, 0x100, 0, raw - 0);
    var v := raw % 0x100;
    DivUnique(v, 0x10, hs + 1, low - 16);
    assert DaaAdjust(v, false, h, cy) == (6, false);
    DaaFromAdjust(v, false, h, cy, 6, false, 0, 0x10 * (hs + 1) + (low - 10));
  }

  /** A half carry into a high digit of 9 or more: 0x66 is added. */
  lemma DaaAddHalfHighOver(hs: nat, low: nat)
    requires 9 <= hs <= 14 && 16 <= low <= 18
    ensures var raw := 0x10 * hs + low;
      var d := Daa(raw % 0x100, false, low >= 0x10, raw >= 0x100);
      var n := 10 * hs + low;
      && d.v == ToBcd(n % 100)
      && (d.flags.cy <==> n >= 100)
  {
    var raw := 0x10 * hs + low;
    var h, cy := low >= 0x10, raw >= 0x100;
    var c := if low >= 10 then 1 else 0;
    BcdOfDigits(10 * hs + low, hs + c, low - 10 * c);
    DivUnique(raw, 0x100, 0, raw - 0);
    var v := raw % 0x100;
    DivUnique(v, 0x10, hs + 1, low - 16);
    assert DaaAdjust(v, false, h, cy) == (0x66, true);
    DaaFromAdjust(v, false, h, cy, 0x66, true, 1, 0x10 * (hs - 9) + (low - 10));
  }

  /** A half carry and a carry out of the byte: 0x66 is added. */
  lemma DaaAddHalfCarryOut(hs: nat, low: nat)
    requires 15 <= hs <= 18 && 16 <= low <= 18
    ensures var raw := 0x10 * hs + low;
      var d := Daa(raw % 0x100, false, low >= 0x10, raw >= 0x100);
      var n := 10 * hs + low;
      && d.v == ToBcd(n % 100)
      && (d.flags.cy <==> n >= 100)
  {
    var raw := 0x10 * hs + low;
    var h, cy := low >= 0x10, raw >= 0x100;
    BcdOfDigits(10 * hs + low, hs + 1, low - 10);
    DivUnique(raw, 0x100, 1, raw - 0x100);
    var v := raw % 0x100;
    DivUnique(v, 0x10, hs - 15, low - 16);
    assert DaaAdjust(v, false, h, cy) == (0x66, true);
    DaaFromAdjust(v, false, h, cy, 0x66, true, 0, 0x10 * (hs - 9) + (low - 10));
  }

  /**
   * After subtracting a BCD byte from another, DAA, the source's and the
   * BCD-correct one alike, gives the BCD of the decimal difference modulo
   * 100 and sets C exactly on a borrow.
   */
  lemma DaaAfterSub(x: u8, y: u8)
    requires IsBcd(x) && IsBcd(y)
    ensures var s := Sub8(x, y, false);
      var d := DaaAsWritten(s.v, s.flags.n, s.flags.h, s.flags.cy);
      && d == Daa(s.v, s.flags.n, s.flags.h, s.flags.cy)
      && d.v == ToBcd((Decimal(x) - Decimal(y)) % 100)
      && (d.flags.cy <==> Decimal(x) < Decimal(y))
  {
    DivUnique(x, 0x10, x / 0x10, x % 0x10);
    DivUnique(y, 0x10, y / 0x10, y % 0x10);
    DaaSubDigits(x / 0x10 - y / 0x10, x % 0x10 - y % 0x10);
  }

  /**
   * After adding two BCD bytes, the source's DAA gives the BCD of the
   * decimal sum modulo 100 and sets C exactly when the sum reaches 100,
   * except where the binary sum is 0x9A-0x9F: the decimal sum is then
   * 100-105, but A becomes 0xA0-0xA5 and C stays clear.
   */
  lemma DaaAsWrittenAfterAdd(x: u8, y: u8)
    requires IsBcd(x) && IsBcd(y)
    ensures var s := Add8(x, y, false);
      var d := DaaAsWritten(s.v, s.flags.n, s.flags.h, s.flags.cy);
      var sum := Decimal(x) + Decimal(y);
      && (0x9A <= s.v <= 0x9F ==> 100 <= sum <= 105 && d.v == s.v + 6 && !d.flags.cy)
      && (!(0x9A <= s.v <= 0x9F) ==> d.v == ToBcd(sum % 100) && (d.flags.cy <==> sum >= 100))
  {
    var s := Add8(x, y, false);
    if 0x9A <= s.v <= 0x9F {
      DaaAddMisses(x, y);
    } else {
      DaaAfterAdd(x, y);
      DaaAsWrittenDiffers(s.v, s.flags.n, s.flags.h, s.flags.cy);
    }
  }

  /** The sums the source's DAA gets wrong: a binary sum of 0x9A-0x9F has no carries and stands for 100-105. */
  lemma DaaAddMisses(x: u8, y: u8)
    requires IsBcd(x) && IsBcd(y) && 0x9A <= Add8(x, y, false).v <= 0x9F
    ensures var s := Add8(x, y, false);
      && !s.flags.h && !s.flags.cy && 100 <= Decimal(x) + Decimal(y) <= 105
      && DaaAsWritten(s.v, false, false, false) == Out8(s.v + 6, Flags(false, false, false, false))
  {
    var hs, low := x / 0x10 + y / 0x10, x % 0x10 + y % 0x10;
    DivUnique(x, 0x10, x / 0x10, x % 0x10);
    DivUnique(y, 0x10, y / 0x10, y % 0x10);
    var raw := 0x10 * hs + low;
    var s := Add8(x, y, false);
    DivUnique(raw, 0x100, Ord(s.flags.cy), s.v);
    var v := raw % 0x100;
    assert raw < 0x100;
    assert low < 0x10 by {
      if low >= 0x10 {
        DivUnique(raw, 0x10, hs + 1, low - 0x10);
      }
    }
    DivUnique(raw, 0x10, hs, low);
    DaaAsWrittenHigh(v);
  }


  /** DAA after a subtraction, in terms of the differences of the high and of the low digits. */
  lemma DaaSubDigits(hd: int, ld: int)
    requires -9 <= hd <= 9 && -9 <= ld <= 9
    ensures var raw := 0x10 * hd + ld;
      var d := Daa(raw % 0x100, true, ld < 0, raw < 0);
      var n := 10 * hd + ld;
      && d.v == ToBcd(n % 100)
      && (d.flags.cy <==> n < 0)
  {
    if 0 <= hd <= 9 && 0 <= ld <= 9 {
      DaaSubPlain(hd, ld);
    } else if 1 <= hd <= 9 && -9 <= ld < 0 {
      DaaSubHalfBorrow(hd, ld);
    } else if -9 <= hd <= 0 && -9 <= ld < 0 {
      DaaSubBothBorrow(hd, ld);
    } else {
      DaaSubHighBorrow(hd, ld);
    }
  }

  /** No borrow from either digit: nothing to adjust. */
  lemma DaaSubPlain(hd: int, ld: int)
    requires 0 <= hd <= 9 && 0 <= ld <= 9
    ensures var raw := 0x10 * hd + ld;
      var d := Daa(raw % 0x100, true, ld < 0, raw < 0);
      var n := 10 * hd + ld;
      && d.v == ToBcd(n % 100)
      && (d.flags.cy <==> n < 0)
  {
    var raw := 0x10 * hd + ld;
    var h, cy := ld < 0, raw < 0;
    var b := if ld < 0 then 1 else 0;
    BcdOfDigits(10 * hd + ld, hd - b, ld + 10 * b);
    DivUnique(raw, 0x100, 0, raw);
    var v := raw % 0x100;
    DivUnique(v, 0x10, hd, ld);
    assert DaaAdjust(v, true, h, cy) == (0, false);
    DaaFromAdjust(v, true, h, cy, 0, false, 0, 0x10 * hd + ld);
  }

  /** A borrow from the low digit only: 6 is taken off. */
  lemma DaaSubHalfBorrow(hd: int, ld: int)
    requires 1 <= hd <= 9 && -9 <= ld < 0
    ensures var raw := 0x10 * hd + ld;
      var d := Daa(raw % 0x100, true, ld < 0, raw < 0);
      var n := 10 * hd + ld;
      && d.v == ToBcd(n % 100)
      && (d.flags.cy <==> n < 0)
  {
    var raw := 0x10 * hd + ld;
    var h, cy := ld < 0, raw < 0;
    var b := if ld < 0 then 1 else 0;
    BcdOfDigits(10 * hd + ld, hd - b, ld + 10 * b);
    DivUnique(raw, 0x100, 0, raw);
    var v := raw % 0x100;
    DivUnique(v, 0x10, hd - 1, ld + 16);
    assert DaaAdjust(v, true, h, cy) == (0xFA, false);
    DaaFromAdjust(v, true, h, cy, 0xFA, false, 1, 0x10 * (hd - 1) + (ld + 10));
  }

  /** A borrow from the low digit that runs out of the byte: 0x66 is taken off. */
  lemma DaaSubBothBorrow(hd: int, ld: int)
    requires -9 <= hd <= 0 && -9 <= ld < 0
    ensures var raw := 0x10 * hd + ld;
      var d := Daa(raw % 0x100, true, ld < 0, raw < 0);
      var n := 10 * hd + ld;
      && d.v == ToBcd(n % 100)
      && (d.flags.cy <==> n < 0)
  {
    var raw := 0x10 * hd + ld;
    var h, cy := ld < 0, raw < 0;
    var b := if ld < 0 then 1 else 0;
    BcdOfDigits(10 * hd + ld, hd - b, ld + 10 * b);
    DivUnique(raw, 0x100, -1, raw + 0x100);
    var v := raw % 0x100;
    DivUnique(v, 0x10, 15 + hd, ld + 16);
    assert DaaAdjust(v, true, h, cy) == (0x9A, true);
    DaaFromAdjust(v, true, h, cy, 0x9A, true, 1, 0x10 * (hd + 9) + (ld + 10));
  }

  /** A borrow from the high digit only: 0x60 is taken off. */
  lemma DaaSubHighBorrow(hd: int, ld: int)
    requires -9 <= hd < 0 && 0 <= ld <= 9
    ensures var raw := 0x10 * hd + ld;
      var d := Daa(raw % 0x100, true, ld < 0, raw < 0);
      var n := 10 * hd + ld;
      && d.v == ToBcd(n % 100)
      && (d.flags.cy <==> n < 0)
  {
    var raw := 0x10 * hd + ld;
    var h, cy := ld < 0, raw < 0;
    var b := if ld < 0 then 1 else 0;
    BcdOfDigits(10 * hd + ld, hd - b, ld + 10 * b);
    DivUnique(raw, 0x100, -1, raw + 0x100);
    var v := raw % 0x100;
    DivUnique(v, 0x10, 16 + hd, ld);
    assert DaaAdjust(v, true, h, cy) == (0xA0, true);
    DaaFromAdjust(v, true, h, cy, 0xA0, true, 1, 0x10 * (hd + 10) + ld);
  }

  /** The source's DAA differs from the corrected one only after an addition that leaves A at 0x9A-0x9F without a carry. */
  lemma DaaAsWrittenDiffers(a: u8, n: bool, h: bool, cy: bool)
    ensures DaaAsWritten(a, n, h, cy) != Daa(a, n, h, cy) <==> !n && !cy && a / 0x10 == 9 && a % 0x10 >= 10
    ensures DaaAsWritten(0x9A, false, false, false) == Out8(0xA0, Flags(false, false, false, false))
    ensures Daa(0x9A, false, false, false) == Out8(0x00, Flags(true, false, false, true))
    ensures Add8(0x45, 0x55, false) == Out8(0x9A, Flags(false, false, false, false))
  {
  }

  // ---------------------------------------------------------------------
  // JR with offset -128

  /** The source's JR target agrees with PC + offset for every offset but -128, where it lands 256 bytes too far. */
  lemma JrAsWrittenDiffers(pc: u16, offset: i8)
    ensures offset != -128 ==> JrTargetAsWritten(pc, offset) == JrTarget(pc, offset)
    ensures JrTargetAsWritten(pc, -128) == (pc + 128) % 0x1_0000
    ensures JrTarget(pc, -128) == (pc - 128) % 0x1_0000
    ensures JrTargetAsWritten(pc, -128) != JrTarget(pc, -128)
  {
  }
}
