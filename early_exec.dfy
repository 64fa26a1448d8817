/**
 * The processor of the first generation (src/cpu.rs) as a function of its
 * registers and its flat 64K memory.  The register file it imports
 * (`crate::registers`) is not part of this model; the later one of module
 * Registers, which has the same operations, stands in for it.
 */
module EarlyExec {
  import opened Bits
  import opened Wrappers
  import opened Registers
  import opened FlatMemoryBus
  import opened EarlyOpcode

  // ---------------------------------------------------------------------
  // The processor as a function of its state

  datatype State = State(rf: RegFile, mem: seq<u8>)
  {
    predicate Valid()
    {
      |mem| == MEMORY_SIZE
    }
  }

  datatype Outcome = Next(s: State, cycles: nat) | Panic

  /** `read_bytes(pc, [0; 3])`: indexing past the end of memory panics. */
  function Fetch(s: State): (r: Option<seq<u8>>)
    requires s.Valid()
    ensures r.Some? ==> |r.value| == 3
  {
    if s.rf.pc + 3 <= MEMORY_SIZE then Some(s.mem[s.rf.pc..s.rf.pc + 3]) else None
  }

  /** `get_u8`: `(C)` and `a8` address the page at 0xFF00; a D16 source, a pair in `get8` or an 8-bit register in `get16` panic. */
  function GetU8(s: State, src: Src): (r: Option<u8>)
    requires s.Valid()
    ensures r.None? <==> src.D16? || (src.Reg? && !src.r.Is8()) || (src.Deref? && src.r != C && src.r.Is8())
    ensures src.Deref? && src.r == C ==> r == Some(s.mem[0xFF00 + s.rf.c])
    ensures src.A8? ==> r == Some(s.mem[0xFF00 + src.a8])
  {
    match src
    case Reg(r) => if r.Is8() then Some(s.rf.Get8(r)) else None
    case D8(d8) => Some(d8)
    case Deref(r) =>
      if r == C then Some(s.mem[0xFF00 + s.rf.c])
      else if r.Is8() then None
      else Some(s.mem[s.rf.Get16(r)])
    case A8(a8) => Some(s.mem[0xFF00 + a8])
    case A16(a16) => Some(s.mem[a16])
    case D16(_) => None
  }

  /** `ld8`. */
  function Load8(s: State, dst: Dst, src: Src): (r: Option<State>)
    requires s.Valid()
    ensures r.Some? ==> r.value.Valid()
  {
    var v :- GetU8(s, src);
    match dst
    case Reg(r) => if r.Is8() then Some(s.(rf := s.rf.Set8(r, v))) else None
    case Deref(r) =>
      if r == C then Some(s.(mem := s.mem[0xFF00 + s.rf.c := v]))
      else if r.Is8() then None
      else Some(s.(mem := s.mem[s.rf.Get16(r) := v]))
    case A16(a16) => Some(s.(mem := s.mem[a16 := v]))
    case A8(a8) => Some(s.(mem := s.mem[0xFF00 + a8 := v]))
  }

  /** `get_u16`: a register pair, SP, PC or an immediate. */
  function GetU16(rf: RegFile, src: Src): (r: Option<u16>)
    ensures r.None? <==> !(src.D16? || (src.Reg? && !src.r.Is8()))
    ensures src.Reg? && !src.r.Is8() ==> r == Some(rf.Get16(src.r))
  {
    match src
    case Reg(r) => if r.Is8() then None else Some(rf.Get16(r))
    case D16(d16) => Some(d16)
    case _ => None
  }

  /** `ld16`: to a 16-bit register, or to memory with `set16`, high byte first. */
  function Load16(s: State, dst: Dst, src: Src): (r: Option<State>)
    requires s.Valid()
    ensures r.Some? ==> r.value.Valid()
  {
    var v :- GetU16(s.rf, src);
    match dst
    case Reg(r) => if r.Is8() then None else Some(s.(rf := s.rf.Set16(r, v)))
    case A16(a16) =>
      var mem :- Write16(s.mem, a16, v);
      Some(s.(mem := mem))
    case _ => None
  }

  /** LD8, and LD8I and LD8D, which then step HL up or down by one. */
  function LoadByte(s: State, op: Opcode): (r: Option<State>)
    requires s.Valid() && (op.LD8? || op.LD8I? || op.LD8D?)
    ensures r.Some? ==> r.value.Valid()
  {
    var s1 :- Load8(s, op.dst, op.src);
    if op.LD8? then Some(s1)
    else Some(s1.(rf := s1.rf.Set16(HL, Wrap16(s1.rf.Get16(HL) + (if op.LD8I? then 1 else -1)))))
  }

  /** PUSH: SP goes down by two and the pair, read after that, is stored there with `set16`. */
  function Push(s: State, reg: Register): (r: Option<State>)
    requires s.Valid()
    ensures r.Some? ==> r.value.Valid()
  {
    var sp := Wrap16(s.rf.sp - 2);
    var rf := s.rf.Set16(SP, sp);
    if reg.Is8() then None
    else
      var mem :- Write16(s.mem, sp, rf.Get16(reg));
      Some(State(rf, mem))
  }

  /** POP: SP goes up by two and the pair is loaded with `get16` at the old SP. */
  function Pop(s: State, reg: Register): (r: Option<State>)
    requires s.Valid()
    ensures r.Some? ==> r.value.Valid()
  {
    var rf := s.rf.Set16(SP, Wrap16(s.rf.sp + 2));
    var v :- Read16(s.mem, s.rf.sp);
    if reg.Is8() then None else Some(s.(rf := rf.Set16(reg, v)))
  }

  /** The arms of `step`; NOP and HALT change nothing. */
  function Execute(s: State, op: Opcode): (r: Option<State>)
    requires s.Valid()
    ensures r.Some? ==> r.value.Valid()
  {
    if op.NOP? || op.HALT? then Some(s)
    else if op.LD8? || op.LD8I? || op.LD8D? then LoadByte(s, op)
    else if op.LD16? then Load16(s, op.dst, op.src)
    else if op.PUSH? then Push(s, op.reg)
    else Pop(s, op.reg)
  }

  /** `step`: decode at PC, carry the instruction out, then move PC past it and return its cycles. */
  function Step(s: State): (o: Outcome)
    requires s.Valid()
    ensures o.Next? ==> o.s.Valid()
  {
    match Fetch(s)
    case None => Panic
    case Some(bytes) =>
      match Disassemble(bytes)
      case None => Panic
      case Some(i) =>
        AllTableFacts(bytes);
        match Execute(s, i.opcode)
        case None => Panic
        case Some(s1) => Next(s1.(rf := s1.rf.IncPc(i.nBytes)), i.cycles)
  }

  // ---------------------------------------------------------------------
  // Properties

  /** A decoded instruction fails only on a 16-bit access at 0xFFFF: PUSH with SP = 1, POP with SP = 0xFFFF, or LD (0xFFFF), SP. */
  lemma ExecuteFails(s: State, op: Opcode)
    requires s.Valid() && WellFormed(op)
    ensures Execute(s, op).None? <==>
      || (op.PUSH? && s.rf.sp == 1)
      || (op.POP? && s.rf.sp == 0xFFFF)
      || (op.LD16? && op.dst.A16? && op.dst.a16 == 0xFFFF)
  {
  }

  /** No decoded instruction writes PC. */
  lemma ExecuteKeepsPc(s: State, op: Opcode)
    requires s.Valid() && WellFormed(op)
    ensures Execute(s, op).Some? ==> Execute(s, op).value.rf.pc == s.rf.pc
  {
  }

  /**
   * `step` returns the decoded cycle count and always moves PC forward by
   * the decoded length; it panics exactly on a fetch past the end of memory,
   * an unknown opcode byte or a failing 16-bit access.
   */
  lemma StepAdvancesPc(s: State)
    requires s.Valid()
    ensures var o := Step(s);
      o.Next? <==> Fetch(s).Some? && Disassemble(Fetch(s).value).Some? && Execute(s, Disassemble(Fetch(s).value).value.opcode).Some?
    ensures var o := Step(s);
      o.Next? ==>
        var i := Disassemble(Fetch(s).value).value;
        o.cycles == i.cycles && o.s.rf.pc == (s.rf.pc + i.nBytes) % 0x1_0000
  {
    var f := Fetch(s);
    if f.Some? && Disassemble(f.value).Some? {
      var i := Disassemble(f.value).value;
      AllTableFacts(f.value);
      ExecuteKeepsPc(s, i.opcode);
    }
  }

  /** `LD (HL+), A` (0x22) stores A at HL and then increments HL. */
  lemma StoreIncrement(s: State)
    requires s.Valid()
    ensures var hl := s.rf.Get16(HL);
      Execute(s, LD8I(Dst.Deref(HL), Src.Reg(A))) == Some(State(s.rf.Set16(HL, (hl + 1) % 0x1_0000), s.mem[hl := s.rf.a]))
  {
    var op := LD8I(Dst.Deref(HL), Src.Reg(A));
    assert Execute(s, op) == LoadByte(s, op);
    StoreIncrementByte(s);
  }

  /** The `LoadByte` arm of `LD (HL+), A`, with HL = 0xFFFF wrapping round to 0. */
  lemma StoreIncrementByte(s: State)
    requires s.Valid()
    ensures var hl := s.rf.Get16(HL);
      LoadByte(s, LD8I(Dst.Deref(HL), Src.Reg(A))) == Some(State(s.rf.Set16(HL, (hl + 1) % 0x1_0000), s.mem[hl := s.rf.a]))
  {
    var hl: int := s.rf.Get16(HL);
    var s1 := s.(mem := s.mem[hl := s.rf.a]);
    assert Load8(s, Dst.Deref(HL), Src.Reg(A)) == Some(s1);
    WrapOnce(hl + 1, 0x1_0000);
  }

  /** `LD A, (HL-)` (0x3A) loads A from HL and then decrements HL. */
  lemma LoadDecrement(s: State)
    requires s.Valid()
    ensures var hl := s.rf.Get16(HL);
      Execute(s, LD8D(Dst.Reg(A), Src.Deref(HL))) == Some(s.(rf := s.rf.(a := s.mem[hl]).Set16(HL, (hl - 1) % 0x1_0000)))
  {
    var op := LD8D(Dst.Reg(A), Src.Deref(HL));
    assert Execute(s, op) == LoadByte(s, op);
    LoadDecrementByte(s);
  }

  /** The `LoadByte` arm of `LD A, (HL-)`, with HL = 0 wrapping round to 0xFFFF. */
  lemma LoadDecrementByte(s: State)
    requires s.Valid()
    ensures var hl := s.rf.Get16(HL);
      LoadByte(s, LD8D(Dst.Reg(A), Src.Deref(HL))) == Some(s.(rf := s.rf.(a := s.mem[hl]).Set16(HL, (hl - 1) % 0x1_0000)))
  {
    var hl: int := s.rf.Get16(HL);
    var s1 := s.(rf := s.rf.(a := s.mem[hl]));
    assert GetU8(s, Src.Deref(HL)) == Some(s.mem[hl]);
    assert Load8(s, Dst.Reg(A), Src.Deref(HL)) == Some(s1);
    assert s1.rf.Get16(HL) == hl;
    WrapOnce(hl - 1, 0x1_0000);
  }

  /** `LD (a16), SP` (0x08) stores SP high byte first and leaves the rest of memory alone. */
  lemma StoreStackPointer(s: State, a: u16)
    requires s.Valid() && a < 0xFFFF
    ensures var r := Execute(s, LD16(Dst.A16(a), Src.Reg(SP)));
      && r.Some? && r.value.rf == s.rf
      && r.value.mem[a] == s.rf.sp / 0x100 && r.value.mem[a + 1] == s.rf.sp % 0x100
      && forall i :: 0 <= i < MEMORY_SIZE && i != a && i != a + 1 ==> r.value.mem[i] == s.mem[i]
  {
  }

  predicate IsPair(r: Register)
  {
    r == BC || r == DE || r == HL || r == AF
  }

  /** PUSH r moves SP down by two and stores r there high byte first. */
  lemma PushStores(s: State, r: Register)
    requires s.Valid() && IsPair(r) && s.rf.sp != 1
    ensures var p := Execute(s, PUSH(r));
      && p.Some?
      && p.value.rf.sp == (s.rf.sp + 0xFFFE) % 0x1_0000
      && p.value.mem[p.value.rf.sp] == s.rf.Get16(r) / 0x100
      && p.value.mem[p.value.rf.sp + 1] == s.rf.Get16(r) % 0x100
  {
    PushPair(s, r);
  }

  /** PUSH r then POP q loads r's value into q and puts SP back. */
  lemma PushThenPop(s: State, r: Register, q: Register)
    requires s.Valid() && IsPair(r) && IsPair(q) && s.rf.sp != 1
    ensures var p := Execute(s, PUSH(r));
      && p.Some?
      && var o := Execute(p.value, POP(q));
      && o.Some?
      && o.value.rf.Get16(q) == s.rf.Get16(r)
      && o.value.rf.sp == s.rf.sp
  {
    PopAfterPush(s, r, q);
    var p := Execute(s, PUSH(r)).value;
    Set16Get16(p.rf.(sp := s.rf.sp), q, s.rf.Get16(r));
  }

  /** The POP that follows a PUSH reads back the value pushed. */
  lemma PopAfterPush(s: State, r: Register, q: Register)
    requires s.Valid() && IsPair(r) && IsPair(q) && s.rf.sp != 1
    ensures Execute(s, PUSH(r)).Some?
    ensures var p := Execute(s, PUSH(r)).value;
      Execute(p, POP(q)) == Some(p.(rf := p.rf.(sp := s.rf.sp).Set16(q, s.rf.Get16(r))))
  {
    var sp: int := Wrap16(s.rf.sp - 2);
    var v := s.rf.Get16(r);
    PushPair(s, r);
    var p := Execute(s, PUSH(r)).value;
    PopPair(p, q);
    Write16Read16(s.mem, sp, v);
    assert Wrap16(sp + 2) == s.rf.sp;
  }

  /** PUSH of a pair as a value. */
  lemma PushPair(s: State, r: Register)
    requires s.Valid() && IsPair(r)
    ensures var sp := Wrap16(s.rf.sp - 2);
      && (Execute(s, PUSH(r)).Some? <==> sp != 0xFFFF)
      && (sp != 0xFFFF ==> Execute(s, PUSH(r)).value == State(s.rf.(sp := sp), Write16(s.mem, sp, s.rf.Get16(r)).value))
  {
  }

  /** POP of a pair as a value. */
  lemma PopPair(s: State, q: Register)
    requires s.Valid() && IsPair(q)
    ensures var sp := s.rf.sp;
      && (Execute(s, POP(q)).Some? <==> sp != 0xFFFF)
      && (sp != 0xFFFF ==> Execute(s, POP(q)).value == s.(rf := s.rf.(sp := Wrap16(sp + 2)).Set16(q, Read16(s.mem, sp).value)))
  {
  }
}
