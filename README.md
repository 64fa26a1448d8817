# rustdmg in Dafny

A model of rustdmg, a Game Boy / Game Boy Color emulator, with proofs
about it. The model covers:

- **The processor.** The Sharp LR35902 register file (`Registers`) and the
  instruction decoder, a total function from a three-byte window to an
  opcode, its cycle count and its length (`Instr`). Also the execution
  engine: what one `eval` does, as a function of the state (`Exec`), with
  the ALU rules in `Alu` and the facts about them in `ExecFacts`. The
  processor object (`Cpu`) carries out an instruction in place and is
  proved against `Exec`.
- **Address routing.** The 64K address-to-device table (`Mapping`), the
  device manager with one slot per device (`DeviceManagers`), and the
  routing bus with its sprite DMA and VRAM DMA intercepts (`RoutingBus`).
  The backing RAM and ROM devices are in `RamRom`.
- **The cartridge.** The boot-ROM overlay and the RAM bank
  (`GameCartridge`), the MBC1 bank controller (`Mbc`), and the symbol-file
  parser (`Symbols`).
- **The peripherals.** Each is a small state machine:
  - interrupts (`Interrupts`);
  - the DIV/TIMA timer (`Timers`);
  - the serial port (`SerialPort`);
  - the joypad (`Joypad`);
  - the LCD controller's mode/LY state machine and registers (`Lcd`);
  - sprites, tiles, the background map and the DMG palette (`LcdOam`,
    `LcdTiles`, `LcdBackground`, `LcdPalette`);
  - the sound building blocks (`LengthCounters`, `FrameSequencers`,
    `Envelopes`, `Sweeps`, `SquareWaves`, `WaveChannel`, `NoiseChannel`).
- **The machine.** `Gameboys` fills the device slots, builds the address
  map at boot (`GameboyMap`) and runs the frame loop, which ticks the
  devices after each CPU step and requests their interrupts up to VBlank.
- **The early generation.** This is the repository's earlier, separate
  engine: a flat 64K bus (`FlatMemoryBus`), its opcode table
  (`EarlyOpcode`), its CPU (`EarlyCpu`, proved against `EarlyExec`), its
  LCD controller (`EarlyLcd`) and its cartridge (`EarlyCartridge`).

Where the source updates an object in place, the model is a class. Its
methods are proved against a function on a datatype view of the object
(`Model()`). The properties are stated about those functions and proved
as lemmas.

The model runs the code as written, including the four discrepancies
listed under Findings: the JR target for offset -128, DAA after an
addition that leaves A in 0x9A-0x9F, the MBC1 bank number, and row 1 of
the square-wave duty table. The corrected version of each is kept beside
it as a reference, with lemmas stating where the two agree.

Unsigned 8- and 16-bit arithmetic wraps around, as in a release build.
A debug build would panic on overflow instead. This covers the routing
bus's `addr + 1` and `source + i`. Every panic of the source that input
can reach is modelled as a failure: `None`, `Panic`, a `false` flag or,
for a cartridge file shorter than 32K, a `null` cartridge. A panic that
only a programming error can reach, such as a 16-bit register name given
to `get8`, is a precondition instead.

The CPU executes over the flat 64K bus. `eval` (src/cpu/eval.rs) as
written matches neither bus: it imports the routing bus, which has no
`get16` and no `get_slice`, and the flat bus has `get16` but no
`get_slice` either. Exec.Fetch reads the three instruction bytes the way
the flat bus's `read_bytes` would. The flat bus reads and writes 16-bit values high byte first;
there `addr + 1` past 0xFFFF indexes outside memory and fails. The
routing bus has no 16-bit read, and its `set16` also writes the high byte
first.

The interrupt enum in src/interrupt_controller.rs lists only VBlank and
Timer, yet the serial port and the LCD raise `Serial` and `Stat`. The
model adds those two, at their hardware bits and vectors.

Some tests in the repository disagree with the code, and the model
follows the code:
- the immediate-operand tests in src/cpu/eval.rs expect big-endian
  values, but the decoder reads them little-endian;
- the test at src/interrupt_controller.rs:97-112 expects Timer to win over
  VBlank, but `handle` checks VBlank first.

## Model

| member | source | states |
|---|---|---|
| Registers.Combine | src/cpu/registers.rs:120-122 | a pair's value has the first register as its high byte and the second as its low byte |
| Registers.FlagsByte | src/cpu/registers.rs:100-102 | the F byte `set_flags` writes has its low nibble zero |
| Registers.Set16Get16 | src/cpu/registers.rs:54-76 | `set16(r, v)` then `get16(r)` gives `v` for AF, BC, DE, HL, SP and PC |
| Registers.Set16Halves | src/cpu/registers.rs:66-76 | `set16` on a pair writes `v >> 8` to the high register and `v & 0xFF` to the low one |
| Registers.Set8Only | src/cpu/registers.rs:78-90 | `set8(r, v)` changes register `r` only, and leaves SP and PC alone |
| Registers.Set16PointerOnly | src/cpu/registers.rs:66-76 | `set16(SP)` and `set16(PC)` change only that field |
| Registers.FlagsRoundTrip | src/cpu/registers.rs:100-118 | the four flag readers read back the booleans `set_flags` was given |
| Registers.FlagBits | src/cpu/registers.rs:104-118 | `z_flag`, `n_flag`, `h_flag` and `cy_flag` are bits 7, 6, 5 and 4 of F |
| Registers.IncPcOnly | src/cpu/registers.rs:96-98 | `inc_pc(n)` adds `n` to PC modulo 2^16 and changes nothing else |
| Registers.Registers.constructor | src/cpu/registers.rs:36-38 | `new` sets every register to 0 |
| Registers.Registers.Get8 | src/cpu/registers.rs:40-52 | `get8` reads the named 8-bit register; 16-bit names are excluded, as they panic |
| Registers.Registers.Get16 | src/cpu/registers.rs:54-64 | `get16` reads the pair, SP or PC; 8-bit names are excluded, as they panic |
| Registers.Registers.Pc | src/cpu/registers.rs:92-94 | `pc` reads PC |
| Registers.Registers.Set8 | src/cpu/registers.rs:78-90 | `set8` updates the register file as the value-level `Set8`, whose properties are the lemmas above |
| Registers.Registers.Set16 | src/cpu/registers.rs:66-76 | `set16` updates the register file as the value-level `Set16` |
| Registers.Registers.Split | src/cpu/registers.rs:124-127 | `split` writes the high byte to `rh` and then the low byte to `rl` |
| Registers.Registers.IncPc | src/cpu/registers.rs:96-98 | `inc_pc` updates the register file as the value-level `IncPc` |
| Registers.Registers.SetFlags | src/cpu/registers.rs:100-102 | `set_flags` updates the register file as the value-level `SetFlags` |
| Instr.AsI8 | src/cpu/instr.rs:122 | `b1 as i8` is the byte read in two's complement: equal to it modulo 256, and negative exactly when bit 7 is set |
| Instr.Disassemble | src/cpu/instr.rs:92-612 | `disassemble` reads three bytes and always gives 1 to 3 bytes and 1 to 6 cycles |
| Instr.AllPrimaryFacts | src/cpu/instr.rs:97-352 | every unprefixed byte: the bounds, the INVALID bytes, the taken cost of branches, the immediates, the LD block and the ALU block |
| Instr.AllPrefixedFacts | src/cpu/instr.rs:353-610 | every CB-prefixed byte: 2 bytes; 2 cycles on a register, 4 on (HL) and 3 for BIT n,(HL); bits 3-5 choose the operation or bit index, bits 0-2 the operand |
| Instr.PrimaryBounds | src/cpu/instr.rs:97-352 | every unprefixed decoding has 1 to 3 bytes and 1 to 6 cycles |
| Instr.InvalidOpcodes | src/cpu/instr.rs:97-352 | a byte decodes to INVALID exactly when it is one of D3, DB, DD, E3, E4, EB, EC, ED, F4, FC, FD, and then costs 1 cycle and 1 byte |
| Instr.LoadBlock | src/cpu/instr.rs:162-225 | 0x76 is HALT; every other byte in 0x40-0x7F is LD8 with the destination from bits 3-5 and the source from bits 0-2 over B, C, D, E, H, L, (HL), A |
| Instr.AluBlock | src/cpu/instr.rs:226-289 | 0x80-0xBF are ADD, ADC, SUB, SBC, AND, XOR, OR, CP by bits 3-5, on the operand in bits 0-2, costing 2 on (HL) and 1 otherwise |
| Instr.PrefixedTable | src/cpu/instr.rs:353-610 | the CB table's lengths, costs, operations and operands, as in `AllPrefixedFacts` |
| Instr.BranchCosts | src/cpu/instr.rs:122-352 | a conditional branch is decoded with its taken cost: JR 4 (3 unconditional), JP 4, CALL 6, RET 5 (4 unconditional) |
| Instr.Immediates | src/cpu/instr.rs:93-95 | 8-bit immediates are `bytes[1]`, and 16-bit ones are `bytes[2] << 8 \| bytes[1]` |
| Instr.PrimaryImmediates | src/cpu/instr.rs:93-95 | every unprefixed opcode with an immediate takes it from the byte, or the little-endian pair, after the opcode |
| Instr.PrefixedImmediates | src/cpu/instr.rs:93-95 | no 0xCB-prefixed instruction has an immediate operand |
| Instr.JumpExample | src/cpu/eval.rs:1559-1566 | `C3 12 80` decodes to `JP 0x8012` costing 4 cycles and 3 bytes |
| Alu.Rlc | src/cpu/eval.rs:191-197 | RLC moves bit 7 into bit 0 and into the carry: the result is twice the byte modulo 256 plus its top bit |
| Alu.Rl | src/cpu/eval.rs:198-204 | RL shifts left through the carry: the old carry enters bit 0 and the carry-out is set exactly when bit 7 was set |
| Alu.Rrc | src/cpu/eval.rs:205-211 | RRC moves bit 0 into bit 7 and into the carry |
| Alu.Rr | src/cpu/eval.rs:212-219 | RR shifts right through the carry: the old carry enters bit 7 and the carry-out is the old bit 0 |
| Alu.Sra | src/cpu/eval.rs:227-234 | SRA halves the byte keeping bit 7 (sign extension); the carry is the bit shifted out |
| Alu.Swap | src/cpu/eval.rs:242-249 | SWAP exchanges the low and high nibbles |
| Alu.Add8 | src/cpu/eval.rs:56-74 | ADD8/ADC8: the result plus 256 times C is the exact sum with the carry in; Z on a zero result, N clear, H on a carry out of the low nibble |
| Alu.Sub8 | src/cpu/eval.rs:75-93 | SUB8/SBC8/CP: the result is the exact difference plus 256 times C, so C is the borrow; Z on zero, N set, H on a borrow from the low nibble |
| Alu.And8 | src/cpu/eval.rs:94-100 | AND sets each bit set in both operands; Z on zero, H set, N and C clear |
| Alu.Or8 | src/cpu/eval.rs:101-107 | OR sets each bit set in either operand; Z exactly when both are zero; N, H, C clear |
| Alu.Xor8 | src/cpu/eval.rs:108-114 | XOR sets each bit where the operands differ; Z exactly when they are equal; N, H, C clear |
| Alu.Inc8 | src/cpu/eval.rs:123-130 | INC8 gives the next byte, 0 after 0xFF; Z exactly from 0xFF, H exactly from a low nibble of 0xF, C kept |
| Alu.Dec8 | src/cpu/eval.rs:131-139 | DEC8 gives the previous byte, 0xFF before 0; Z exactly from 1, H exactly from a low nibble of 0, C kept |
| Alu.Add16 | src/cpu/eval.rs:151-160 | ADD16: the result plus 0x10000 times C is the exact sum; H on a carry out of bit 11 |
| Alu.AddSigned16 | src/cpu/eval.rs:140-150 | ADD16 with a signed byte: exact with C for a non-negative offset; a negative one never sets C, wraps below 0 to the top of memory and takes H from its low 12 bits in two's complement |
| Alu.Sla | src/cpu/eval.rs:219-225 | SLA: the result plus 256 times the bit shifted out is twice the byte |
| Alu.Srl | src/cpu/eval.rs:234-240 | SRL: twice the result plus the bit shifted out is the byte |
| Alu.TestBit | src/cpu/eval.rs:250-254 | BIT sets Z exactly when bit k of the byte is clear |
| Alu.SetBit | src/cpu/eval.rs:261-266 | SET sets bit k and leaves every other bit as it was |
| Alu.ResBit | src/cpu/eval.rs:255-260 | RES clears bit k and leaves every other bit as it was |
| Alu.AddThenSub | src/cpu/eval.rs:56-93 | SUB8/SBC8 of what ADD8/ADC8 added gives the byte back, with the same carry and half-carry |
| Alu.SubThenAdd | src/cpu/eval.rs:56-93 | ADD8/ADC8 of what SUB8/SBC8 subtracted gives the byte back, with the same carry and half-carry |
| Alu.ArithmeticFlags | src/cpu/eval.rs:56-93 | Z is set exactly for a zero result, N only for subtraction, carry exactly on overflow past 0xFF or a borrow |
| Alu.IncDecAreAddSubOfOne | src/cpu/eval.rs:123-139 | INC8 and DEC8 are ADD8 and SUB8 of 1 except that they keep the carry flag |
| Alu.IncDecInverse | src/cpu/eval.rs:123-139 | DEC8 undoes INC8 and vice versa; INC of 0xFF wraps to 0 with Z set and DEC of 0 wraps to 0xFF |
| Alu.SignedAddAgrees | src/cpu/eval.rs:140-150 | ADD16 with a signed 8-bit operand wraps to the 16-bit sum; a non-negative offset behaves like the unsigned ADD16, a negative one never sets the carry |
| Alu.Add16Flags | src/cpu/eval.rs:151-160 | ADD16 wraps modulo 0x10000, sets carry on overflow past 0xFFFF and half-carry on overflow out of bit 11 |
| Alu.RotateInverse | src/cpu/eval.rs:191-211 | RRC undoes RLC and RLC undoes RRC |
| Alu.RotateThroughCarryInverse | src/cpu/eval.rs:198-219 | RR undoes RL and RL undoes RR on the nine bits of byte and carry |
| Alu.ShiftMeaning | src/cpu/eval.rs:220-241 | SLA doubles, SRL halves and SRA halves keeping the sign bit; the bit shifted out becomes the carry; SRL after SLA clears bit 7, SLA after SRL clears bit 0 |
| Alu.SwapNibbles | src/cpu/eval.rs:242-249 | SWAP exchanges nibbles and is its own inverse |
| Alu.SetResRoundTrip | src/cpu/eval.rs:250-266 | after SET the bit tests as set, after RES as clear; RES after SET equals RES and SET after RES equals SET |
| Cpu.Cpu.constructor | src/cpu/mod.rs:17-31 | `new(CGB)` sets A to 0x11 and every other register to 0, other modes zero every register; IME, halted and debug start false |
| Cpu.Cpu.SkipBootRom | src/cpu/mod.rs:33-35 | `skip_boot_rom` sets PC to 0x100 and changes no other register |
| Cpu.Cpu.EnableDebug | src/cpu/mod.rs:37-39 | `enable_debug` sets the debug flag and nothing else |
| Cpu.Cpu.Step | src/cpu/mod.rs:41-43 | `step` is exactly one `eval`: it panics when `eval` does, and otherwise returns its cycle count and state, that of `Exec.Step` |
| Cpu.Cpu.Eval | src/cpu/eval.rs:11-383 | `eval` fetches three bytes at PC, decodes them and executes the opcode; it ends in `Exec.Step`'s state and cycle count, with JR and DAA as written, and panics exactly where `Exec.Step` does |
| Cpu.Cpu.EvalPlain | src/cpu/eval.rs:21-266 | the non-branching arms of `eval` succeed exactly when `Exec.Plain` does, and then leave its state |
| Cpu.Cpu.GetU8 | src/cpu/eval.rs:427-437 | `get_u8` reads a register, an immediate, or memory at the pair, C offset or address it names; it fails for operands that are not 8-bit |
| Cpu.Cpu.Ld8 | src/cpu/eval.rs:415-425 | `ld8` writes the byte `get_u8(src)` reads to the register or address `dst` names, and fails exactly when `Exec.Load8` does |
| Cpu.Cpu.GetU16 | src/cpu/eval.rs:448-456 | `get_u16` reads a 16-bit register or an immediate, and fails for other operands |
| Cpu.Cpu.Ld16 | src/cpu/eval.rs:439-446 | `ld16` writes a 16-bit register, or two bytes of memory through `set16` |
| Cpu.Cpu.PushPc | src/cpu/eval.rs:385-394 | `push_pc(n)` leaves the state `Exec.PushPc` defines: PC+n stored below SP, and SP two lower |
| Cpu.Cpu.PopPc | src/cpu/eval.rs:396-403 | `pop_pc` leaves the state `Exec.PopPc` defines: PC read from SP, and SP two higher |
| Cpu.Cpu.EvalLoad | src/cpu/eval.rs:21-55 | NOP, the 8- and 16-bit loads, PUSH and POP leave the state `Exec.Loads` defines, and fail exactly when it does |
| Cpu.Cpu.LoadByte | src/cpu/eval.rs:22-32 | LD8, LD8I and LD8D, the last two moving HL by one with u16 wrap-around |
| Cpu.Cpu.LoadWord | src/cpu/eval.rs:33-45 | LD16, including `LD HL, SP+r8`, whose H is the carry out of bit 11 and whose C is the carry out of bit 15, as AddSigned16 computes them |
| Cpu.Cpu.Push | src/cpu/eval.rs:46-50 | PUSH writes the pair through `set16` at SP-2, and SP moves down by two |
| Cpu.Cpu.Pop | src/cpu/eval.rs:51-55 | POP reads the pair back from SP, and SP moves up by two |
| Cpu.Cpu.SetAccumulator | src/cpu/eval.rs:56-139 | an 8-bit ALU result is written to A and its flags to F |
| Cpu.Cpu.EvalArith8 | src/cpu/eval.rs:56-139 | ADD8 to DEC8 leave the state `Exec.Arith8` defines, whose flag rules are proved in `Alu` |
| Cpu.Cpu.EvalArith16 | src/cpu/eval.rs:140-166 | ADD16, `ADD SP, r8`, INC16 and DEC16 leave the state `Exec.Arith16` defines |
| Cpu.Cpu.EvalAdd16 | src/cpu/eval.rs:140-160 | ADD16 and `ADD SP, r8` leave the state `Exec.Arith16` defines, failing only for a source `get_u16` refuses |
| Cpu.Cpu.EvalIncDec16 | src/cpu/eval.rs:161-166 | INC16 and DEC16 never fail and leave the state `Exec.Arith16` defines, the pair stepped by one with 16-bit wrap-around |
| Cpu.Cpu.RotateAccumulator | src/cpu/eval.rs:167-190 | RLCA, RLA, RRCA and RRA write A, clear Z, N and H, and set C to the bit shifted out |
| Cpu.Cpu.ShiftInto | src/cpu/eval.rs:191-241 | a CB rotate or shift stores its result through `ld8`, then sets Z for a zero result and C to the bit shifted out |
| Cpu.Cpu.EvalBitOp | src/cpu/eval.rs:167-266 | the rotates, shifts, SWAP, BIT, SET and RES leave the state `Exec.BitOps` defines |
| Cpu.Cpu.EvalCbOp | src/cpu/eval.rs:191-266 | a CB-prefixed instruction on an operand already read leaves the state `Exec.CbOp` defines |
| Cpu.Cpu.DecimalAdjust | src/cpu/eval.rs:315-350 | DAA built with mutable locals as the source does, high-digit test `hn >= 10` included, ends in `Exec.DaaAsWritten`'s result |
| Cpu.Cpu.EvalMisc | src/cpu/eval.rs:315-366 | DAA, CPL, CCF, SCF, DI and EI never fail, and leave the state `Exec.Misc` defines, DAA as written |
| Cpu.Cpu.EvalFlagOp | src/cpu/eval.rs:315-360 | DAA, CPL, CCF and SCF change A and F as `Exec.FlagOp` defines, DAA as written |
| Cpu.Cpu.EvalControl | src/cpu/eval.rs:267-314 | JP, JR, CALL, RET, RETI and RST leave `Exec.Control`'s state, cycle count and PC decision, JR with the target as written; an untaken branch costs less and lets PC move on |
| Exec.Locate | src/cpu/eval.rs:415-437 | the operand forms `get_u8` and `ld8` accept resolve to a location, and a register location is always an 8-bit register; the forms that panic give no location |
| Exec.GetU8 | src/cpu/eval.rs:427-437 | `get_u8` fails exactly on a D16 or I8 operand, a 16-bit register, or an 8-bit register other than C in brackets; `(C)` and `a8` read the page at 0xFF00 |
| Exec.GetU16 | src/cpu/eval.rs:448-455 | `get_u16` fails exactly on operands other than a 16-bit register, D16 or I8; an I8 operand is sign-extended to 16 bits |
| Exec.DaaAdjust | src/cpu/eval.rs:315-350 | the reference adjustment: after an addition C is set exactly on carry or A above 0x99, after a subtraction without carry never; a BCD byte with no pending carries is not adjusted |
| Exec.DaaAdjustAsWritten | src/cpu/eval.rs:322-345 | the adjustment as written: the reference after a subtraction; after an addition C on carry or high digit of 10 or more; it differs from the reference exactly at A = 0x9A-0x9F with N and C clear |
| Exec.Daa | src/cpu/eval.rs:346-349 | the reference DAA keeps N, clears H, sets Z on a zero result, and leaves a BCD byte with no pending carries as it is |
| Exec.DaaAsWritten | src/cpu/eval.rs:315-350 | DAA as the engine runs it keeps N, clears H, sets Z on zero, and equals the reference except after an addition that leaves A in 0x9A-0x9F without carry |
| Exec.FlagOp | src/cpu/eval.rs:315-360 | only A and F change, F's low nibble is 0; DAA gives DaaAsWritten, CPL complements A and sets N and H, CCF flips C, SCF sets C and clears N and H, each keeping the other flags |
| Exec.JrTarget | src/cpu/eval.rs:276-282 | the reference JR target is PC plus the signed offset, wrapped into 16 bits |
| Exec.JrTargetAsWritten | src/cpu/eval.rs:278-282 | the target as written equals the reference for every offset but -128, where it is PC + 128 and differs from it |
| Exec.Store8 | src/cpu/eval.rs:415-425 | `ld8`'s store keeps the machine well-formed and leaves IME alone; that the stored byte reads back is ExecFacts.StoreThenGet |
| Exec.Load8 | src/cpu/eval.rs:415-425 | `ld8` keeps the machine well-formed and leaves IME alone |
| Exec.Store16 | src/cpu/eval.rs:439-446 | `ld16`'s store keeps the machine well-formed and leaves IME alone |
| Exec.Load16 | src/cpu/eval.rs:439-456 | `ld16` keeps the machine well-formed and leaves IME alone |
| Exec.LoadByte | src/cpu/eval.rs:22-32 | LD8, LD8I and LD8D keep the machine well-formed and leave IME alone |
| Exec.LoadWord | src/cpu/eval.rs:33-45 | LD16, including `LD HL, SP+r8`, keeps the machine well-formed and leaves IME alone |
| Exec.Push | src/cpu/eval.rs:46-50 | PUSH keeps the machine well-formed and leaves IME alone; its effect is ExecFacts.PushPair |
| Exec.Pop | src/cpu/eval.rs:51-55 | POP keeps the machine well-formed and leaves IME alone; its effect is ExecFacts.PopPair |
| Exec.Loads | src/cpu/eval.rs:21-55 | NOP, the loads and the stack instructions keep the machine well-formed and leave IME alone |
| Exec.Arith8 | src/cpu/eval.rs:56-139 | the 8-bit arithmetic keeps the machine well-formed and leaves IME alone; its results are ExecFacts.AluInstructions and ExecFacts.IncDecKeepCarry |
| Exec.Arith16 | src/cpu/eval.rs:140-166 | ADD16, INC16 and DEC16 keep the machine well-formed and leave IME alone |
| Exec.ShiftInto | src/cpu/eval.rs:191-249 | storing a rotate or shift result keeps the machine well-formed and leaves IME alone |
| Exec.CbOp | src/cpu/eval.rs:191-266 | a CB-prefixed instruction keeps the machine well-formed and leaves IME alone |
| Exec.BitOps | src/cpu/eval.rs:167-266 | the rotates, shifts, SWAP, BIT, SET and RES keep the machine well-formed and leave IME alone; their effects are ExecFacts.BitInstruction and ExecFacts.SetResInstructions |
| Exec.Misc | src/cpu/eval.rs:315-366 | DAA, CPL, CCF, SCF, DI and EI keep the machine well-formed |
| Exec.PushPc | src/cpu/eval.rs:385-394 | `push_pc` keeps the machine well-formed and IME; its frame is ExecFacts.PushPcFrame |
| Exec.PopPc | src/cpu/eval.rs:396-403 | `pop_pc` keeps the machine well-formed and IME |
| Exec.Control | src/cpu/eval.rs:267-314 | a jump, call or return that does not panic leaves a well-formed machine |
| Exec.Plain | src/cpu/eval.rs:21-266 | every non-jump instruction that does not panic leaves a well-formed machine |
| Exec.Execute | src/cpu/eval.rs:11-383 | executing a decoded instruction that does not panic leaves a well-formed machine |
| Exec.Fetch | src/cpu/eval.rs:458-462 | the decoder is handed exactly three bytes, or the fetch panics past the end of memory |
| Exec.Step | src/cpu/eval.rs:11-383 | one `eval` that does not panic leaves a well-formed machine |
| ExecFacts.PlainAdvancesPc | src/cpu/eval.rs:377-381 | every instruction that neither jumps nor writes PC moves PC past itself modulo 0x10000 and costs its decoded cycles; only DI and EI change IME |
| ExecFacts.UntakenBranch | src/cpu/eval.rs:267-304 | a JP, JR, CALL or RET whose condition fails only steps PC past itself, and costs the decoded cycles less the refund (1 for JP and JR, 3 for CALL and RET) |
| ExecFacts.TakenJr | src/cpu/eval.rs:276-287 | a taken JR adds the signed offset to PC, except that offset -128 jumps forward 128 as the source computes it, and then still steps PC past the two-byte instruction |
| ExecFacts.TakenJumpTargets | src/cpu/eval.rs:267-314 | a taken JP or CALL, RST, a taken RET and RETI leave PC at their target; RETI sets IME |
| ExecFacts.ExecutePlain | src/cpu/eval.rs:377-381 | a non-jump instruction is its own effect followed by `inc_pc(n_bytes)`, and panics exactly when its effect panics |
| ExecFacts.ExecuteControl | src/cpu/eval.rs:267-314 | a jump, call or return steps PC past itself only when it did not jump |
| ExecFacts.PopPushedPc | src/cpu/eval.rs:385-403 | `pop_pc` after `push_pc(n)` restores SP and returns PC n bytes past where it was |
| ExecFacts.PushPcFrame | src/cpu/eval.rs:385-394 | `push_pc` stores the high byte at SP-1 and the low byte at SP-2, moves SP down by two and changes no other memory |
| ExecFacts.CallTaken | src/cpu/eval.rs:288-296 | an unconditional CALL pushes the return address PC+3 and jumps to its address without a further PC step |
| ExecFacts.RstTaken | src/cpu/eval.rs:310-314 | RST pushes PC+1 and jumps to its vector |
| ExecFacts.RetTaken | src/cpu/eval.rs:297-304 | an unconditional RET pops PC |
| ExecFacts.CallThenRet | src/cpu/eval.rs:288-304 | CALL followed by RET returns to the instruction after the CALL with SP restored |
| ExecFacts.RstThenRet | src/cpu/eval.rs:297-314 | RST followed by RET returns to the instruction after the RST with SP restored |
| ExecFacts.PushThenPop | src/cpu/eval.rs:46-55 | PUSH r then POP s copies r into s and restores SP; PUSH panics exactly when SP is 1 |
| ExecFacts.PushPair | src/cpu/eval.rs:46-50 | PUSH moves SP down by two and stores the pair there with `set16`, high byte first |
| ExecFacts.PopPair | src/cpu/eval.rs:51-55 | POP reads the pair with `get16` at SP and moves SP up by two |
| ExecFacts.PushThenRetSwapsBytes | src/cpu/eval.rs:46-50 | since PUSH stores high byte first and RET reads low byte first, PUSH rr then RET jumps to rr with its bytes exchanged |
| ExecFacts.StoreThenGet | src/cpu/eval.rs:415-437 | a byte stored through an operand reads back through the same operand |
| ExecFacts.OperandPanics | src/cpu/eval.rs:415-456 | exactly the operand forms `get_u8`, `ld8`, `get_u16` and `ld16` reject panic |
| ExecFacts.UnimplementedPanics | src/cpu/eval.rs:367-375 | HALT, STOP and an invalid opcode panic |
| ExecFacts.AluInstructions | src/cpu/eval.rs:56-122 | ADD8..CP put the ALU result in A and its flags in F (CP writes only the flags) and leave memory, PC and IME alone |
| ExecFacts.IncDecKeepCarry | src/cpu/eval.rs:123-139 | INC8 and DEC8 of any operand but F keep the C flag |
| ExecFacts.BitInstruction | src/cpu/eval.rs:250-254 | BIT k sets Z exactly when bit k is clear, sets H, clears N and keeps C, the other registers and memory |
| ExecFacts.SetResInstructions | src/cpu/eval.rs:255-266 | SET and RES on a register change only the target bit and leave the flags alone |
| ExecFacts.DaaAfterAdd | src/cpu/eval.rs:315-350 | for the BCD-correct reference `Exec.Daa`: after adding two BCD bytes, DAA gives the BCD of the decimal sum modulo 100 and sets C exactly when the sum reaches 100 |
| ExecFacts.DaaAfterSub | src/cpu/eval.rs:315-350 | after subtracting two BCD bytes, DAA as written equals the reference and gives the BCD of the decimal difference modulo 100, setting C exactly on a borrow |
| ExecFacts.DaaAsWrittenAfterAdd | src/cpu/eval.rs:315-350 | after adding two BCD bytes, DAA as written gives the BCD sum modulo 100 with C on reaching 100, except when A is 0x9A-0x9F: then the sum is 100-105 and A just gains 6 without carry |
| ExecFacts.DaaAddMisses | src/cpu/eval.rs:342-345 | a BCD addition leaving A in 0x9A-0x9F sets neither H nor C, and DAA as written then adds only 6 |
| ExecFacts.DaaAsWrittenDiffers | src/cpu/eval.rs:342-345 | the DAA as written differs from the corrected one exactly after an addition leaving A in 0x9A-0x9F without carry, e.g. 0x45 + 0x55 |
| ExecFacts.JrAsWrittenDiffers | src/cpu/eval.rs:278-282 | the JR target as written equals PC + offset for every offset but -128, where it lands 256 bytes too far |
| ExecFacts.LoadCopies | src/cpu/eval.rs:415-437 | an `ld8` that succeeds read its source, and its destination then reads back that value |
| ExecFacts.Load16Copies | src/cpu/eval.rs:439-456 | an `ld16` that succeeds read its source; a destination pair then holds that value, and a destination `(a16)` reads it back high byte first |
| FlatMemoryBus.Read16 | src/memory_bus.rs:39-42 | `get16` reads the byte at the address as the high byte and the next one as the low byte, and panics exactly at 0xFFFF |
| FlatMemoryBus.Write16 | src/memory_bus.rs:30-34 | `set16` stores the high byte at the address and the low byte after it, changes no other byte, and panics exactly at 0xFFFF |
| FlatMemoryBus.Write16Read16 | src/memory_bus.rs:30-42 | a 16-bit read after a 16-bit write at the same address gives the value back |
| FlatMemoryBus.Read16Write16 | src/memory_bus.rs:30-42 | writing back the 16-bit value just read changes nothing |
| FlatMemoryBus.MemoryBus.Contents | src/memory_bus.rs:3-5 | the bus's memory viewed as a sequence as long as the array |
| FlatMemoryBus.MemoryBus.constructor | src/memory_bus.rs:8-19 | `new` gives 64K zero bytes; `new_from_slice` puts the data at address 0 with zeros after it |
| FlatMemoryBus.MemoryBus.Load | src/memory_bus.rs:20-25 | `load` copies the data from the start address on and leaves every other byte alone |
| FlatMemoryBus.MemoryBus.Set8 | src/memory_bus.rs:26-29 | `set8` changes exactly the addressed byte |
| FlatMemoryBus.MemoryBus.Set16 | src/memory_bus.rs:30-34 | `set16` on the array agrees with Write16 and fails exactly at 0xFFFF |
| FlatMemoryBus.MemoryBus.Get8 | src/memory_bus.rs:35-38 | `get8` returns the addressed byte |
| FlatMemoryBus.MemoryBus.Get16 | src/memory_bus.rs:39-42 | `get16` on the array agrees with Read16 |
| FlatMemoryBus.MemoryBus.ReadBytes | src/memory_bus.rs:43-52 | `read_bytes` fills the buffer with the bytes from the address on, and fails exactly when that runs past the end of memory |
| EarlyOpcode.AllTableFacts | src/opcode.rs:48-158 | every decoded instruction is 1-3 bytes and 1-5 cycles, names only operands the processor can carry out, takes its immediates from bytes 1-2 (16-bit, high byte first) or byte 1, and 0x40-0x7F decode as the register-to-register LD block with 0x76 as HALT |
| EarlyCpu.Cpu.constructor | src/cpu.rs:14-19 | `new` keeps the given bus and starts with a zeroed register file |
| EarlyCpu.Cpu.Step | src/cpu.rs:21-56 | `step` on the object does what EarlyExec.Step does on the state, including where it panics |
| EarlyCpu.Cpu.Execute | src/cpu.rs:24-52 | the match in `step` agrees with EarlyExec.Execute |
| EarlyCpu.Cpu.LoadByte | src/cpu.rs:27-37 | LD8, LD8I and LD8D agree with EarlyExec.LoadByte |
| EarlyCpu.Cpu.Push | src/cpu.rs:41-45 | PUSH agrees with EarlyExec.Push |
| EarlyCpu.Cpu.Pop | src/cpu.rs:46-50 | POP agrees with EarlyExec.Pop |
| EarlyCpu.Cpu.Ld8 | src/cpu.rs:58-67 | `ld8` agrees with EarlyExec.Load8 |
| EarlyCpu.Cpu.GetU8 | src/cpu.rs:69-79 | `get_u8` agrees with EarlyExec.GetU8 and changes nothing |
| EarlyCpu.Cpu.Ld16 | src/cpu.rs:81-88 | `ld16` agrees with EarlyExec.Load16 |
| EarlyCpu.Cpu.GetU16 | src/cpu.rs:90-97 | `get_u16` agrees with EarlyExec.GetU16 |
| EarlyExec.GetU8 | src/cpu.rs:69-79 | `get_u8` fails exactly on D16, a 16-bit register, or an 8-bit register other than C in brackets; `(C)` and `a8` read the page at 0xFF00 |
| EarlyExec.GetU16 | src/cpu.rs:90-97 | `get_u16` fails exactly on operands other than a 16-bit register or D16 |
| EarlyExec.Fetch | src/cpu.rs:99-104 | the decoder is handed exactly three bytes, or the read panics past the end of memory |
| EarlyExec.Load8 | src/cpu.rs:58-67 | `ld8` keeps the state well-formed |
| EarlyExec.Load16 | src/cpu.rs:81-88 | `ld16` keeps the state well-formed |
| EarlyExec.LoadByte | src/cpu.rs:27-37 | LD8, LD8I and LD8D keep the state well-formed |
| EarlyExec.Push | src/cpu.rs:41-45 | PUSH keeps the state well-formed |
| EarlyExec.Pop | src/cpu.rs:46-50 | POP keeps the state well-formed |
| EarlyExec.Execute | src/cpu.rs:24-52 | the arms of `step` keep the state well-formed |
| EarlyExec.Step | src/cpu.rs:21-56 | `step` keeps the state well-formed |
| EarlyExec.ExecuteFails | src/cpu.rs:38-50 | a decoded instruction fails exactly on a 16-bit access at 0xFFFF: PUSH with SP = 1, POP with SP = 0xFFFF, or `LD (0xFFFF), SP` |
| EarlyExec.ExecuteKeepsPc | src/cpu.rs:24-52 | no decoded instruction writes PC |
| EarlyExec.StepAdvancesPc | src/cpu.rs:21-56 | `step` returns the decoded cycle count and moves PC forward by the decoded length; it panics exactly on a fetch past memory, an opcode outside the table or a failing 16-bit access |
| EarlyExec.StoreIncrement | src/cpu.rs:30-33 | `LD (HL+), A` stores A at HL and then increments HL |
| EarlyExec.LoadDecrement | src/cpu.rs:34-37 | `LD A, (HL-)` loads A from HL and then decrements HL |
| EarlyExec.StoreIncrementByte | src/cpu.rs:30-33 | the `ld8` half of `LD (HL+), A` followed by the HL increment, HL = 0xFFFF wrapping to 0 |
| EarlyExec.LoadDecrementByte | src/cpu.rs:34-37 | the `ld8` half of `LD A, (HL-)` followed by the HL decrement, HL = 0 wrapping to 0xFFFF |
| EarlyExec.StoreStackPointer | src/cpu.rs:81-88 | `LD (a16), SP` stores SP high byte first and leaves the rest of memory alone |
| EarlyExec.PushStores | src/cpu.rs:41-45 | PUSH moves SP down by two and stores the pair there high byte first |
| EarlyExec.PushThenPop | src/cpu.rs:41-50 | PUSH r then POP q loads r's value into q and restores SP |
| EarlyExec.PopAfterPush | src/cpu.rs:41-50 | the POP that follows a PUSH succeeds and reads back the value pushed |
| EarlyExec.PushPair | src/cpu.rs:41-45 | PUSH of a pair as a value: SP minus two and the pair stored there |
| EarlyExec.PopPair | src/cpu.rs:46-50 | POP of a pair as a value: the pair read at SP and SP plus two |
| RamRom.Loaded | src/ram_device.rs:18-22 | after `load` the first cells hold the data and the rest keep their bytes |
| RamRom.RamDevice.constructor | src/ram_device.rs:9-16 | a new RAM holds `size` zero bytes mapped from `offset` |
| RamRom.RamDevice.Load | src/ram_device.rs:18-22 | `load` gives Loaded when the data fits, and panics after filling the buffer when it is longer |
| RamRom.RamDevice.Get8 | src/ram_device.rs:30-32 | a read returns the byte at `addr - offset` and panics outside the buffer |
| RamRom.RamDevice.Set8 | src/ram_device.rs:26-28 | a write changes exactly the byte at `addr - offset`, reads back, leaves every other address's read unchanged, and panics outside the buffer |
| RamRom.RamDevice.GetSlice | src/ram_device.rs:34-37 | `get_slice` returns the `size` bytes from `addr - offset`, and panics when they run past the buffer |
| RamRom.RomDevice.constructor | src/rom_device.rs:8-14 | a new ROM holds `size` zero bytes |
| RamRom.RomDevice.Load | src/rom_device.rs:16-20 | `load` gives Loaded when the data fits, and panics after filling the buffer when it is longer |
| RamRom.RomDevice.Get8 | src/rom_device.rs:28-30 | a read returns the byte at `addr` and panics past the end |
| RamRom.RomDevice.Set8 | src/rom_device.rs:24-26 | every write to ROM panics |
| RamRom.RomDevice.GetSlice | src/rom_device.rs:32-35 | `get_slice` returns the `size` bytes from `addr`, and panics when they run past the end |
| Mapping.Registered | src/memory/memory_map.rs:62-69 | after `register`, every address an area covers names the device and every other address keeps its owner |
| Mapping.EmptyMap | src/memory/memory_map.rs:44-49 | a new map has no owner for any address |
| Mapping.RegisterElsewhere | src/memory/memory_map.rs:62-69 | registering areas that do not cover an address leaves its owner alone |
| Mapping.LaterRegistrationWins | src/memory/memory_map.rs:62-69 | of two registrations covering an address the later one owns it |
| Mapping.NullGet8 | src/memory/memory_map.rs:92-95 | the null device reads 0xFF everywhere |
| Mapping.SymbolAt | src/memory/memory_map.rs:55-60 | there is no name without a symbol table, and otherwise the table's name for the address |
| Mapping.MemoryMap.constructor | src/memory/memory_map.rs:44-49 | a new map is EmptyMap with no symbols |
| Mapping.MemoryMap.SetSymbols | src/memory/memory_map.rs:51-53 | `set_symbols` installs the table given |
| Mapping.MemoryMap.GetSym | src/memory/memory_map.rs:55-60 | `get_sym` agrees with SymbolAt |
| Mapping.MemoryMap.Register | src/memory/memory_map.rs:62-69 | the nested loops of `register` compute Registered, and panic when an area runs past the 64K table |
| Mapping.MemoryMap.GetId | src/memory/memory_map.rs:71-76 | `get_id` returns the registered owner and panics where there is none |
| RoutingBus.Read | src/memory/memory_bus.rs:20-22 | a read goes to the device registered for the address and fails where none is |
| RoutingBus.ReadBlock | src/memory/memory_bus.rs:28-50 | the DMA gathering loop yields the `n` bytes from `source` up, wrapping past 0xFFFF, and fails exactly when one of them is unreadable |
| RoutingBus.HdmaLength | src/memory/memory_bus.rs:38 | the HDMA5 length is 16 times one more than the low seven bits, from 16 to 0x800 |
| RoutingBus.Read3 | src/memory/memory_bus.rs:67-69 | `get_arr3` reads the three bytes at `addr`, `addr + 1` and `addr + 2`, wrapping past 0xFFFF, and fails where any of them does |
| RoutingBus.DmaCopiesToOam | src/memory/memory_bus.rs:30-37 | a write to 0xFF46 hands the LCD the 160 bytes from `b << 8`, read through the bus, and is not passed to the owner of 0xFF46 |
| RoutingBus.HdmaModes | src/memory/memory_bus.rs:38-50 | an HDMA5 write with bit 7 set only requests an HBlank transfer of its length; with bit 7 clear it copies that many bytes from the LCD's source |
| RoutingBus.WriteForwards | src/memory/memory_bus.rs:51-53 | every other write goes to the owner of the address and fails where there is none |
| RoutingBus.Write | src/memory/memory_bus.rs:28-55 | a write fails at an unowned address; a DMA write that succeeds has read all 160 source bytes; an HDMA5 write with bit 7 clear that succeeds has a source and read every byte of the block |
| RoutingBus.WriteThenRead | src/memory/memory_bus.rs:51-65 | where the owner keeps what is written, a forwarded write and then a read at the same address return the byte |
| RoutingBus.Write16SameDevice | src/memory/memory_bus.rs:57-61 | `set16` sends both bytes, high first, to the owner of `addr`, even if another device owns `addr + 1`, which wraps to 0 after 0xFFFF |
| RoutingBus.Write16ThenRead | src/memory/memory_bus.rs:57-61 | where one device owns `addr` and `addr + 1` and keeps what is written there, reads after `set16` give the high byte at `addr` and the low byte after it |
| RoutingBus.Write16 | src/memory/memory_bus.rs:57-61 | `set16` fails when no device owns `addr` or the owner refuses the high byte |
| RoutingBus.Offset | src/memory/memory_bus.rs:31-47 | `source + i` as a 16-bit sum: itself below 0x10000, and 0x10000 less past it |
| RoutingBus.MemoryBus.constructor | src/memory/memory_bus.rs:12-14 | the bus keeps the map and the devices it is given |
| RoutingBus.MemoryBus.Get8 | src/memory/memory_bus.rs:63-65 | `get8` on the object agrees with Read |
| RoutingBus.MemoryBus.GetArr3 | src/memory/memory_bus.rs:67-69 | `get_arr3` agrees with Read3 |
| RoutingBus.MemoryBus.Gather | src/memory/memory_bus.rs:31-47 | the byte-copy loop of both DMA paths fills a fresh buffer with ReadBlock's bytes and fails exactly when ReadBlock does |
| RoutingBus.MemoryBus.Set8 | src/memory/memory_bus.rs:28-55 | `set8` agrees with the value-level Write, including the DMA and HDMA5 intercepts, and changes nothing where it panics |
| RoutingBus.MemoryBus.Set16 | src/memory/memory_bus.rs:57-61 | `set16` agrees with the value-level Write16 |
| DeviceManagers.NullDevice.Get8 | src/memory/memory_map.rs:92-95 | every read of the null device gives 0xFF |
| DeviceManagers.NullDevice.Set8 | src/memory/memory_map.rs:88-90 | a write to the null device is dropped: reads still give 0xFF |
| DeviceManagers.DeviceManager.constructor | src/memory/memory_map.rs:113-127 | every slot starts empty; only Ignore names a device |
| DeviceManagers.DeviceManager.Get | src/memory/memory_map.rs:136-256 | a device exactly when its slot is filled (the getter panics otherwise): the null device for Ignore and, for every other id, the device in that id's own slot |
| DeviceManagers.DeviceManager.SetRamBank0 | src/memory/memory_map.rs:143-145 | only the first RAM bank slot changes, to the device given |
| DeviceManagers.DeviceManager.SetRamBank1 | src/memory/memory_map.rs:154-156 | only the second RAM bank slot changes |
| DeviceManagers.DeviceManager.SetHram | src/memory/memory_map.rs:231-233 | only the HRAM slot changes |
| DeviceManagers.DeviceManager.SetInterruptController | src/memory/memory_map.rs:165-167 | only the interrupt controller slot changes |
| DeviceManagers.DeviceManager.SetJoypadController | src/memory/memory_map.rs:176-178 | only the joypad slot changes |
| DeviceManagers.DeviceManager.SetTimer | src/memory/memory_map.rs:187-189 | only the timer slot changes |
| DeviceManagers.DeviceManager.SetLcdController | src/memory/memory_map.rs:198-200 | only the LCD slot changes |
| DeviceManagers.DeviceManager.SetSoundController | src/memory/memory_map.rs:209-211 | only the sound slot changes |
| DeviceManagers.DeviceManager.SetSerialController | src/memory/memory_map.rs:220-222 | only the serial slot changes |
| DeviceManagers.DeviceManager.SetCartridge | src/memory/memory_map.rs:129-134 | succeeds exactly when the cartridge is CGB-compatible or an LCD is installed; a DMG-only cartridge switches the LCD to DMG mode; on success only the cartridge slot changes, on failure nothing does |
| GameboyMap.RamAreas | src/gameboy.rs:59 | work RAM's area covers exactly the addresses from 0xC000 up |
| GameboyMap.InterruptAreas | src/interrupt_controller.rs:42-47 | the interrupt controller's areas cover exactly IE (0xFFFF) and IF (0xFF0F) |
| GameboyMap.TimerAreas | src/timer_controller.rs:69-73 | the timer's area covers exactly 0xFF04-0xFF07 |
| GameboyMap.JoypadAreas | src/joypad_controller.rs:35-39 | the joypad's area covers exactly P1 (0xFF00) |
| GameboyMap.SerialAreas | src/serial.rs:23-27 | the serial port's area covers exactly SB and SC (0xFF01, 0xFF02) |
| GameboyMap.SoundAreas | src/sound/controller.rs:195-203 | the sound controller's areas cover exactly its channel registers and wave RAM |
| GameboyMap.MemoryLayerOwners | src/gameboy.rs:59-60 | after work RAM and the cartridge register, every address outside VRAM has the owner the range table names |
| GameboyMap.IoLayerOwners | src/gameboy.rs:64-69 | each I/O registration gives its own addresses to its device and leaves every other address alone |
| GameboyMap.DeviceMapOwners | src/gameboy.rs:58-70 | whatever table it starts from, map_devices leaves every address with the owner the range table names, the I/O devices winning over work RAM |
| GameboyMap.DeviceMapTotal | src/gameboy.rs:58-70 | after map_devices every address has an owner, so no address lookup panics |
| Gameboys.Requested | src/gameboy.rs:88-99 | the interrupts requested are a prefix of those raised: all of them when none is VBlank, otherwise up to and including the first VBlank |
| Gameboys.RequestAllBits | src/gameboy.rs:88-89 | after the requests, each requested interrupt's IF bit is set and every other bit is as before |
| Gameboys.TickDevices | src/gameboy.rs:81-83 | ticking the timer, the LCD and the serial port keeps the timer well-formed and leaves IF alone |
| Gameboys.RunFromEndsAtVBlank | src/gameboy.rs:76-100 | once a step has raised VBlank, later clock counts make no difference: the loop has returned |
| Gameboys.RunFromContinues | src/gameboy.rs:76-100 | a run that has not reached VBlank goes on from the state it stands in |
| Gameboys.FrameEndsAtVBlank | src/gameboy.rs:72-101 | a frame that has reached VBlank is unchanged by further CPU steps |
| Gameboys.FrameContinues | src/gameboy.rs:72-101 | a frame not yet at VBlank continues from where it stands with the next clock counts |
| Gameboys.VBlankStep | src/gameboy.rs:81-99 | in a step where the LCD raises VBlank, the timer's interrupts are all requested and the LCD's STAT and the serial interrupts of that step are never requested |
| Gameboys.RequestedAfter | src/gameboy.rs:88-99 | interrupts raised before the first VBlank are all requested, and the rest is cut as it would be alone |
| Gameboys.Gameboy.constructor | src/gameboy.rs:23-43 | work RAM, interrupts, timer, LCD, sound, serial and joypad fill their slots and nothing else does; the address map and symbols are empty; timer, LCD and serial start in their reset state |
| Gameboys.Gameboy.NewIoDevices | src/gameboy.rs:29-34 | the I/O devices are fresh and in their reset state |
| Gameboys.Gameboy.Install | src/gameboy.rs:27-34 | the slot table holds work RAM from 0xC000 and the I/O devices, and nothing else |
| Gameboys.Gameboy.MapDevices | src/gameboy.rs:58-70 | the address map becomes DeviceMap of the old one, the symbols are the cartridge's, the cartridge fills its slot, and a DMG-only cartridge puts the LCD in DMG mode |
| Gameboys.Gameboy.MapIo | src/gameboy.rs:64-69 | the address map becomes the I/O registrations applied to the old one |
| Gameboys.Gameboy.Boot | src/gameboy.rs:45-56 | skipping the boot ROM starts the CPU at 0x100 and hands the first 256 ROM bytes back to the cartridge; either way every address ends up with its owner from the range table |
| Gameboys.Gameboy.Tick | src/gameboy.rs:72-101 | the pressed buttons are latched once, and the new device state and the VBlank flag are those of RunFrame on the old state; IE is untouched |
| Gameboys.Gameboy.Step | src/gameboy.rs:77-99 | one CPU step's ticks and requests, as FrameStep gives them |
| Gameboys.Gameboy.TickAll | src/gameboy.rs:81-83 | the devices and the interrupts they raise are those TickDevices gives |
| Gameboys.Gameboy.RequestFired | src/gameboy.rs:88-99 | IF becomes the old IF with the requested prefix set; the result says whether VBlank was raised; IE is untouched |
| Mbc.LatchOn | src/cartridge/mbc.rs:97-99 | the RAM latch turns on exactly when bits 1 and 3 of the byte are both set |
| Mbc.MaskedLatch | src/cartridge/mbc.rs:97-99 | `byte & 0x0A == 0x0A` holds exactly when bits 1 and 3 are set |
| Mbc.RomBankAsWritten | src/cartridge/mbc.rs:78-89 | the bank as the source computes it, `(two_bit_reg << 6) \| five_bit_reg` with 0x00/0x20/0x40/0x60 bumped by one: never 0, 1 in RAM mode |
| Mbc.RomBankIntended | src/cartridge/mbc.rs:78-89 | with the 2-bit register as bits 5-6, the bank is 32 times that register plus the 5-bit register, or plus 1 where that is 0; 1 in RAM mode |
| Mbc.RomBankIntendedRange | src/cartridge/mbc.rs:78-89 | the corrected bank is one of the 128 an MBC1 addresses, never 0x00, 0x20, 0x40 or 0x60, and both registers can be read back from it |
| Mbc.RomBankIntendedOnto | src/cartridge/mbc.rs:78-89 | every bank from 1 to 0x7F but 0x20, 0x40 and 0x60 is selected by some setting of the registers |
| Mbc.RomBankAsWrittenDiffers | src/cartridge/mbc.rs:81 | as written no setting selects bank 0x21, registers (1, 1) select 0x41 instead of 0x21, and (2, 1) select 0x81, past the 128 banks |
| Mbc.RomBankAgreement | src/cartridge/mbc.rs:78-89 | the bank as written equals the corrected bank exactly in RAM mode or when the 2-bit register is 0 |
| Mbc.RamBankOffset | src/cartridge/mbc.rs:69-75 | the selected RAM bank starts at a multiple of 8K inside the 32K RAM, and at 0 in ROM mode |
| Mbc.RomOnly.constructor | src/cartridge/mbc.rs:24-28 | a ROM-only controller starts with a zeroed 8K RAM bank |
| Mbc.RomOnly.RomBankNum | src/cartridge/mbc.rs:32-34 | a ROM-only cartridge always selects bank 1 |
| Mbc.RomOnly.Get8 | src/cartridge/mbc.rs:40-43 | a read gives the RAM byte at `addr - 0xA000`, and panics below 0xA000 or past the bank |
| Mbc.RomOnly.Set8 | src/cartridge/mbc.rs:36-38 | a write changes nothing any read can see |
| Mbc.RomOnly.Type | src/cartridge/mbc.rs:45-47 | the type is RomOnly |
| Mbc.Mbc1.constructor | src/cartridge/mbc.rs:59-67 | an MBC1 starts with both registers 0, the latch off, ROM mode and a zeroed 32K RAM |
| Mbc.Mbc1.RomBankNum | src/cartridge/mbc.rs:78-89 | in ROM mode the bank has the 2-bit register from bit 6 up, where `<< 6` puts it, and below bit 6 the 5-bit register, or 1 when that is 0 and the 2-bit register is below 2; in RAM mode it is 1; never 0 |
| Mbc.Mbc1.Get8 | src/cartridge/mbc.rs:91-93 | a window read gives the byte of the selected RAM bank; a read below the window in ROM mode panics |
| Mbc.Mbc1.Set8 | src/cartridge/mbc.rs:95-119 | each of the four control ranges updates exactly its register from its bits of the byte, a window write stores into the selected RAM bank, anything else panics and changes nothing |
| Mbc.Mbc1.Type | src/cartridge/mbc.rs:121-123 | the type is MBC1 |
| Mbc.WindowRoundTrip | src/cartridge/mbc.rs:91-116 | a window write followed by a read at the same address returns the byte and leaves the other window addresses alone |
| Mbc.BuildMbc | src/cartridge/mbc.rs:127-134 | type 0 builds a ROM-only controller, 1 to 3 an MBC1, anything else panics |
| GameCartridge.TypeOf | src/cartridge/cartridge.rs:75-84 | header codes 0, 1, 2, 3 and 5 name the five cartridge types, each whose code is that byte; any other code panics |
| GameCartridge.TypeCodeRoundTrip | src/cartridge/cartridge.rs:75-84 | decoding a type's code gives the type back |
| GameCartridge.CartridgeAreas | src/cartridge/cartridge.rs:47-53 | the cartridge owns exactly 0x0000-0x7FFF, 0xA000-0xBFFF and 0xFF50 |
| GameCartridge.Cartridge.constructor | src/cartridge/cartridge.rs:29-45 | given a file of at least 32K, the boot ROM covers the first 256 bytes, the file the rest of the 32K, and the RAM bank starts zeroed |
| GameCartridge.Cartridge.New | src/cartridge/cartridge.rs:29-45 | `Cartridge::new` fails exactly when the file is shorter than the 32K it copies, and otherwise builds the cartridge the constructor describes |
| GameCartridge.Cartridge.ClearBootRom | src/cartridge/cartridge.rs:65-69 | after `clear_boot_rom` all of ROM is the file's own bytes |
| GameCartridge.Cartridge.Type | src/cartridge/cartridge.rs:75-84 | `mbc_type` is TypeOf header byte 0x147 |
| GameCartridge.Cartridge.Get8 | src/cartridge/cartridge.rs:109-115 | reads give ROM below 0x8000 and the RAM bank at 0xA000-0xBFFF, and panic elsewhere |
| GameCartridge.Cartridge.Set8 | src/cartridge/cartridge.rs:96-107 | a write to 0xFF50 unmaps the boot ROM, a RAM-bank write stores and reads back, and any other write changes nothing |
| GameCartridge.Cartridge.GetSlice | src/cartridge/cartridge.rs:117-125 | `get_slice` returns the bytes Get8 reads from `addr` on, and panics where they run past the ROM or the RAM bank or start elsewhere |
| GameCartridge.BootOverlay | src/cartridge/cartridge.rs:29-45 | while mapped the boot ROM answers 0x0000-0x00FF; the file answers 0x0100-0x7FFF, and all of it once 0xFF50 is written |
| EarlyCartridge.Cartridge.Data | src/cartridge.rs:54-56 | `data` is the whole file |
| EarlyCartridge.Cartridge.SymbolTable | src/cartridge.rs:58-66 | no symbols without a `.sym` file, the file's parsed labels with one, a panic where the parser panics |
| Symbols.IndexOf | src/cartridge/symbols.rs:24-25 | the index found is that of the first occurrence, and there is one exactly when the character occurs |
| Symbols.Split | src/cartridge/symbols.rs:24-25 | `split` yields at least one piece and no piece holds the separator |
| Symbols.SplitAt | src/cartridge/symbols.rs:24-25 | splitting at a first separator gives the piece before it and the pieces of the rest |
| Symbols.SplitNone | src/cartridge/symbols.rs:24-25 | text without the separator is one piece |
| Symbols.SplitJoin | src/cartridge/symbols.rs:24-25 | joining the pieces with the separator gives the text back |
| Symbols.StripCr | src/cartridge/symbols.rs:16 | a line loses at most the `\r` of a `\r\n` ending |
| Symbols.Lines | src/cartridge/symbols.rs:16 | `lines` yields no piece holding a line break |
| Symbols.HexDigits | src/cartridge/symbols.rs:27-28 | a string of n hex digits has a value below 16^n |
| Symbols.Pow16 | src/cartridge/symbols.rs:27-28 | powers of 16 are positive |
| Symbols.ParseHex | src/cartridge/symbols.rs:27-28 | `from_str_radix(s, 16)` accepts only non-empty digit strings, optionally after `+`, whose value fits a `usize` |
| Symbols.DigitChar | src/cartridge/symbols.rs:27-28 | the lower-case digit written for d reads back as d |
| Symbols.ToHex | src/cartridge/symbols.rs:27-28 | a value written in hex is a non-empty digit string without spaces, colons or sign |
| Symbols.ToHexDigits | src/cartridge/symbols.rs:27-28 | hex digits written for a value read back as that value |
| Symbols.ParseHexRoundTrip | src/cartridge/symbols.rs:27-28 | `from_str_radix` reads back every `usize` written in hex |
| Symbols.AddsNeedsColon | src/cartridge/symbols.rs:23 | only a line with a `:` adds a label |
| Symbols.LabelLineAdds | src/cartridge/symbols.rs:22-31 | the line `BANK:ADDR NAME` in hex adds NAME under (BANK, ADDR) |
| Symbols.LabelLinesSkip | src/cartridge/symbols.rs:17-18 | the label lines are those after the first line starting with `[labels]`, and there are none without one |
| Symbols.NonComments | src/cartridge/symbols.rs:16 | the filter keeps only lines, from the input, that do not start with `;` |
| Symbols.InsertSucceeds | src/cartridge/symbols.rs:22-31 | the insert loop succeeds exactly when every label line is well formed |
| Symbols.InsertKeys | src/cartridge/symbols.rs:22-31 | a location is labelled exactly when it was before or some line adds it |
| Symbols.InsertKeeps | src/cartridge/symbols.rs:22-31 | a location no line adds keeps its old name |
| Symbols.InsertLastWins | src/cartridge/symbols.rs:22-31 | a location takes the name of the last line that adds it |
| Symbols.Parse | src/cartridge/symbols.rs:14-35 | parsing the file's text succeeds exactly when every label line (one with a colon, outside comments) is well formed |
| Symbols.Get | src/cartridge/symbols.rs:37-39 | a lookup finds bank 1's name for the address, and nothing where there is none |
| Symbols.Load | src/cartridge/cartridge.rs:55-63 | no symbols without a `.sym` file; with one, a table exactly when every label line is well formed, and then the parsed table |
| Symbols.ParseSymbols | src/cartridge/symbols.rs:14-35 | the loop of `Symbols::new` computes Parse |
| Interrupts.FlagBit | src/interrupt_controller.rs:21-31 | each interrupt source owns one of the eight bits of IE and IF |
| Interrupts.Flag | src/interrupt_controller.rs:21-31 | `flag` is the one-hot mask of the source's bit |
| Interrupts.Addr | src/interrupt_controller.rs:14-20 | the vector is 0x40 plus eight times the source's bit: 0x40 VBlank, 0x48 LCD STAT, 0x50 Timer, 0x58 Serial |
| Interrupts.EnabledAndRequested | src/interrupt_controller.rs:65-69 | a source is pending exactly when its bit is set in both IE and IF |
| Interrupts.WithRequest | src/interrupt_controller.rs:70-73 | a request sets the source's IF bit and keeps every other bit |
| Interrupts.RequestTwice | src/interrupt_controller.rs:70-73 | requesting the same source twice is the same as once |
| Interrupts.Fire | src/interrupt_controller.rs:59-64 | firing with `clear` clears the source's IF bit, without it leaves IF alone; no other bit changes |
| Interrupts.Handling | src/interrupt_controller.rs:49-58 | `handle` returns a vector exactly when VBlank or Timer is enabled and requested, returns 0x40 exactly when VBlank is, and leaves IF alone when it returns nothing |
| Interrupts.HandleAcknowledges | src/interrupt_controller.rs:49-64 | the vector returned belongs to an enabled and requested source, and with `clear` exactly that source's IF bit is cleared |
| Interrupts.HandleAllPending | src/interrupt_controller.rs:98-114 | with everything enabled and requested VBlank wins, and clearing takes IF from 0xFF to 0xFE |
| Interrupts.InterruptController.constructor | src/interrupt_controller.rs:35-41 | IE and IF start at 0 |
| Interrupts.InterruptController.Handle | src/interrupt_controller.rs:49-58 | `handle` on the object agrees with Handling and keeps IE |
| Interrupts.InterruptController.FireSource | src/interrupt_controller.rs:59-64 | `fire` returns the source's vector and updates IF as Fire does |
| Interrupts.InterruptController.Request | src/interrupt_controller.rs:70-73 | `request` updates IF as WithRequest does and keeps IE |
| Interrupts.InterruptController.Get8 | src/interrupt_controller.rs:76-83 | reads return IE at 0xFFFF and IF at 0xFF0F and panic anywhere else |
| Interrupts.InterruptController.Set8 | src/interrupt_controller.rs:84-92 | writes store to IE or IF, read back, and panic anywhere else |
| Timers.NewTimer | src/timer_controller.rs:20-29 | a new timer counts from 0 with a period of `clock_freq / freq` clocks |
| Timers.Run | src/timer_controller.rs:30-46 | ticking keeps the timer's period and reload value and leaves it ticking |
| Timers.RunClosedForm | src/timer_controller.rs:30-46 | `tick(c)` steps the value once when the clocks left run out and once more per whole period, carries the remainder in `clocks_left`, and reports whether the value passed 0xFF |
| Timers.Advance | src/timer_controller.rs:33-42 | `n` value steps from a value that does not pass 0xFF on the way add `n`: the value counts up by one per step |
| Timers.AdvanceCounts | src/timer_controller.rs:30-46 | n steps that do not pass 0xFF add n and report no overflow |
| Timers.ReloadOnOverflow | src/timer_controller.rs:30-46 | a step from 0xFF reloads the default value and reports the overflow |
| Timers.NewRegs | src/timer_controller.rs:60-68 | DIV starts at 0 at 16384 Hz and TIMA starts stopped at 4096 Hz with TMA 0 |
| Timers.TickRegs | src/timer_controller.rs:75-85 | DIV always advances by its closed form; TIMA changes only while running; exactly one Timer interrupt is raised when a running TIMA overflows |
| Timers.GetReg | src/timer_controller.rs:88-97 | reads succeed exactly at DIV, TIMA, TMA and TAC |
| Timers.SetReg | src/timer_controller.rs:98-116 | a DIV write clears the divider whatever the byte; TIMA and TMA writes read back and keep the phase; a TAC write reads back, keeps TMA, starts or stops TIMA by bit 2 and restarts it at the frequency its low two bits select |
| Timers.DivCountsPeriods | src/timer_controller.rs:134-143 | DIV steps once per 64 clocks (at 1 MHz): 383 clocks give 5 and one more gives 6 |
| Timers.DivWraps | src/timer_controller.rs:156-165 | DIV wraps from 255 to 0 and counts on |
| Timers.DivResetKeepsPhase | src/timer_controller.rs:144-155 | clearing DIV keeps the clocks already counted towards its next step |
| Timers.Timer.constructor | src/timer_controller.rs:20-29 | the new object's state is NewTimer |
| Timers.Timer.Tick | src/timer_controller.rs:30-46 | the loop of `tick` computes Run: the new state and whether the value stepped from 0xFF |
| Timers.Timer.Set | src/timer_controller.rs:47-49 | `set` changes only the value |
| Timers.TimerController.constructor | src/timer_controller.rs:60-68 | the new controller's registers are NewRegs |
| Timers.TimerController.Tick | src/timer_controller.rs:75-85 | `tick` on the object computes TickRegs and returns the interrupts it fires |
| Timers.TimerController.Get8 | src/timer_controller.rs:88-97 | `get8` agrees with GetReg |
| Timers.TimerController.Set8 | src/timer_controller.rs:98-116 | `set8` agrees with SetReg, and panics (changing nothing) outside the four registers |
| SerialPort.ShiftIn | src/serial.rs:29-42 | shifting SB drops its top bit and brings a 1 in at the bottom |
| SerialPort.ClearBit7 | src/serial.rs:29-42 | toggling a set bit 7 clears it and keeps the other bits |
| SerialPort.TickSerial | src/serial.rs:29-42 | nothing happens unless SC bit 7 and bit 0 are set; a transfer completes, shifting SB, clearing SC bit 7 and raising one Serial interrupt, when fewer clocks are left than pass; otherwise the clocks are counted off |
| SerialPort.IdleAfterTransfer | src/serial.rs:29-42 | after a completed transfer later ticks change nothing and raise nothing |
| SerialPort.GetSerial | src/serial.rs:44-51 | reads succeed exactly at SB and SC |
| SerialPort.SetSerial | src/serial.rs:52-65 | SB and SC writes read back; an SC write that sets bit 7 where it was clear reloads the shift countdown, any other keeps it |
| SerialPort.TransferCompletes | src/serial.rs:29-65 | writing 0x81 to an idle SC and then ticking past the countdown shifts a 1 into SB, leaves SC at 0x01 and raises one Serial interrupt |
| SerialPort.SerialController.constructor | src/serial.rs:15-22 | SB, SC and the countdown start at 0 |
| SerialPort.SerialController.Tick | src/serial.rs:29-42 | `tick` on the object computes TickSerial and returns the interrupt it fires |
| SerialPort.SerialController.Get8 | src/serial.rs:44-51 | `get8` agrees with GetSerial |
| SerialPort.SerialController.Set8 | src/serial.rs:52-65 | `set8` agrees with SetSerial, and panics (changing nothing) elsewhere |
| Joypad.Nibble | src/joypad_controller.rs:41-70 | a row's nibble has bit k set exactly when its k-th flag holds |
| Joypad.SelectBits | src/joypad_controller.rs:92-100 | a P1 write keeps exactly bits 4 and 5 |
| Joypad.ReadP1 | src/joypad_controller.rs:83-91 | a P1 read has the selected row in bits 0-3, the select bits in 4-5 and zeros above |
| Joypad.PressedReadsZero | src/joypad_controller.rs:41-70 | each key reads 0 in its row exactly when it is pressed |
| Joypad.JoypadController.constructor | src/joypad_controller.rs:27-34 | both rows start released and P1 at 0x3F, so the first read gives 0x3F |
| Joypad.JoypadController.SetPressed | src/joypad_controller.rs:41-70 | `set_pressed` rebuilds both rows from the pressed keys and keeps P1 |
| Joypad.JoypadController.Row | src/joypad_controller.rs:44-69 | one row of `set_pressed`: the nibble with a 1 for each released key |
| Joypad.JoypadController.Get8 | src/joypad_controller.rs:71-91 | reads succeed exactly at P1 and give the selected row and the select bits |
| Joypad.JoypadController.Set8 | src/joypad_controller.rs:92-100 | P1 writes keep only the select bits and leave the rows alone; other addresses panic |
| Joypad.SelectThenRead | src/joypad_controller.rs:71-100 | selecting through P1 and reading back gives the buttons with bit 5 clear, the directions with bit 5 set and bit 4 clear, and 0xF with both set |
| LcdPalette.Shade | src/lcd/palette.rs:23-29 | every shade number names one of the four grey levels, never the LCD-off colour |
| LcdPalette.ColorOf | src/lcd/palette.rs:14-30 | colour number b takes the shade named by bits 2b and 2b+1 of the palette byte |
| LcdPalette.PackColors | src/lcd/palette.rs:14-30 | a palette byte packed from four shades gives each shade back for its colour number |
| LcdPalette.ShadeIndexInjective | src/lcd/palette.rs:23-29 | distinct grey levels have distinct shade numbers |
| LcdTiles.Pixel | src/lcd/tiles.rs:13-16 | pixel i of a row is bit 7-i of the upper byte times two plus bit 7-i of the lower byte, so it is at most 3 |
| LcdTiles.PixelBits | src/lcd/tiles.rs:15 | the masks and shifts of `row`, with the shift left done in eight bits, extract the low bits of both bytes |
| LcdTiles.RowPixels | src/lcd/tiles.rs:9-18 | a tile row is eight pixels, leftmost first, from bytes 2·row and 2·row+1 |
| LcdTiles.Row | src/lcd/tiles.rs:9-18 | the loop of `Tile::row` fills a fresh array with RowPixels |
| LcdTiles.TileAt | src/lcd/tiles.rs:30-33 | tile idx is bytes 16·idx to 16·idx+15 of the set |
| LcdTiles.TilesPartitionSet | src/lcd/tiles.rs:30-33 | every byte of a tile set belongs to exactly one tile: byte a is byte a mod 16 of tile a / 16 |
| LcdTiles.PixelFromBits | src/lcd/tiles.rs:9-18 | a pixel's high bit comes from the upper byte and its low bit from the lower byte |
| LcdBackground.TileRow | src/lcd/background_map.rs:55-59 | the tile row at (row, col) is eight colour numbers, each at most 3 |
| LcdBackground.PixelAt | src/lcd/background_map.rs:26-38 | the pixel the iterator yields for a column is a colour number at most 3 |
| LcdBackground.SameTileRow | src/lcd/background_map.rs:55-59 | all eight columns of a tile read the same tile row |
| LcdBackground.NextColumn | src/lcd/background_map.rs:30-35 | stepping a column stays in the tile or starts the next one after its last column |
| LcdBackground.NextStep | src/lcd/background_map.rs:30-36 | refetching the tile row at the start of each tile keeps the cached row the one the next column needs |
| LcdBackground.RowIterator.constructor | src/lcd/background_map.rs:13-20 | `row_iter` starts at column 0 of the row |
| LcdBackground.RowIterator.Next | src/lcd/background_map.rs:26-38 | `next` yields PixelAt of the current column and moves one column on, and yields nothing once the 160 columns are out |
| LcdOam.FlagBit | src/lcd/oam.rs:34-46 | `bN!(x)` is bit N of x |
| LcdOam.NewEntry | src/lcd/oam.rs:29-49 | an entry takes y and x from bytes 0 and 1, the tile from byte 2 (bit 0 cleared for 8x16), priority, flips and bank from bits 7, 6, 5 and 3 of byte 3, and the palette from bit 4 (DMG) or bits 0-2 (CGB) |
| LcdOam.IsOnRow | src/lcd/oam.rs:51-53 | where the eight-bit sums do not wrap, an entry is on line ly exactly when ly+16 lies in [y, y+height) |
| LcdOam.TileY | src/lcd/oam.rs:56 | the sprite line that screen line ly shows is below the sprite's height |
| LcdOam.Reverse | src/lcd/oam.rs:69-71 | the reversed row has the same pixels in the opposite order |
| LcdOam.SpriteLine | src/lcd/oam.rs:64-68 | a sprite line is eight pixels from the first tile for lines 0-7 and the next tile below |
| LcdOam.EntryRow | src/lcd/oam.rs:55-73 | the row an entry shows on a line is eight pixels |
| LcdOam.XFlipMirrors | src/lcd/oam.rs:69-71 | with `x_flip` pixel i is pixel 7-i of the unflipped entry |
| LcdOam.YFlipMirrors | src/lcd/oam.rs:61-63 | with `y_flip` line d is line height-1-d of the unflipped entry |
| LcdOam.NewEntries | src/lcd/oam.rs:90-93 | the 40 entries are built from the 40 four-byte slices of OAM in order, each well formed |
| LcdOam.OnRow | src/lcd/oam.rs:98-99 | the filter keeps only entries on the line |
| LcdOam.OnRowKeeps | src/lcd/oam.rs:98-99 | an entry is kept exactly when it is in OAM and on the line |
| LcdOam.Visible | src/lcd/oam.rs:98-100 | the visible entries are the first ten on the line (all of them where there are fewer) |
| LcdOam.HitMeaning | src/lcd/oam.rs:101-118 | an entry covers columns x-8 to x-1; a pixel of value 0 is transparent and any other shows with the entry's priority and palette |
| LcdOam.FirstHitNone | src/lcd/oam.rs:101-118 | where no visible entry has an opaque pixel nothing is drawn |
| LcdOam.FirstHitEarliest | src/lcd/oam.rs:101-118 | the pixel drawn is that of the earliest visible entry opaque there; later entries never overwrite it |
| LcdOam.Draw | src/lcd/oam.rs:101-117 | one entry's loop fills each still-empty column it covers with its opaque pixel, skipping columns off either edge |
| LcdOam.Row | src/lcd/oam.rs:95-120 | `OamEntries::row` gives every column the first opaque pixel among the visible entries |
| LcdOam.FirstHitStep | src/lcd/oam.rs:101-118 | drawing the next visible entry merges its pixels under those of the entries drawn before it |
| Lcd.PeriodClocks | src/lcd/controller.rs:58-65 | every period lasts some clocks, and a VBlank line lasts as long as OAM search, pixel transfer and HBlank together (114) |
| Lcd.PeriodMode | src/lcd/controller.rs:88-95 | the mode STAT reports is a two-bit number |
| Lcd.PeriodModeInjective | src/lcd/controller.rs:88-95 | the four periods report four different modes |
| Lcd.InitState | src/lcd/controller.rs:107-113 | the state machine starts at OAM search on line 0 with its 20 clocks left |
| Lcd.StateTick | src/lcd/controller.rs:115-127 | clocks past the end of the period move to the next period (and line) and are handed back; clocks that fit are counted off and none are handed back |
| Lcd.StateTickReachable | src/lcd/controller.rs:67-86 | a step keeps the machine among the reachable states: lines 0-143 for the visible periods, 144-153 for VBlank |
| Lcd.RunStateReachable | src/lcd/controller.rs:218-221 | however many clocks the tick loop runs, LY stays in 0-153 and VBlank covers exactly lines 144-153 |
| Lcd.RunStateWithinPeriod | src/lcd/controller.rs:218-221 | clocks that fit in the current period only count it down |
| Lcd.State.constructor | src/lcd/controller.rs:107-113 | the new state object is InitState |
| Lcd.State.Tick | src/lcd/controller.rs:115-127 | `State::tick` on the object computes StateTick |
| Lcd.InitRegs | src/lcd/controller.rs:165-193 | the registers `new` sets up satisfy the controller's invariants |
| Lcd.NewStat | src/lcd/controller.rs:223-224 | after a period change STAT keeps bits 3-6, sets bit 2 exactly on LY = LYC, holds the new mode in bits 0-1 and has bit 7 clear |
| Lcd.PeriodInterrupts | src/lcd/controller.rs:225-247 | VBlank is fired exactly on entering VBlank, and first; nothing but VBlank and STAT is fired |
| Lcd.TickDisabledNoop | src/lcd/controller.rs:213-215 | with the display off, `tick` changes nothing and fires nothing |
| Lcd.TickRegsFacts | src/lcd/controller.rs:211-249 | a tick keeps the invariants, fires VBlank exactly when it enters VBlank, and after a period change STAT reports the new mode |
| Lcd.WriteRegGood | src/lcd/controller.rs:437-513 | register writes keep the invariants: HDMA addresses 16-byte aligned with the destination inside VRAM, STAT bit 7 clear |
| Lcd.WriteReg | src/lcd/controller.rs:437-513 | a register write is accepted exactly at the register addresses; only an LCDC write can move LY, the state machine or LCDC; a position write leaves STAT and the HDMA source alone |
| Lcd.WriteHdmaGood | src/lcd/controller.rs:499-510 | the four HDMA register writes keep source and destination aligned and the destination inside VRAM |
| Lcd.HdmaAddress | src/lcd/controller.rs:499-510 | a high byte and the top nibble of a low byte make a 16-byte aligned address on that page |
| Lcd.WriteStat | src/lcd/controller.rs:456-459 | a STAT write changes only bits 3-6; the mode and coincidence bits stay |
| Lcd.DisplayOffResets | src/lcd/controller.rs:448-455 | switching the display off puts LY back to 0 and the state machine to its start |
| Lcd.ReadReg | src/lcd/controller.rs:515-542 | STAT reads with bit 7 set, as 0x80 alone while the display is off and with the stored bits while it is on |
| Lcd.StatRead | src/lcd/controller.rs:523 | `stat \| STAT_MASK` sets bit 7 and keeps the low seven bits of STAT |
| Lcd.LcdAreas | src/lcd/controller.rs:194-206 | the LCD owns exactly VRAM, LCDC-LYC, BGP-WX, VBK, HDMA1-HDMA5, BGPI-OBPD and OAM |
| Lcd.LcdController.constructor | src/lcd/controller.rs:165-193 | a new controller has InitRegs, zeroed VRAM banks and zeroed OAM |
| Lcd.LcdController.SetMode | src/lcd/controller.rs:207-209 | `set_mode` changes only the mode |
| Lcd.LcdController.VramDmaSource | src/lcd/controller.rs:413-416 | the HDMA source is 16-byte aligned |
| Lcd.LcdController.Tick | src/lcd/controller.rs:211-249 | the tick loop and the period-change handling compute TickRegs, and return the interrupts fired |
| Lcd.LcdController.Dma | src/lcd/controller.rs:251-253 | `dma` copies exactly 160 bytes into OAM, and panics for data of another length |
| Lcd.LcdController.VramDma | src/lcd/controller.rs:255-260 | `vram_dma` writes the bytes into the selected bank from the destination on, leaves the other bank alone, and panics when they run past the bank |
| Lcd.LcdController.Get8 | src/lcd/controller.rs:515-542 | a read gives the VRAM byte of the selected bank, or the register as ReadReg |
| Lcd.LcdController.Set8 | src/lcd/controller.rs:437-513 | a write stores into the selected VRAM bank, into OAM, or into the registers as WriteReg, and panics elsewhere |
| Lcd.LcdController.SetReg | src/lcd/controller.rs:442-513 | the register part of `set8` agrees with WriteReg |
| Lcd.LcdController.SetControl | src/lcd/controller.rs:442-459 | VBK, LCDC and STAT writes agree with the value-level WriteControl |
| Lcd.LcdController.SetPalette | src/lcd/controller.rs:460-483 | palette writes agree with the value-level WritePalette |
| Lcd.LcdController.SetPosition | src/lcd/controller.rs:484-498 | SCY, SCX, LYC, WX and WY writes agree with the value-level WritePosition |
| Lcd.LcdController.SetHdma | src/lcd/controller.rs:499-510 | HDMA1-HDMA4 writes agree with the value-level WriteHdma |
| EarlyLcd.MappedAreas | src/lcd_controller.rs:58-63 | the first LCD owns VRAM and the registers LCDC to WX |
| EarlyLcd.B | src/lcd_controller.rs:70-100 | `bN!(x)` is bit N of x |
| EarlyLcd.FrameAfterLcdc | src/lcd_controller.rs:111-118 | an LCDC write that switches the display on whitens the whole frame buffer; any other leaves it |
| EarlyLcd.SecondSwitchOnKeepsFrame | src/lcd_controller.rs:111-118 | switching on twice whitens only once: the second write sees bit 0 already set |
| EarlyLcd.LcdController.constructor | src/lcd_controller.rs:39-56 | the first LCD starts with zeroed VRAM and registers and a frame buffer of the off colour |
| EarlyLcd.LcdController.Get8 | src/lcd_controller.rs:125-136 | reads give a VRAM byte or LY, and panic elsewhere |
| EarlyLcd.LcdController.GetSlice | src/lcd_controller.rs:139-141 | `get_slice` always panics |
| EarlyLcd.LcdController.ClearFrame | src/lcd_controller.rs:111-118 | the clearing loop fills the frame buffer with white |
| EarlyLcd.LcdController.Set8 | src/lcd_controller.rs:104-121 | writes store a VRAM byte, BGP, SCY or LCDC and change nothing else; a switching-on LCDC write whitens the buffer; other addresses panic |
| Envelopes.NewEnvelope | src/sound/envelope.rs:20-31 | the byte splits into volume (high nibble), direction (bit 3) and period (bits 0-2), which rebuild the byte; the tick budget is period × CLOCK_FREQ / 64 |
| Envelopes.EnvelopeTick | src/sound/envelope.rs:33-44 | period 0 freezes the envelope; otherwise the volume moves one step in its direction exactly when the ticks run out, never leaving 0-15 |
| Envelopes.Apply | src/sound/envelope.rs:46-48 | a 0/1 sample scaled by the volume gives 0 or the volume, at most 15 |
| Envelopes.Monotone | src/sound/envelope.rs:33-44 | over any number of ticks the volume stays in 0-15 and moves only in the envelope's direction |
| Envelopes.VolumeEnvelope.constructor | src/sound/envelope.rs:20-31 | the object holds the envelope decoded from the byte |
| Envelopes.VolumeEnvelope.Assign | src/sound/square.rs:97-99 | the object takes over another envelope's value, as a channel's set_volume_envelope does |
| Envelopes.VolumeEnvelope.Tick | src/sound/envelope.rs:33-44 | the new state is one envelope tick of the old |
| FrameSequencers.SequencerTick | src/sound/frame_sequencer.rs:18-28 | a step is emitted exactly when no ticks are left, then the step advances modulo 8 and CLOCK_FREQ / 512 ticks are reloaded; otherwise nothing is emitted and one tick is used |
| FrameSequencers.SweepIsLengthClock | src/sound/frame_sequencer.rs:30-36 | every sweep clock (steps 2 and 6) is also a length clock (even steps) |
| FrameSequencers.FirstTick | src/sound/frame_sequencer.rs:10-28 | a fresh sequencer's first tick emits step 0, a length clock and not a sweep clock |
| FrameSequencers.Quiet | src/sound/frame_sequencer.rs:18-28 | while ticks remain, each tick emits nothing and keeps the step |
| FrameSequencers.StepPeriod | src/sound/frame_sequencer.rs:18-28 | consecutive steps are exactly CLOCK_FREQ / 512 ticks apart, with silence between |
| FrameSequencers.TicksSplit | src/sound/frame_sequencer.rs:18-28 | k + 1 ticks are k ticks followed by one more |
| FrameSequencers.FrameSequencer.constructor | src/sound/frame_sequencer.rs:10-16 | a new sequencer is at step 0 with no ticks left and no clock |
| FrameSequencers.FrameSequencer.Tick | src/sound/frame_sequencer.rs:18-28 | the new state is one sequencer tick of the old |
| LengthCounters.CounterTick | src/sound/length_counter.rs:24-33 | a disabled or empty counter is unchanged; otherwise it counts down by one and says Disable exactly when it reaches 0 |
| LengthCounters.CounterSetEnabled | src/sound/length_counter.rs:35-47 | Disable exactly when a counter holding 1 is switched on outside a length step, leaving it off and empty; otherwise the flag is the one asked for |
| LengthCounters.CounterSetLength | src/sound/length_counter.rs:49-52 | the counter holds max minus the written length when that does not wrap; flag and max are kept |
| LengthCounters.CounterTrigger | src/sound/length_counter.rs:54-63 | a non-empty counter is untouched; an empty one reloads max, and when switched on from off it is enabled with one step already counted |
| LengthCounters.CountDown | src/sound/length_counter.rs:24-33 | an enabled counter holding n says Nop n - 1 times, Disable on the n-th tick, then Nop again, and its length follows n - k down to 0 |
| LengthCounters.SetLengthThenCount | src/sound/length_counter.rs:24-52 | after set_length(l), an enabled counter disables its channel on exactly the (max - l)-th tick |
| LengthCounters.LengthCounter.constructor | src/sound/length_counter.rs:16-22 | a new counter is disabled and empty with the given max |
| LengthCounters.LengthCounter.Tick | src/sound/length_counter.rs:24-33 | state and action are those of CounterTick on the old state |
| LengthCounters.LengthCounter.SetEnabled | src/sound/length_counter.rs:35-47 | state and action are those of CounterSetEnabled on the old state |
| LengthCounters.LengthCounter.SetLength | src/sound/length_counter.rs:49-52 | the new state is CounterSetLength of the old |
| LengthCounters.LengthCounter.Trigger | src/sound/length_counter.rs:54-63 | the new state is CounterTrigger of the old |
| Sweeps.NewSweep | src/sound/sweep.rs:21-30 | period (bits 4-6), direction (bit 3 set for a decrease) and shift (bits 0-2) rebuild the low seven bits of the byte; disabled, frequency 0 |
| Sweeps.Delta | src/sound/sweep.rs:71 | the shifted frequency never exceeds the frequency |
| Sweeps.NewFrequency | src/sound/sweep.rs:70-84 | a decrease always yields frequency - delta; an increase yields frequency + delta when that is at most 2047 and None when it overflows |
| Sweeps.SweepTick | src/sound/sweep.rs:32-54 | idle while disabled or with period 0; counts down while ticks remain; at 0 it reports Disable exactly when the next frequency or the one after overflows, and Update with the frequency it stored otherwise |
| Sweeps.SweepTrigger | src/sound/sweep.rs:56-68 | takes the channel frequency and reloads; runs exactly when period or shift is non-zero; says Disable exactly when running and the first step would overflow |
| Sweeps.DecreaseNeverDisables | src/sound/sweep.rs:56-84 | a decreasing sweep never disables its channel, on trigger or on tick |
| Sweeps.ShiftZeroDoubles | src/sound/sweep.rs:56-84 | with shift 0, triggering an increasing sweep on a frequency above 1023 disables the channel at once |
| Sweeps.Sweep.constructor | src/sound/sweep.rs:21-30 | the object holds the sweep decoded from the byte |
| Sweeps.Sweep.Tick | src/sound/sweep.rs:32-54 | state and action are those of SweepTick on the old state |
| Sweeps.Sweep.Trigger | src/sound/sweep.rs:56-68 | state and action are those of SweepTrigger on the old state |
| SquareWaves.DutyAsWrittenRepeats | src/sound/square.rs:4-9 | the table as written gives duty codes 0 and 1 the same single high step in eight |
| SquareWaves.DutyFractions | src/sound/square.rs:4-9 | the corrected reference table gives duty codes 0-3 one, two, four and six high steps in eight (12.5, 25, 50, 75 per cent) |
| SquareWaves.DutyLevels | src/sound/square.rs:4-9 | every duty row has eight steps, each 0 or 1 |
| SquareWaves.FreqLower | src/sound/square.rs:28-30 | the low byte becomes the data, bits 8-10 are kept and the bits above are cleared |
| SquareWaves.FreqUpper | src/sound/square.rs:32-34 | the low byte is kept and the high byte becomes the data |
| SquareWaves.FrequencyWrites | src/sound/square.rs:28-34 | writing both registers, in either order, sets the frequency to hi × 256 + lo |
| SquareWaves.GenTick | src/sound/square.rs:40-46 | at timer 0 the duty position advances modulo 8 and the timer restarts from 2047 - frequency; otherwise one tick is counted off |
| SquareWaves.GenSample | src/sound/square.rs:48-50 | the sample is the duty table's step as the source writes it: the intended step everywhere except duty 1 at step 7, where it is 0 instead of 1 |
| SquareWaves.CountDown | src/sound/square.rs:40-46 | k ticks with k at most the timer only count the timer down by k |
| SquareWaves.DutyStepTicks | src/sound/square.rs:40-46 | each duty position lasts exactly 2048 - frequency ticks |
| SquareWaves.WaveGen.constructor | src/sound/square.rs:19-26 | a new generator has frequency, timer, duty and position 0 |
| SquareWaves.WaveGen.SetFreqLower | src/sound/square.rs:28-30 | only the frequency changes, to FreqLower of the old |
| SquareWaves.WaveGen.SetFreqUpper | src/sound/square.rs:32-34 | only the frequency changes, to FreqUpper of the old |
| SquareWaves.WaveGen.SetDuty | src/sound/square.rs:36-38 | only the duty index changes |
| SquareWaves.WaveGen.Tick | src/sound/square.rs:40-46 | the new state is GenTick of the old |
| SquareWaves.SquareTick | src/sound/square.rs:68-75 | a silent channel is frozen; a playing one ticks its generator and its envelope |
| SquareWaves.SquareSample | src/sound/square.rs:77-83 | 0 when silent; otherwise the duty step of the source's table scaled by the envelope volume, at most 15 |
| SquareWaves.SquareWave.constructor | src/sound/square.rs:60-66 | a new channel is silent, its generator at 0 and its envelope decoded from 0xF3 |
| SquareWaves.SquareWave.Tick | src/sound/square.rs:68-75 | the new state is SquareTick of the old |
| SquareWaves.SquareWave.Sample | src/sound/square.rs:77-83 | the sample is SquareSample of the channel's state, over the duty table as written |
| SquareWaves.SquareWave.SetDuty | src/sound/square.rs:85-87 | only the generator's duty index changes |
| SquareWaves.SquareWave.SetFreqLower | src/sound/square.rs:89-91 | only the generator's frequency changes, to FreqLower of the old |
| SquareWaves.SquareWave.SetFreqUpper | src/sound/square.rs:93-95 | only the generator's frequency changes, to FreqUpper of the old |
| SquareWaves.SquareWave.SetVolumeEnvelope | src/sound/square.rs:97-99 | only the envelope changes, to the one given |
| SquareWaves.SquareWave.Restart | src/sound/square.rs:101-103 | only the playing flag changes, to on |
| NoiseChannel.NewLfsr | src/sound/noise.rs:15-23 | all ones, timer 0; shift (high nibble), width (bit 3 set for 7 bits) and divisor code (bits 0-2) rebuild the byte |
| NoiseChannel.LfsrFrequency | src/sound/noise.rs:45-47 | the reload never exceeds CLOCK_FREQ / divisor when that fits in 16 bits |
| NoiseChannel.FrequencyHalves | src/sound/noise.rs:45-47 | each extra step of shift halves the reload |
| NoiseChannel.Feedback | src/sound/noise.rs:28 | the feedback bit is 1 exactly when bits 0 and 1 differ |
| NoiseChannel.Shifted | src/sound/noise.rs:30 | a shifted register fits in 15 bits, and in 7 bits when a 7-bit register started there |
| NoiseChannel.ShiftedBits | src/sound/noise.rs:28-30 | every bit moves down by one, except bit len - 1, which is set when bits 0 and 1 differed or the bit above was set |
| NoiseChannel.ShiftedSample | src/sound/noise.rs:28-38 | after a shift the output bit is the old bit 1 |
| NoiseChannel.ShiftedZero | src/sound/noise.rs:28-30 | a shift gives 0 exactly from 0, so a non-zero register never locks up |
| NoiseChannel.ShiftedWithinLength | src/sound/noise.rs:28-30 | within its width the register is a textbook LFSR: the value halves and the feedback enters at the top, staying within the width |
| NoiseChannel.ResetShift | src/sound/noise.rs:17-30 | the first shift from all ones clears bit 15 and keeps the rest |
| NoiseChannel.LfsrSample | src/sound/noise.rs:36-38 | the sample is bit 0 of the register |
| NoiseChannel.LfsrTick | src/sound/noise.rs:25-34 | at timer 0 the timer reloads from the frequency and the register shifts, outputting its old bit 1; otherwise only the timer counts down; the settings never change |
| NoiseChannel.LfsrReset | src/sound/noise.rs:40-43 | all ones again, sampling 1, with a full reload before the next shift |
| NoiseChannel.NewNoise | src/sound/noise.rs:57-63 | a new channel is silent, at volume 0, with a 15-bit register |
| NoiseChannel.NoiseTick | src/sound/noise.rs:65-72 | a silent channel is frozen; a playing one ticks its register and its envelope |
| NoiseChannel.NoiseSample | src/sound/noise.rs:74-80 | 0 when silent; otherwise the register's bit 0 scaled by the volume |
| NoiseChannel.NoiseRestart | src/sound/noise.rs:90-93 | the channel plays with its register reset, so its first sample is the full envelope volume |
| NoiseChannel.Lfsr.constructor | src/sound/noise.rs:15-23 | the object holds the register decoded from the byte |
| NoiseChannel.Lfsr.Assign | src/sound/noise.rs:82-84 | the object takes over another register's value |
| NoiseChannel.Lfsr.Frequency | src/sound/noise.rs:45-47 | the reload is LfsrFrequency of the register's state |
| NoiseChannel.Lfsr.Tick | src/sound/noise.rs:25-34 | the new state is LfsrTick of the old |
| NoiseChannel.Lfsr.Sample | src/sound/noise.rs:36-38 | the sample is LfsrSample of the state |
| NoiseChannel.Lfsr.Reset | src/sound/noise.rs:40-43 | the new state is LfsrReset of the old |
| NoiseChannel.Noise.constructor | src/sound/noise.rs:57-63 | the channel holds NewNoise |
| NoiseChannel.Noise.Tick | src/sound/noise.rs:65-72 | the new state is NoiseTick of the old |
| NoiseChannel.Noise.Sample | src/sound/noise.rs:74-80 | the sample is NoiseSample of the state |
| NoiseChannel.Noise.SetLfsr | src/sound/noise.rs:82-84 | only the register changes, to the one given |
| NoiseChannel.Noise.SetVolumeEnvelope | src/sound/noise.rs:86-88 | only the envelope changes, to the one given |
| NoiseChannel.Noise.Restart | src/sound/noise.rs:90-93 | the new state is NoiseRestart of the old |
| WaveChannel.Nibbles | src/sound/wave.rs:42-46 | a wave RAM byte fills two four-bit entries, high nibble first, which rebuild the byte |
| WaveChannel.Scale | src/sound/wave.rs:110-122 | the volume mutes, quarters, halves or keeps the sample, never raising it |
| WaveChannel.PositionTick | src/sound/wave.rs:48-55 | at timer 0 the table position advances modulo 32 and the timer reloads (2048 - frequency) / 2; otherwise one tick is counted off |
| WaveChannel.PositionReset | src/sound/wave.rs:61-64 | back to entry 0 with the timer at (2048 - frequency) × 2 when that fits in 16 bits |
| WaveChannel.CustomWave.constructor | src/sound/wave.rs:25-32 | a new wave has an all-zero table and frequency, timer and position 0 |
| WaveChannel.CustomWave.SetFreqLower | src/sound/wave.rs:34-36 | only the frequency changes, to FreqLower of the old |
| WaveChannel.CustomWave.SetFreqUpper | src/sound/wave.rs:38-40 | only the frequency changes, to FreqUpper of the old |
| WaveChannel.CustomWave.SetWave | src/sound/wave.rs:42-46 | only entries 2·offset and 2·offset + 1 change, to the byte's nibbles, which rebuild the byte |
| WaveChannel.CustomWave.Tick | src/sound/wave.rs:48-55 | the new position state is PositionTick of the old |
| WaveChannel.CustomWave.Sample | src/sound/wave.rs:57-59 | the sample is the current table entry, a four-bit value |
| WaveChannel.CustomWave.Reset | src/sound/wave.rs:61-64 | the new position state is PositionReset of the old |
| WaveChannel.WaveTick | src/sound/wave.rs:93-108 | on a length clock the counter ticks and its Disable switches the channel off; the wave moves only while the channel is on; DAC and volume are kept |
| WaveChannel.WithDac | src/sound/wave.rs:124-129 | switching the DAC off turns the channel off; switching it on changes nothing else |
| WaveChannel.WithLengthEnabled | src/sound/wave.rs:144-151 | the counter is set_enabled and the channel stays enabled exactly when that says Nop; nothing else changes |
| WaveChannel.WaveTrigger | src/sound/wave.rs:161-167 | the channel is on exactly when its DAC is, the counter is triggered and the wave restarts at entry 0 |
| WaveChannel.OffIsFrozen | src/sound/wave.rs:93-108 | a channel that is off stays off and its wave does not move |
| WaveChannel.LengthExpires | src/sound/wave.rs:93-108 | on the length clock that empties its counter, a playing channel switches off |
| WaveChannel.Wave.constructor | src/sound/wave.rs:78-87 | a new channel has DAC off, is disabled and muted, with a 256-step length counter |
| WaveChannel.Wave.Tick | src/sound/wave.rs:93-108 | the new state is WaveTick of the old with the sequencer's length clock |
| WaveChannel.Wave.Sample | src/sound/wave.rs:110-122 | 0 while disabled; otherwise the current entry at the channel's volume, at most 15 |
| WaveChannel.Wave.SetDac | src/sound/wave.rs:124-129 | the new state is WithDac of the old |
| WaveChannel.Wave.SetVolume | src/sound/wave.rs:131-133 | only the volume changes, to the table entry for the code |
| WaveChannel.Wave.SetWave | src/sound/wave.rs:135-137 | only the two table entries for the offset change |
| WaveChannel.Wave.SetLength | src/sound/wave.rs:140-142 | only the counter changes, to CounterSetLength of the old |
| WaveChannel.Wave.SetLengthEnabled | src/sound/wave.rs:144-151 | the new state is WithLengthEnabled of the old, using the sequencer's next step |
| WaveChannel.Wave.SetFreqLower | src/sound/wave.rs:153-155 | only the wave frequency changes, to FreqLower of the old |
| WaveChannel.Wave.SetFreqUpper | src/sound/wave.rs:157-159 | only the wave frequency changes, to FreqUpper of the old |
| WaveChannel.Wave.Trigger | src/sound/wave.rs:161-167 | the new state is WaveTrigger of the old |

## Left out

- Drawing pixels is left out. This covers `bg_row`, `window_row`, `oam_row`, `fill_framebuffer`, `bg_color` and `fill_tile_framebuffer` (src/lcd/controller.rs:318-433), the frame buffer and the renderer. They depend on `PaletteManager`, `BGPixel` and the renderer's `Color`, and those types are not part of this model. The sprite, tile, background and palette pieces they are built from are modelled.
- The colour palette registers BGPI/BGPD/OBPI/OBPD go to a `PaletteManager`, which is not part of this model. Writes to them change no modelled state.
- The LCD's `vram_hblank_dma` is called by the bus but defined nowhere in the repository. The routing bus takes it as a parameter of its devices.
- The sound controller (src/sound/controller.rs) is left out. Its `tick` produces floating-point samples, its envelope and square wave duplicate src/sound/envelope.rs and src/sound/square.rs, and its register writes mostly print. Its device slot holds a stand-in object without state, and its address ranges are modelled (`GameboyMap.SoundAreas`).
- `CLOCK_FREQ` and `CLOCKS_PER_SERIAL_BIT_SHIFT` come from src/clocks.rs, which is not part of this model. They are constructor parameters. The timer requires `CLOCK_FREQ` of at least its fastest TAC frequency, and the sound blocks require it to be large enough for every period to be at least one tick. The `u32` products and quotients built from them are unbounded here.
- Gameboys.Gameboy.Tick: the CPU step inside the frame loop is taken as the sequence of its clock counts. The CPU model runs over the flat bus, not over the routing bus the frame loop uses. A frame whose counts run out before VBlank reports `false`.
- The renderer calls in `Gameboy::boot` and `Gameboy::tick` (texture updates, pushing the frame, queueing audio) are left out. The sound controller is not ticked.
- Gameboys.Gameboy.constructor takes the CPU's mode as a parameter. src/gameboy.rs calls `Cpu::new()` with no mode, but src/cpu/mod.rs asks for one.
- DeviceManagers.DeviceManager.SetCartridge takes the cartridge's CGB compatibility as a parameter. `cgb_compatible` is not among the cartridge's methods in the files modelled here.
- Reading the cartridge file, the boot ROM and the symbol file from disk is left out (src/cartridge/cartridge.rs:29-45, src/cartridge.rs:48-52, `Symbols::new`). The model is given their contents. The path probing in `symbols()` is left out too.
- `main.rs`, `renderer.rs`, `debug!`/`println!` output and the CPU's `debug` switch are left out. So is interrupt dispatch into the CPU: no modelled file calls `InterruptController::handle`, and `ime` is only ever written.
- Wave.trigger calls `length_counter.trigger()` without the argument that `LengthCounter::trigger` takes. WaveChannel.Wave.Trigger forwards a `willEnable` parameter instead. The unused `frequency` field of `Wave` is left out.
- Envelopes.EnvelopeTick and the other sound functions require `clockFreq` large enough that a reload is never 0, so the source's `ticks_left -= 1` never underflows. A smaller clock would make the source panic in a debug build.
- LcdOam.IsOnRow: the contract is stated only where `ly + 16` and `y + height` fit in eight bits. Elsewhere the source's wrapping comparisons hold, and the model computes them but states nothing about them.
- LcdBackground.RowIterator.constructor requires the row to be below 256, the height of the background map. For a larger row the source panics on the first `next`.
- Exec.Store8: the contract states only well-formedness and IME. The store itself is stated by ExecFacts.StoreThenGet.
- Exec.Load8: the contract states only well-formedness and IME. The copy is stated by ExecFacts.LoadCopies.
- Exec.Store16: the contract states only well-formedness and IME. The store is stated by ExecFacts.Load16Copies.
- Exec.Load16: the contract states only well-formedness and IME. The copy is stated by ExecFacts.Load16Copies.
- Exec.LoadByte: the contract states only well-formedness and IME. The copy is stated by ExecFacts.LoadCopies. The HL step of LD8I and LD8D is not stated for this engine; it is stated for the early one by EarlyExec.StoreIncrement and EarlyExec.LoadDecrement.
- Exec.LoadWord: the contract states only well-formedness and IME. The plain `ld16` case is stated by ExecFacts.Load16Copies. The `LD HL, SP+r8` flags are not stated.
- Exec.Push: the contract states only well-formedness and IME. The effect is stated by ExecFacts.PushPair.
- Exec.Pop: the contract states only well-formedness and IME. The effect is stated by ExecFacts.PopPair.
- Exec.Loads: the contract states only well-formedness and IME.
- Exec.Arith8: the contract states only well-formedness and IME. The effect is stated by ExecFacts.AluInstructions and ExecFacts.IncDecKeepCarry.
- Exec.Arith16: the contract states only well-formedness and IME. The flags are stated by Alu.Add16Flags.
- Exec.ShiftInto: the contract states only well-formedness and IME.
- Exec.CbOp: the contract states only well-formedness and IME. The effect is stated by ExecFacts.BitInstruction and ExecFacts.SetResInstructions.
- Exec.BitOps: the contract states only well-formedness and IME.
- Exec.Misc: the contract states only well-formedness. DAA, CPL, CCF and SCF are stated by Exec.FlagOp, and DAA on BCD operands by ExecFacts.DaaAsWrittenAfterAdd and ExecFacts.DaaAfterSub.
- Exec.PushPc: the contract states only well-formedness and IME. The frame is stated by ExecFacts.PushPcFrame.
- Exec.PopPc: the contract states only well-formedness and IME. The effect is stated by ExecFacts.PopPushedPc.
- Exec.Control: the contract states only well-formedness. The effect is stated by ExecFacts.ExecuteControl, TakenJr (with the JR target as written), CallTaken, RetTaken and RstTaken.
- Exec.Plain: the contract states only well-formedness. The effect is stated by ExecFacts.ExecutePlain and PlainAdvancesPc.
- Exec.Execute: the contract states only well-formedness. The effect is stated by the ExecFacts lemmas.
- Exec.Step: the contract states only well-formedness. The effect is stated by the ExecFacts lemmas.
- EarlyExec.Load8: the contract states only well-formedness. The effect is stated by EarlyExec.StoreIncrement and EarlyExec.LoadDecrement.
- EarlyExec.Load16: the contract states only well-formedness. The effect is stated by EarlyExec.StoreStackPointer.
- EarlyExec.LoadByte: the contract states only well-formedness. The effect is stated by EarlyExec.StoreIncrement and EarlyExec.LoadDecrement.
- EarlyExec.Push: the contract states only well-formedness. The effect is stated by EarlyExec.PushStores and EarlyExec.PushPair.
- EarlyExec.Pop: the contract states only well-formedness. The effect is stated by EarlyExec.PopPair.
- EarlyExec.Execute: the contract states only well-formedness. The effect is stated by EarlyExec.ExecuteFails and EarlyExec.ExecuteKeepsPc.
- EarlyExec.Step: the contract states only well-formedness. The effect is stated by EarlyExec.StepAdvancesPc.

## Findings

| source | as written | input that shows it | evidently intended | confidence | as-written member | corrected member |
|---|---|---|---|---|---|---|
| src/cpu/eval.rs:278-282 | a negative JR offset is negated in `i8` (`offset*-1`), so offset -128 overflows; the wrapped value then makes the jump go forward by 128 | `JR -128` (bytes 0x18 0x80) at any PC | PC + offset, a jump back by 128 | not executed | ExecFacts.JrAsWrittenDiffers (Exec.JrTargetAsWritten, which the engine runs) | Exec.JrTarget, the reference the as-written target is compared with |
| src/cpu/eval.rs:342-345 | after an addition, DAA adds 0x60 only when the high nibble is 10 or more, or on carry | A = 0x45 + 0x55 = 0x9A with no carries, then DAA: as written A becomes 0xA0 with no carry | 0x60 is added when A is above 0x99, giving 0x00 with carry, the BCD sum 100 | not executed | ExecFacts.DaaAsWrittenDiffers and ExecFacts.DaaAsWrittenAfterAdd (Exec.DaaAsWritten, which the engine runs) | Exec.Daa, the reference, proved by ExecFacts.DaaAfterAdd and ExecFacts.DaaAfterSub |
| src/cartridge/mbc.rs:81 | the 2-bit register is shifted left by 6 before it is ORed with the 5-bit register | registers (1, 1) in ROM mode select bank 0x41 | the 2-bit register forms bits 5-6 of the bank number, giving bank 0x21; that is the shift the 0x20/0x40/0x60 cases on the next lines assume | not executed | Mbc.RomBankAsWrittenDiffers (Mbc.RomBankAsWritten, which Mbc.Mbc1.RomBankNum runs) | Mbc.RomBankIntendedRange (Mbc.RomBankIntended, the reference), compared by Mbc.RomBankAgreement |
| src/sound/square.rs:4-9 | duty row 1 is `1,0,0,0,0,0,0,0`, one high step in eight, the same as row 0 | duty code 1 (NR11/NR21 bits 6-7 = 01) | 25 per cent duty, two high steps in eight (`1,0,0,0,0,0,0,1`) | not executed | SquareWaves.DutyAsWrittenRepeats (`DUTY_CYCLES`, which the square wave samples) | SquareWaves.DutyFractions (`DUTY_CYCLES_INTENDED`, the reference) |
