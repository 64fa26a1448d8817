/**
 * The machine (src/gameboy.rs): `new` fills the device slots, `boot` maps
 * the devices into the address map, and `tick` runs one frame.
 *
 * A frame runs CPU steps until the LCD raises VBlank.  After each step the
 * timer, the LCD and the serial port are ticked by the step's clock count,
 * in that order, and the interrupts they raise are requested from the
 * interrupt controller in the order raised; the frame ends as soon as
 * VBlank has been requested, so whatever was raised after it in the same
 * step is never requested.
 *
 * The CPU steps run over the routing bus, whose devices the CPU model does
 * not drive, so a frame takes the clock counts of its CPU steps as input;
 * a frame whose input runs out before VBlank ends with `false`.  The
 * renderer, the frame buffer and the sound controller's samples are left
 * out.
 */
module Gameboys {
  import opened Bits
  import opened Wrappers
  import opened Hardware
  import opened Mapping
  import opened GameboyMap
  import opened DeviceManagers
  import Interrupts
  import Timers
  import SerialPort
  import Lcd
  import Joypad
  import RamRom
  import GameCartridge
  import Symbols
  import Cpu
  import Registers

  // ---------------------------------------------------------------------
  // One frame, on values

  /** The state of the devices a frame ticks, and IF of the interrupt controller. */
  datatype Peripherals = Peripherals(timer: Timers.Regs, lcd: Lcd.Regs, serial: SerialPort.SerialState, ifReg: u8)

  predicate Ticking(p: Peripherals)
  {
    Timers.ValidRegs(p.timer)
  }

  /**
   * The interrupts that get requested of those raised in one step: all of
   * them up to and including the first VBlank.
   */
  function Requested(fired: seq<Interrupts.Interrupt>): (r: seq<Interrupts.Interrupt>)
    ensures |r| <= |fired| && r == fired[..|r|]
    ensures Interrupts.VBlank in r <==> Interrupts.VBlank in fired
    ensures Interrupts.VBlank !in fired ==> r == fired
    ensures Interrupts.VBlank in fired ==> r[|r| - 1] == Interrupts.VBlank && Interrupts.VBlank !in r[..|r| - 1]
  {
    if fired == [] then []
    else if fired[0] == Interrupts.VBlank then [Interrupts.VBlank]
    else
      var rest := Requested(fired[1..]);
      assert fired[..|rest| + 1] == [fired[0]] + fired[1..][..|rest|];
      assert rest != [] ==> ([fired[0]] + rest)[..|rest|] == [fired[0]] + rest[..|rest| - 1];
      [fired[0]] + rest
  }

  /** IF after requesting the interrupts in order. */
  function RequestAll(ifReg: u8, requested: seq<Interrupts.Interrupt>): u8
    decreases |requested|
  {
    if requested == [] then ifReg
    else RequestAll(Interrupts.WithRequest(ifReg, requested[0]), requested[1..])
  }

  /** Every interrupt requested has its IF bit set afterwards, and no other bit changes. */
  lemma {:induction false} RequestAllBits(ifReg: u8, requested: seq<Interrupts.Interrupt>, j: nat)
    ensures Bit(RequestAll(ifReg, requested), j) ==
      if exists k :: 0 <= k < |requested| && Interrupts.FlagBit(requested[k]) == j then 1 else Bit(ifReg, j)
    decreases |requested|
  {
    if requested != [] {
      var first := requested[0];
      RequestAllBits(Interrupts.WithRequest(ifReg, first), requested[1..], j);
      if exists k :: 0 <= k < |requested[1..]| && Interrupts.FlagBit(requested[1..][k]) == j {
        var k :| 0 <= k < |requested[1..]| && Interrupts.FlagBit(requested[1..][k]) == j;
        assert Interrupts.FlagBit(requested[k + 1]) == j;
      } else if Interrupts.FlagBit(first) != j {
        forall k | 0 <= k < |requested| ensures Interrupts.FlagBit(requested[k]) != j {
          if k > 0 {
            assert requested[k] == requested[1..][k - 1];
          }
        }
      }
    }
  }

  /** The devices after one step's ticks, and the interrupts they raised, in order: timer, LCD, serial. */
  function TickDevices(p: Peripherals, clocks: nat): (r: (Peripherals, seq<Interrupts.Interrupt>))
    requires Ticking(p)
    ensures Ticking(r.0) && r.0.ifReg == p.ifReg
  {
    var (timer, t) := Timers.TickRegs(p.timer, clocks);
    var (lcd, l) := Lcd.TickRegs(p.lcd, clocks);
    var (serial, s) := SerialPort.TickSerial(p.serial, clocks);
    (Peripherals(timer, lcd, serial, p.ifReg), t + l + s)
  }

  /** One step: tick the devices and request what they raised, up to VBlank; `true` when VBlank ends the frame. */
  function FrameStep(p: Peripherals, clocks: nat): (r: (Peripherals, bool))
    requires Ticking(p)
    ensures Ticking(r.0)
  {
    var (q, fired) := TickDevices(p, clocks);
    (q.(ifReg := RequestAll(q.ifReg, Requested(fired))), Interrupts.VBlank in fired)
  }

  /**
   * `tick`'s loop over the CPU steps whose clock counts are `cycles`, from
   * step `i` on: the state at the end, and whether a step raised VBlank
   * (`false` when the clock counts ran out first).
   */
  function RunFrom(p: Peripherals, cycles: seq<nat>, i: nat): (r: (Peripherals, bool))
    requires Ticking(p) && i <= |cycles|
    ensures Ticking(r.0)
    ensures i == |cycles| ==> r == (p, false)
    decreases |cycles| - i
  {
    if i == |cycles| then (p, false)
    else
      var step := FrameStep(p, cycles[i]);
      if step.1 then step else RunFrom(step.0, cycles, i + 1)
  }

  /** A whole frame over the clock counts `cycles`. */
  function RunFrame(p: Peripherals, cycles: seq<nat>): (r: (Peripherals, bool))
    requires Ticking(p)
    ensures Ticking(r.0)
    ensures cycles == [] ==> r == (p, false)
  {
    RunFrom(p, cycles, 0)
  }

  /** Clock counts after those a frame needed do not matter... */
  lemma {:induction false} RunFromEndsAtVBlank(p: Peripherals, cycles: seq<nat>, more: seq<nat>, i: nat)
    requires Ticking(p) && i <= |cycles| && RunFrom(p, cycles, i).1
    ensures RunFrom(p, cycles + more, i) == RunFrom(p, cycles, i)
    decreases |cycles| - i
  {
    assert (cycles + more)[i] == cycles[i];
    var step := FrameStep(p, cycles[i]);
    if !step.1 {
      RunFromEndsAtVBlank(step.0, cycles, more, i + 1);
    }
  }

  /** ...and those before the step a run starts from do not either. */
  lemma {:induction false} RunFromShift(p: Peripherals, before: seq<nat>, cycles: seq<nat>, i: nat)
    requires Ticking(p) && i <= |cycles|
    ensures RunFrom(p, before + cycles, |before| + i) == RunFrom(p, cycles, i)
    decreases |cycles| - i
  {
    if i < |cycles| {
      assert (before + cycles)[|before| + i] == cycles[i];
      var step := FrameStep(p, cycles[i]);
      if !step.1 {
        RunFromShift(step.0, before, cycles, i + 1);
      }
    }
  }

  /** A run that has not ended by the end of `cycles` goes on with `more` from where it stands. */
  lemma {:induction false} RunFromContinues(p: Peripherals, cycles: seq<nat>, more: seq<nat>, i: nat)
    requires Ticking(p) && i <= |cycles| && !RunFrom(p, cycles, i).1
    ensures RunFrom(p, cycles + more, i) == RunFrom(RunFrom(p, cycles, i).0, more, 0)
    decreases |cycles| - i
  {
    if i == |cycles| {
      RunFromShift(p, cycles, more, 0);
    } else {
      assert (cycles + more)[i] == cycles[i];
      var step := FrameStep(p, cycles[i]);
      FrameFromStep(p, cycles, i, step.0, step.1);
      FrameFromStep(p, cycles + more, i, step.0, step.1);
      RunFromContinues(step.0, cycles, more, i + 1);
    }
  }

  /** Once a frame has ended, further CPU steps are never taken. */
  lemma FrameEndsAtVBlank(p: Peripherals, cycles: seq<nat>, more: seq<nat>)
    requires Ticking(p) && RunFrame(p, cycles).1
    ensures RunFrame(p, cycles + more) == RunFrame(p, cycles)
  {
    RunFromEndsAtVBlank(p, cycles, more, 0);
  }

  /** A frame that has not ended goes on from where it stands. */
  lemma FrameContinues(p: Peripherals, cycles: seq<nat>, more: seq<nat>)
    requires Ticking(p) && !RunFrame(p, cycles).1
    ensures RunFrame(p, cycles + more) == RunFrame(RunFrame(p, cycles).0, more)
  {
    RunFromContinues(p, cycles, more, 0);
  }

  /**
   * The LCD raises VBlank before any STAT interrupt of the same step, so a
   * STAT interrupt raised on entering VBlank, and any serial interrupt of
   * that step, are never requested; the timer's, raised first, always is.
   */
  lemma VBlankStep(p: Peripherals, clocks: nat)
    requires Ticking(p)
    requires Interrupts.VBlank in Lcd.TickRegs(p.lcd, clocks).1
    ensures var t := Timers.TickRegs(p.timer, clocks).1;
      Requested(TickDevices(p, clocks).1) == t + [Interrupts.VBlank]
  {
    var t := Timers.TickRegs(p.timer, clocks).1;
    var l := Lcd.TickRegs(p.lcd, clocks).1;
    var s := SerialPort.TickSerial(p.serial, clocks).1;
    assert l[0] == Interrupts.VBlank;
    assert Requested(l + s) == [Interrupts.VBlank];
    RequestedAfter(t, l + s);
    assert t + l + s == t + (l + s);
  }

  /** Interrupts before the first VBlank are all requested, and the rest is cut as it would be alone. */
  lemma {:induction false} RequestedAfter(t: seq<Interrupts.Interrupt>, rest: seq<Interrupts.Interrupt>)
    requires Interrupts.VBlank !in t
    ensures Requested(t + rest) == t + Requested(rest)
    decreases |t|
  {
    if t != [] {
      assert (t + rest)[1..] == t[1..] + rest;
      RequestedAfter(t[1..], rest);
    } else {
      assert t + rest == rest;
    }
  }

  // ---------------------------------------------------------------------
  // The machine

  /** The slots `new` fills, with `Ignore`, which is never empty. */
  predicate InstalledByNew(id: DeviceId)
  {
    !(id == Cartridge || id == RAMBank1 || id == HRAM)
  }

  class Gameboy {
    const cpu: Cpu.Cpu
    const memoryMap: MemoryMap
    const devices: DeviceManager
    // The devices `new` installs, as `tick` reaches them through the manager's getters.
    const timer: Timers.TimerController
    const lcd: Lcd.LcdController
    const serial: SerialPort.SerialController
    const interrupt: Interrupts.InterruptController
    const joypad: Joypad.JoypadController

    ghost predicate Valid()
      reads this, devices, timer, timer.divTicker, timer.timaTicker, lcd, lcd.state, joypad, memoryMap
    {
      devices.timer == timer && devices.lcd == lcd && devices.serial == serial
      && devices.interrupt == interrupt && devices.joypad == joypad
      && timer.Valid() && lcd.Valid() && joypad.Valid()
      && memoryMap.memoryMap.Length == MEMORY_SIZE
    }

    function Model(): Peripherals
      reads this, timer, timer.divTicker, timer.timaTicker, lcd, lcd.state, serial, interrupt
    {
      Peripherals(timer.Model(), lcd.Model(), serial.Model(), interrupt.ifReg)
    }

    /**
     * `new`: work RAM, interrupts, timer, LCD, sound, serial and joypad fill
     * their slots; the cartridge, the second RAM bank and HRAM do not, and
     * the address map is empty.  The source calls `Cpu::new()` without the
     * mode `src/cpu/mod.rs` asks for, so the mode is a parameter; so are
     * `CLOCK_FREQ` and the clocks per serial bit.
     */
    constructor (mode: Mode, clockFreq: nat, clocksPerShift: nat)
      requires clockFreq >= Timers.MAX_FREQ
      ensures Valid() && fresh(memoryMap.memoryMap)
      ensures forall id :: devices.Filled(id) <==> InstalledByNew(id)
      ensures memoryMap.memoryMap[..] == EmptyMap() && memoryMap.symbols.None?
      ensures cpu.registers.Model() == if mode == CGB then Registers.Zero.(a := 0x11) else Registers.Zero
      ensures Model().serial == SerialPort.SerialState(0, 0, 0) && Model().timer == Timers.NewRegs(clockFreq)
      ensures Model().lcd == Lcd.InitRegs()
    {
      cpu := new Cpu.Cpu(mode);
      var ic, tc, lc, sc, sp, jc := NewIoDevices(clockFreq, clocksPerShift);
      var d := Install(ic, tc, lc, sc, sp, jc);
      devices := d;
      timer, lcd, serial, interrupt, joypad := tc, lc, sp, ic, jc;
      memoryMap := new MemoryMap();
    }

    /** The I/O devices `new` creates, in its order. */
    static method NewIoDevices(clockFreq: nat, clocksPerShift: nat)
      returns (ic: Interrupts.InterruptController, tc: Timers.TimerController, lc: Lcd.LcdController,
               sc: SoundController, sp: SerialPort.SerialController, jc: Joypad.JoypadController)
      requires clockFreq >= Timers.MAX_FREQ
      ensures fresh(ic) && fresh(tc) && fresh(lc) && fresh(lc.state) && fresh(sc) && fresh(sp) && fresh(jc)
      ensures ic.ifReg == 0 && ic.ieReg == 0
      ensures tc.Valid() && tc.Model() == Timers.NewRegs(clockFreq)
      ensures lc.Valid() && lc.Model() == Lcd.InitRegs()
      ensures sp.Model() == SerialPort.SerialState(0, 0, 0)
      ensures jc.Valid()
    {
      ic := new Interrupts.InterruptController();
      tc := new Timers.TimerController(clockFreq);
      lc := new Lcd.LcdController();
      sc := new SoundController();
      sp := new SerialPort.SerialController(clocksPerShift);
      jc := new Joypad.JoypadController();
    }

    /** The device manager `new` fills: work RAM from 0xC000, then the I/O devices, in its order. */
    static method Install(ic: Interrupts.InterruptController, tc: Timers.TimerController, lc: Lcd.LcdController,
                          sc: SoundController, sp: SerialPort.SerialController, jc: Joypad.JoypadController)
      returns (d: DeviceManager)
      ensures fresh(d) && d.ramBank0 != null && fresh(d.ramBank0) && d.ramBank0.offset == 0xC000
      ensures d.Table() == SlotTable(null, d.ramBank0, null, ic, jc, tc, lc, sc, sp, null)
    {
      d := new DeviceManager();
      var ram := new RamRom.RamDevice(0xC000, 0x4000);
      d.SetRamBank0(ram);
      d.SetInterruptController(ic);
      d.SetTimer(tc);
      d.SetLcdController(lc);
      d.SetSoundController(sc);
      d.SetSerialController(sp);
      d.SetJoypadController(jc);
    }

    /**
     * `map_devices`: work RAM, then the cartridge, which also brings its
     * symbols (read from a file beside the cartridge, so a parameter here),
     * then the I/O devices.  `ok` is false where `set_cartridge` panics.
     */
    method MapDevices(c: GameCartridge.Cartridge, cgbCompatible: bool, symbols: Option<map<Symbols.Loc, string>>)
      returns (ok: bool)
      requires Valid()
      modifies memoryMap, memoryMap.memoryMap, devices, lcd
      ensures Valid() && lcd.state == old(lcd.state)
      ensures ok && memoryMap.symbols == symbols && devices.cartridge == c
      ensures memoryMap.memoryMap[..] == DeviceMap(old(memoryMap.memoryMap[..]))
      ensures !cgbCompatible ==> lcd.Model() == old(lcd.Model()).(mode := DMG)
      ensures cgbCompatible ==> lcd.Model() == old(lcd.Model())
    {
      var _ := memoryMap.Register(RAMBank0, RamAreas());
      var _ := memoryMap.Register(Cartridge, GameCartridge.CartridgeAreas());
      memoryMap.SetSymbols(symbols);
      ok := devices.SetCartridge(c, cgbCompatible);
      MapIo();
    }

    /** The I/O half of `map_devices`: interrupts, timer, LCD, sound, joypad and serial, in that order. */
    method MapIo()
      requires memoryMap.memoryMap.Length == MEMORY_SIZE
      modifies memoryMap.memoryMap
      ensures memoryMap.memoryMap[..] == IoLayer(old(memoryMap.memoryMap[..]))
    {
      var _ := memoryMap.Register(Interrupt, InterruptAreas());
      var _ := memoryMap.Register(Timer, TimerAreas());
      var _ := memoryMap.Register(LCD, Lcd.LcdAreas());
      var _ := memoryMap.Register(Sound, SoundAreas());
      var _ := memoryMap.Register(Joypad, JoypadAreas());
      var _ := memoryMap.Register(Serial, SerialAreas());
    }

    /**
     * `boot`: skipping the boot ROM starts the CPU at 0x100 and gives the
     * first 256 ROM bytes back to the cartridge before anything is mapped.
     */
    method Boot(c: GameCartridge.Cartridge, skipBootRom: bool, cgbCompatible: bool,
                symbols: Option<map<Symbols.Loc, string>>)
      requires Valid() && c.Valid()
      modifies cpu.registers, c.romBanks, memoryMap, memoryMap.memoryMap, devices, lcd
      ensures Valid()
      ensures skipBootRom ==> cpu.registers.Model() == old(cpu.registers.Model()).(pc := 0x100)
      ensures skipBootRom ==> c.romBanks[..] == c.data[..GameCartridge.ROM_BANKS_SIZE]
      ensures !skipBootRom ==> cpu.registers.Model() == old(cpu.registers.Model())
      ensures memoryMap.memoryMap[..] == DeviceMap(old(memoryMap.memoryMap[..]))
      ensures forall a :: 0 <= a < MEMORY_SIZE ==> memoryMap.memoryMap[a] == Some(Owner(a))
    {
      if skipBootRom {
        cpu.SkipBootRom();
        c.ClearBootRom();
      }
      ghost var before := memoryMap.memoryMap[..];
      var _ := MapDevices(c, cgbCompatible, symbols);
      forall a | 0 <= a < MEMORY_SIZE ensures memoryMap.memoryMap[a] == Some(Owner(a)) {
        DeviceMapOwners(before, a);
      }
    }

    /**
     * `tick`: the pressed buttons are applied once; then each CPU step's
     * clocks tick the timer, the LCD and the serial port, and what they
     * raised is requested in order, up to the first VBlank, which ends the
     * frame.
     */
    method Tick(pressed: seq<Joypad.JoypadInput>, cycles: seq<nat>) returns (vblank: bool)
      requires Valid()
      modifies joypad, timer.divTicker, timer.timaTicker, lcd, lcd.state, serial, interrupt
      ensures Valid()
      ensures (Model(), vblank) == RunFrame(old(Model()), cycles)
      ensures joypad.buttonNib == Joypad.ButtonNib(pressed) && joypad.directionNib == Joypad.DirectionNib(pressed)
      ensures interrupt.ieReg == old(interrupt.ieReg)
    {
      joypad.SetPressed(pressed);
      ghost var frame := RunFrame(Model(), cycles);
      var k := 0;
      vblank := false;
      while k < |cycles|
        invariant 0 <= k <= |cycles| && Valid() && lcd.state == old(lcd.state)
        invariant joypad.buttonNib == Joypad.ButtonNib(pressed) && joypad.directionNib == Joypad.DirectionNib(pressed)
        invariant interrupt.ieReg == old(interrupt.ieReg)
        invariant frame == RunFrom(Model(), cycles, k)
        decreases |cycles| - k
      {
        ghost var p := Model();
        vblank := Step(cycles[k]);
        FrameFromStep(p, cycles, k, Model(), vblank);
        if vblank {
          return;
        }
        k := k + 1;
      }
    }

    /** One CPU step's worth of `tick`'s loop. */
    method Step(clocks: nat) returns (vblank: bool)
      requires Valid()
      modifies timer.divTicker, timer.timaTicker, lcd, lcd.state, serial, interrupt
      ensures Valid() && lcd.state == old(lcd.state)
      ensures (Model(), vblank) == FrameStep(old(Model()), clocks)
      ensures interrupt.ieReg == old(interrupt.ieReg)
    {
      var fired := TickAll(clocks);
      vblank := RequestFired(fired);
    }

    /** The timer, the LCD and the serial port ticked in turn; IF is not touched. */
    method TickAll(clocks: nat) returns (fired: seq<Interrupts.Interrupt>)
      requires Valid()
      modifies timer.divTicker, timer.timaTicker, lcd, lcd.state, serial
      ensures Valid() && lcd.state == old(lcd.state)
      ensures (Model(), fired) == TickDevices(old(Model()), clocks)
    {
      var t := timer.Tick(clocks);
      var l := lcd.Tick(clocks);
      var s := serial.Tick(clocks);
      fired := t + l + s;
    }

    /** The raised interrupts requested in order, stopping after VBlank. */
    method RequestFired(fired: seq<Interrupts.Interrupt>) returns (vblank: bool)
      modifies interrupt
      ensures interrupt.ifReg == RequestAll(old(interrupt.ifReg), Requested(fired))
      ensures vblank <==> Interrupts.VBlank in fired
      ensures interrupt.ieReg == old(interrupt.ieReg)
    {
      ghost var start := interrupt.ifReg;
      var j := 0;
      while j < |fired|
        invariant 0 <= j <= |fired|
        invariant Interrupts.VBlank !in fired[..j]
        invariant interrupt.ifReg == RequestAll(start, fired[..j])
        invariant interrupt.ieReg == old(interrupt.ieReg)
      {
        RequestAllSnoc(start, fired[..j], fired[j]);
        assert fired[..j + 1] == fired[..j] + [fired[j]];
        interrupt.Request(fired[j]);
        if fired[j] == Interrupts.VBlank {
          RequestedAfter(fired[..j], fired[j..]);
          assert fired == fired[..j] + fired[j..];
          return true;
        }
        j := j + 1;
      }
      assert fired[..j] == fired;
      return false;
    }
  }

  /** Step `k` of a frame, and the rest of the frame from where it leaves the devices. */
  lemma FrameFromStep(p: Peripherals, cycles: seq<nat>, k: nat, q: Peripherals, vblank: bool)
    requires Ticking(p) && k < |cycles| && (q, vblank) == FrameStep(p, cycles[k])
    ensures vblank ==> RunFrom(p, cycles, k) == (q, true)
    ensures !vblank ==> Ticking(q) && RunFrom(p, cycles, k) == RunFrom(q, cycles, k + 1)
  {
  }

  /** Requesting one more interrupt after a list. */
  lemma {:induction false} RequestAllSnoc(ifReg: u8, requested: seq<Interrupts.Interrupt>, i: Interrupts.Interrupt)
    ensures RequestAll(ifReg, requested + [i]) == Interrupts.WithRequest(RequestAll(ifReg, requested), i)
    decreases |requested|
  {
    if requested != [] {
      assert (requested + [i])[1..] == requested[1..] + [i];
      RequestAllSnoc(Interrupts.WithRequest(ifReg, requested[0]), requested[1..], i);
    }
  }
}
