/**
 * The LCD controller (src/lcd/controller.rs): two banks of 8K video RAM,
 * 160 bytes of OAM, the LCD registers, and the state machine that walks
 * each line through OAM search, pixel transfer and HBlank, and the frame
 * through 144 visible lines and 10 lines of VBlank.
 *
 * Drawing pixels into the frame buffer is not part of this model; `tick`
 * reports the interrupts it fires as a sequence, in firing order.
 */
module Lcd {
  import opened Bits
  import opened Wrappers
  import opened Hardware
  import opened Mapping
  import opened LcdPalette
  import Interrupts

  const VRAM_START: u16 := 0x8000
  const VRAM_SIZE: nat := 0x2000
  const VRAM_END: u16 := 0x9FFF
  const OAM_START: u16 := 0xFE00
  const OAM_SIZE: nat := 0xA0
  const OAM_END: u16 := 0xFE9F
  const LCDC: u16 := 0xFF40
  const STAT: u16 := 0xFF41
  const SCY: u16 := 0xFF42
  const SCX: u16 := 0xFF43
  const LY: u16 := 0xFF44
  const LYC: u16 := 0xFF45
  const BGP: u16 := 0xFF47
  const OBP0: u16 := 0xFF48
  const OBP1: u16 := 0xFF49
  const WY: u16 := 0xFF4A
  const WX: u16 := 0xFF4B
  const VBK: u16 := 0xFF4F
  const HDMA1: u16 := 0xFF51
  const HDMA2: u16 := 0xFF52
  const HDMA3: u16 := 0xFF53
  const HDMA4: u16 := 0xFF54
  const HDMA5: u16 := 0xFF55
  const BGPI: u16 := 0xFF68
  const BGPD: u16 := 0xFF69
  const OBPI: u16 := 0xFF6A
  const OBPD: u16 := 0xFF6B

  /** The value of STAT's top bit on every read. */
  const STAT_MASK: u8 := 0x80

  // ---------------------------------------------------------------------
  // The line state machine

  datatype Period = OamSearch | PixelTransfer | HBlank | VBlank

  /** `Period::clocks`: OAM search, pixel transfer and HBlank make a 114-clock line, and a VBlank line is as long. */
  function PeriodClocks(p: Period): (c: nat)
    ensures c > 0
    ensures p == VBlank ==> c == 20 + 43 + 51
  {
    match p
    case OamSearch => 20
    case PixelTransfer => 43
    case HBlank => 51
    case VBlank => 114
  }

  /** `Period::mode`: the mode number STAT reports. */
  function PeriodMode(p: Period): (m: u8)
    ensures m < 4
  {
    match p
    case OamSearch => 2
    case PixelTransfer => 3
    case HBlank => 0
    case VBlank => 1
  }

  /** The four periods report four different modes. */
  lemma PeriodModeInjective(p: Period, q: Period)
    requires PeriodMode(p) == PeriodMode(q)
    ensures p == q
  {
  }

  /**
   * `Period::next(ly)`: the period after `p` and the line it is on.  HBlank
   * moves to the next line, into VBlank after line 143; VBlank moves on a
   * line at a time and wraps to line 0 after line 153.  `ly + 1` is an
   * eight-bit sum.
   */
  function NextPeriod(p: Period, ly: u8): (r: (Period, u8))
  {
    match p
    case OamSearch => (PixelTransfer, ly)
    case PixelTransfer => (HBlank, ly)
    case HBlank => if ly < 143 then (OamSearch, ly + 1) else (VBlank, Wrap8(ly + 1))
    case VBlank => if ly == 153 then (OamSearch, 0) else (VBlank, Wrap8(ly + 1))
  }

  /** `State`: the period, the clocks left in it, and the line. */
  datatype StateV = StateV(period: Period, clocksLeft: nat, ly: u8)

  /** `State::init`: the start of OAM search on line 0. */
  function InitState(): (s: StateV)
    ensures s.period == OamSearch && s.ly == 0 && s.clocksLeft == 20
  {
    StateV(OamSearch, PeriodClocks(OamSearch), 0)
  }

  /**
   * The states the machine reaches: lines 0-143 are visible, 144-153 are
   * VBlank, and the clocks left never exceed the period's length.
   */
  predicate Reachable(s: StateV)
  {
    s.ly <= 153 && (s.period == VBlank <==> s.ly >= 144) && s.clocksLeft <= PeriodClocks(s.period)
  }

  /**
   * `State::tick(clocks)`: when the clocks run past the period's end, move
   * to the next period and return the clocks left over; otherwise use them
   * up and return 0.
   */
  function StateTick(s: StateV, clocks: nat): (r: (StateV, nat))
    ensures s.clocksLeft < clocks ==> (r.1 == clocks - s.clocksLeft
      && (r.0.period, r.0.ly) == NextPeriod(s.period, s.ly) && r.0.clocksLeft == PeriodClocks(r.0.period))
    ensures s.clocksLeft >= clocks ==> r == (s.(clocksLeft := s.clocksLeft - clocks), 0)
  {
    if s.clocksLeft < clocks then
      var (period, ly) := NextPeriod(s.period, s.ly);
      (StateV(period, PeriodClocks(period), ly), clocks - s.clocksLeft)
    else
      (s.(clocksLeft := s.clocksLeft - clocks), 0)
  }

  /** A step of the state machine keeps it among the reachable states. */
  lemma StateTickReachable(s: StateV, clocks: nat)
    requires Reachable(s)
    ensures Reachable(StateTick(s, clocks).0)
  {
  }

  /** The loop of `LcdController::tick`: `State::tick` until no clocks are left. */
  function RunState(s: StateV, clocks: nat): StateV
    decreases clocks, if s.clocksLeft == 0 then 1 else 0
  {
    if clocks == 0 then s
    else
      var (next, rem) := StateTick(s, clocks);
      RunState(next, rem)
  }

  /** However many clocks pass, the line stays in 0-153 and VBlank covers exactly lines 144-153. */
  lemma {:induction false} RunStateReachable(s: StateV, clocks: nat)
    requires Reachable(s)
    ensures Reachable(RunState(s, clocks))
    decreases clocks, if s.clocksLeft == 0 then 1 else 0
  {
    if clocks > 0 {
      StateTickReachable(s, clocks);
      var (next, rem) := StateTick(s, clocks);
      RunStateReachable(next, rem);
    }
  }

  /** Clocks that fit in the current period only count it down. */
  lemma RunStateWithinPeriod(s: StateV, clocks: nat)
    requires 0 < clocks <= s.clocksLeft
    ensures RunState(s, clocks) == s.(clocksLeft := s.clocksLeft - clocks)
  {
  }

  class State {
    var period: Period
    var clocksLeft: nat
    var ly: u8

    function Model(): StateV
      reads this
    {
      StateV(period, clocksLeft, ly)
    }

    /** `State::init`. */
    constructor ()
      ensures Model() == InitState()
    {
      period := OamSearch;
      clocksLeft := PeriodClocks(OamSearch);
      ly := 0;
    }

    /** `State::tick`. */
    method Tick(clocks: nat) returns (rem: nat)
      modifies this
      ensures (Model(), rem) == StateTick(old(Model()), clocks)
    {
      if clocksLeft < clocks {
        rem := clocks - clocksLeft;
        var (p, l) := NextPeriod(period, ly);
        period := p;
        ly := l;
        clocksLeft := PeriodClocks(p);
      } else {
        clocksLeft := clocksLeft - clocks;
        rem := 0;
      }
    }
  }

  // ---------------------------------------------------------------------
  // Registers

  datatype VramBank = Bank0 | Bank1

  /** The controller's registers and its line state. */
  datatype Regs = Regs(lcdc: u8, stat: u8, scy: u8, scx: u8, ly: u8, lyc: u8, bgp: u8, obp0: u8, obp1: u8,
                       wy: u8, wx: u8, vramBank: VramBank, mode: Mode, vramDmaSrc: u16, vramDmaDst: u16,
                       state: StateV)

  /**
   * What every write keeps: LY mirrors the state machine's line, STAT's
   * top bit is clear, and the HDMA source and destination are 16-byte
   * aligned with the destination inside VRAM.
   */
  predicate GoodRegs(r: Regs)
  {
    r.ly == r.state.ly && r.stat < 0x80
    && r.vramDmaSrc % 16 == 0 && r.vramDmaDst % 16 == 0 && r.vramDmaDst < VRAM_SIZE
  }

  /** `LcdController::new`: LCDC 0x91, everything else 0, bank 0, CGB mode. */
  function InitRegs(): (r: Regs)
    ensures GoodRegs(r)
  {
    Regs(0x91, 0, 0, 0, 0, 0, 0, 0, 0, 0, 0, Bank0, CGB, 0, 0, InitState())
  }

  /** `display_enabled`: LCDC bit 7. */
  predicate DisplayEnabled(lcdc: u8)
  {
    Bit(lcdc, 7) == 1
  }

  /** STAT after a period change: bits 3-6 kept, bit 2 the LY=LYC coincidence, bits 0-1 the mode. */
  function NewStat(stat: u8, coincidence: bool, p: Period): (s: u8)
    ensures s < 0x80 && s % 4 == PeriodMode(p) && (s / 4) % 2 == (if coincidence then 1 else 0)
    ensures s / 8 == (stat / 8) % 16
  {
    var kept := ((stat / 8) % 16) * 8;
    var s := kept + (if coincidence then 4 else 0) + PeriodMode(p);
    DivUnique(s, 8, (stat / 8) % 16, (if coincidence then 4 else 0) + PeriodMode(p));
    DivUnique(s, 4, 2 * ((stat / 8) % 16) + (if coincidence then 1 else 0), PeriodMode(p));
    s
  }

  /** The interrupts fired on entering period `p`, with STAT `stat` (already updated). */
  function PeriodInterrupts(p: Period, stat: u8, coincidence: bool): (fired: seq<Interrupts.Interrupt>)
    ensures p == VBlank <==> Interrupts.VBlank in fired
    ensures p == VBlank ==> fired[0] == Interrupts.VBlank
    ensures forall i :: 0 <= i < |fired| ==> fired[i] in {Interrupts.VBlank, Interrupts.Stat}
  {
    match p
    case OamSearch =>
      if Bit(stat, 5) == 1 || (Bit(stat, 6) == 1 && coincidence) then [Interrupts.Stat] else []
    case PixelTransfer => []
    case VBlank =>
      [Interrupts.VBlank] + if Bit(stat, 4) == 1 || (Bit(stat, 6) == 1 && coincidence) then [Interrupts.Stat] else []
    case HBlank =>
      if Bit(stat, 3) == 1 then [Interrupts.Stat] else []
  }

  /**
   * `tick(clocks)`: nothing while the display is off; otherwise run the
   * state machine and, if the period changed, update STAT and fire the
   * interrupts of the new period.
   */
  function TickRegs(r: Regs, clocks: nat): (res: (Regs, seq<Interrupts.Interrupt>))
  {
    if !DisplayEnabled(r.lcdc) then (r, [])
    else
      var s := RunState(r.state, clocks);
      var ly := if clocks == 0 then r.ly else s.ly;
      var r1 := r.(state := s, ly := ly);
      if r.state.period == s.period then (r1, [])
      else
        var coincidence := ly == r.lyc;
        var stat := NewStat(r.stat, coincidence, s.period);
        (r1.(stat := stat), PeriodInterrupts(s.period, stat, coincidence))
  }

  /** With the display off, `tick` changes nothing and fires nothing. */
  lemma TickDisabledNoop(r: Regs, clocks: nat)
    requires !DisplayEnabled(r.lcdc)
    ensures TickRegs(r, clocks) == (r, [])
  {
  }

  /**
   * A tick keeps the registers' invariants; it fires VBlank exactly when it
   * enters VBlank, and when the period changed STAT reports the new mode.
   */
  lemma TickRegsFacts(r: Regs, clocks: nat)
    requires GoodRegs(r)
    ensures GoodRegs(TickRegs(r, clocks).0)
    ensures Interrupts.VBlank in TickRegs(r, clocks).1 <==>
      DisplayEnabled(r.lcdc) && r.state.period != VBlank && RunState(r.state, clocks).period == VBlank
    ensures DisplayEnabled(r.lcdc) && r.state.period != RunState(r.state, clocks).period ==>
      TickRegs(r, clocks).0.stat % 4 == PeriodMode(RunState(r.state, clocks).period)
  {
  }

  /** The register groups `set8` writes besides VRAM and OAM. */
  predicate IsControlReg(addr: u16) { addr == VBK || addr == LCDC || addr == STAT }
  predicate IsPaletteReg(addr: u16) { addr in {BGP, OBP0, OBP1, BGPI, BGPD, OBPI, OBPD} }
  predicate IsPositionReg(addr: u16) { addr in {SCY, SCX, LYC, WX, WY} }
  predicate IsHdmaReg(addr: u16) { HDMA1 <= addr <= HDMA4 }

  /** The registers a write changes, or `None` for an address the controller has no writable register at. */
  function WriteReg(r: Regs, addr: u16, byte: u8): (n: Option<Regs>)
    ensures n.Some? <==> IsWritableReg(addr)
    ensures n.Some? && addr != LCDC ==> n.value.ly == r.ly && n.value.state == r.state && n.value.lcdc == r.lcdc
    ensures n.Some? && IsPositionReg(addr) ==> n.value.stat == r.stat && n.value.vramDmaSrc == r.vramDmaSrc
  {
    if IsControlReg(addr) then Some(WriteControl(r, addr, byte))
    else if IsPaletteReg(addr) then Some(WritePalette(r, addr, byte))
    else if IsPositionReg(addr) then Some(WritePosition(r, addr, byte))
    else if IsHdmaReg(addr) then Some(WriteHdma(r, addr, byte))
    else None
  }

  /** VBK selects the VRAM bank by bit 0; LCDC turning the display off resets the line; STAT takes bits 3-6 only. */
  function WriteControl(r: Regs, addr: u16, byte: u8): Regs
    requires IsControlReg(addr)
  {
    if addr == VBK then r.(vramBank := if Bit(byte, 0) == 0 then Bank0 else Bank1)
    else if addr == LCDC then
      if DisplayEnabled(r.lcdc) && !DisplayEnabled(byte) then r.(lcdc := byte, ly := 0, state := InitState())
      else r.(lcdc := byte)
    else r.(stat := (r.stat % 8) + ((byte / 8) % 16) * 8)
  }

  /** BGP, OBP0 and OBP1 set their register; the colour palette registers go to a manager with no state here. */
  function WritePalette(r: Regs, addr: u16, byte: u8): Regs
    requires IsPaletteReg(addr)
  {
    if addr == BGP then r.(bgp := byte)
    else if addr == OBP0 then r.(obp0 := byte)
    else if addr == OBP1 then r.(obp1 := byte)
    else r
  }

  /** The scroll, window and LY-compare registers take the byte as it is. */
  function WritePosition(r: Regs, addr: u16, byte: u8): Regs
    requires IsPositionReg(addr)
  {
    if addr == SCY then r.(scy := byte)
    else if addr == SCX then r.(scx := byte)
    else if addr == LYC then r.(lyc := byte)
    else if addr == WX then r.(wx := byte)
    else r.(wy := byte)
  }

  /**
   * HDMA1/HDMA2 set the high byte and bits 4-7 of the low byte of the
   * source; HDMA3/HDMA4 the same of the destination, whose high byte keeps
   * only its low five bits.
   */
  function WriteHdma(r: Regs, addr: u16, byte: u8): Regs
    requires IsHdmaReg(addr)
  {
    if addr == HDMA1 then r.(vramDmaSrc := byte * 0x100 + ((r.vramDmaSrc % 0x100) / 16) * 16)
    else if addr == HDMA2 then r.(vramDmaSrc := (r.vramDmaSrc / 0x100) * 0x100 + (byte / 16) * 16)
    else if addr == HDMA3 then r.(vramDmaDst := (byte % 0x20) * 0x100 + ((r.vramDmaDst % 0x100) / 16) * 16)
    else r.(vramDmaDst := ((r.vramDmaDst / 0x100) % 0x20) * 0x100 + (byte / 16) * 16)
  }

  /** The register addresses `set8` accepts besides VRAM and OAM. */
  predicate IsWritableReg(addr: u16)
  {
    addr in {VBK, LCDC, STAT, BGP, OBP0, OBP1, BGPI, BGPD, OBPI, OBPD, SCY, SCX, LYC, WX, WY, HDMA1, HDMA2, HDMA3, HDMA4}
  }

  /**
   * Register writes keep the invariants: the HDMA registers keep the source
   * and destination 16-byte aligned and the destination inside VRAM, and a
   * STAT write cannot set bit 7.
   */
  lemma WriteRegGood(r: Regs, addr: u16, byte: u8)
    requires GoodRegs(r) && WriteReg(r, addr, byte).Some?
    ensures GoodRegs(WriteReg(r, addr, byte).value)
  {
    if IsHdmaReg(addr) {
      WriteHdmaGood(r, addr, byte);
    }
  }

  lemma WriteHdmaGood(r: Regs, addr: u16, byte: u8)
    requires GoodRegs(r) && IsHdmaReg(addr)
    ensures GoodRegs(WriteHdma(r, addr, byte))
  {
    if addr == HDMA1 {
      HdmaAddress(byte, r.vramDmaSrc % 0x100);
    } else if addr == HDMA2 {
      HdmaAddress(r.vramDmaSrc / 0x100, byte);
    } else if addr == HDMA3 {
      HdmaAddress(byte % 0x20, r.vramDmaDst % 0x100);
    } else {
      HdmaAddress((r.vramDmaDst / 0x100) % 0x20, byte);
    }
  }

  /** A high byte and the top four bits of a low byte make a 16-byte aligned address on page `hi`. */
  lemma HdmaAddress(hi: nat, lo: nat)
    requires lo < 0x100
    ensures (hi * 0x100 + (lo / 16) * 16) % 16 == 0
    ensures hi * 0x100 <= hi * 0x100 + (lo / 16) * 16 < hi * 0x100 + 0x100
  {
    DivUnique(hi * 0x100 + (lo / 16) * 16, 16, hi * 16 + lo / 16, 0);
  }

  /** A STAT write changes only bits 3-6: the mode and coincidence bits stay. */
  lemma WriteStat(r: Regs, byte: u8)
    ensures WriteReg(r, STAT, byte).Some?
    ensures WriteReg(r, STAT, byte).value.stat % 8 == r.stat % 8
    ensures WriteReg(r, STAT, byte).value.stat / 8 == (byte / 8) % 16
  {
    var s := (r.stat % 8) + ((byte / 8) % 16) * 8;
    DivUnique(s, 8, (byte / 8) % 16, r.stat % 8);
  }

  /** Turning the display off puts the line back to 0 and the state machine to its start. */
  lemma DisplayOffResets(r: Regs, byte: u8)
    requires DisplayEnabled(r.lcdc) && !DisplayEnabled(byte)
    ensures WriteReg(r, LCDC, byte) == Some(r.(lcdc := byte, ly := 0, state := InitState()))
  {
  }

  /** The registers `get8` reads besides VRAM: `None` where the source panics. */
  function ReadReg(r: Regs, addr: u16): (v: Option<u8>)
    ensures addr == STAT ==> v.Some? && v.value >= STAT_MASK
    ensures addr == STAT && !DisplayEnabled(r.lcdc) ==> v == Some(STAT_MASK)
    ensures addr == STAT && DisplayEnabled(r.lcdc) ==> v.value % 0x80 == r.stat % 0x80
  {
    if addr == LCDC then Some(r.lcdc)
    else if addr == STAT then
      if DisplayEnabled(r.lcdc) then Some(StatRead(r.stat)) else Some(STAT_MASK)
    else if addr == LY then Some(r.ly)
    else if addr == SCX then Some(r.scx)
    else if addr == SCY then Some(r.scy)
    else if addr == LYC then Some(r.lyc)
    else if addr == BGP then Some(r.bgp)
    else if addr == OBP0 then Some(r.obp0)
    else if addr == OBP1 then Some(r.obp1)
    else if addr == WY then Some(r.wy)
    else if addr == WX then Some(r.wx)
    else if addr == HDMA5 then Some(0xFF)
    else None
  }

  /** `stat | STAT_MASK`. */
  function StatRead(stat: u8): (v: u8)
    ensures v >= STAT_MASK && v % 0x80 == stat % 0x80
  {
    StatOr(stat);
    DivUnique(stat % 0x80 + 0x80, 0x80, 1, stat % 0x80);
    Or(stat, STAT_MASK)
  }

  /** Setting bit 7 of a byte adds 0x80 when it was clear and changes nothing when it was set. */
  lemma StatOr(stat: u8)
    ensures Or(stat, 0x80) == stat % 0x80 + 0x80
  {
    var lo := stat % 0x80;
    SmallPow2(7);
    OrDisjoint(lo, 0x80, 1, 7);
    if stat >= 0x80 {
      assert stat == Or(lo, 0x80);
      OrIdempotent(lo, 0x80);
    } else {
      assert stat == lo;
    }
  }

  /** `mapped_areas`: VRAM, LCDC..LYC, BGP..WX, VBK, HDMA1..HDMA5, BGPI/BGPD, OBPI/OBPD and OAM. */
  function LcdAreas(): (r: seq<MappedArea>)
    ensures |r| == 8 && AllFit(r)
    ensures forall a :: 0 <= a < MEMORY_SIZE ==> (AnyCovers(r, a) <==>
      (VRAM_START <= a <= VRAM_END || LCDC <= a <= LYC || BGP <= a <= WX || a == VBK || HDMA1 <= a <= HDMA5
       || BGPI <= a <= BGPD || OBPI <= a <= OBPD || OAM_START <= a <= OAM_END))
  {
    var r := [MappedArea(VRAM_START, VRAM_SIZE), MappedArea(LCDC, (LYC - LCDC + 1) as nat),
              MappedArea(BGP, (WX - BGP + 1) as nat), MappedArea(VBK, 1), MappedArea(HDMA1, 5),
              MappedArea(BGPI, 2), MappedArea(OBPI, 2), MappedArea(OAM_START, OAM_SIZE)];
    assert forall a :: (0 <= a < MEMORY_SIZE && (VRAM_START <= a <= VRAM_END || LCDC <= a <= LYC || BGP <= a <= WX
       || a == VBK || HDMA1 <= a <= HDMA5 || BGPI <= a <= BGPD || OBPI <= a <= OBPD || OAM_START <= a <= OAM_END)
       ==> AnyCovers(r, a)) by {
      forall a | 0 <= a < MEMORY_SIZE && (VRAM_START <= a <= VRAM_END || LCDC <= a <= LYC || BGP <= a <= WX
         || a == VBK || HDMA1 <= a <= HDMA5 || BGPI <= a <= BGPD || OBPI <= a <= OBPD || OAM_START <= a <= OAM_END)
        ensures AnyCovers(r, a)
      {
        if VRAM_START <= a <= VRAM_END { assert Covers(r[0], a); }
        else if LCDC <= a <= LYC { assert Covers(r[1], a); }
        else if BGP <= a <= WX { assert Covers(r[2], a); }
        else if a == VBK { assert Covers(r[3], a); }
        else if HDMA1 <= a <= HDMA5 { assert Covers(r[4], a); }
        else if BGPI <= a <= BGPD { assert Covers(r[5], a); }
        else if OBPI <= a <= OBPD { assert Covers(r[6], a); }
        else { assert Covers(r[7], a); }
      }
    }
    r
  }

  // ---------------------------------------------------------------------
  // The controller

  class LcdController {
    const vram0: array<u8>
    const vram1: array<u8>
    const oam: array<u8>
    var vramBank: VramBank
    var lcdc: u8
    var stat: u8
    var scy: u8
    var scx: u8
    var ly: u8
    var lyc: u8
    var bgp: u8
    var obp0: u8
    var obp1: u8
    var wy: u8
    var wx: u8
    var bgPalette: Palette
    var ob0Palette: Palette
    var ob1Palette: Palette
    var state: State
    var mode: Mode
    var vramDmaSrc: u16
    var vramDmaDst: u16

    function Model(): Regs
      reads this, state
    {
      Regs(lcdc, stat, scy, scx, ly, lyc, bgp, obp0, obp1, wy, wx, vramBank, mode, vramDmaSrc, vramDmaDst, state.Model())
    }

    /** The arrays have their sizes and are distinct, the palettes follow their registers, and the registers keep `GoodRegs`. */
    ghost predicate Valid()
      reads this, state
    {
      vram0.Length == VRAM_SIZE && vram1.Length == VRAM_SIZE && oam.Length == OAM_SIZE
      && vram0 != vram1
      && bgPalette == Palette(bgp) && ob0Palette == Palette(obp0) && ob1Palette == Palette(obp1)
      && GoodRegs(Model())
    }

    /** The VRAM bank VBK selects. */
    function Vram(): array<u8>
      reads this
    {
      match vramBank
      case Bank0 => vram0
      case Bank1 => vram1
    }

    /** `LcdController::new`. */
    constructor ()
      ensures Valid() && Model() == InitRegs()
      ensures fresh(vram0) && fresh(vram1) && fresh(oam) && fresh(state)
      ensures vram0[..] == seq(VRAM_SIZE, _ => 0) && vram1[..] == seq(VRAM_SIZE, _ => 0) && oam[..] == seq(OAM_SIZE, _ => 0)
    {
      vram0 := new u8[VRAM_SIZE](_ => 0);
      vram1 := new u8[VRAM_SIZE](_ => 0);
      vramBank := Bank0;
      oam := new u8[OAM_SIZE](_ => 0);
      lcdc := 0x91;
      stat, scy, scx, ly, lyc, bgp, obp0, obp1, wy, wx := 0, 0, 0, 0, 0, 0, 0, 0, 0, 0;
      bgPalette, ob0Palette, ob1Palette := Palette(0), Palette(0), Palette(0);
      state := new State();
      mode := CGB;
      vramDmaSrc, vramDmaDst := 0, 0;
    }

    /** `set_mode`. */
    method SetMode(m: Mode)
      requires Valid()
      modifies this
      ensures Valid() && Model() == old(Model()).(mode := m)
      ensures state == old(state)
    {
      mode := m;
    }

    /** `vram_dma_source`: the HDMA source address, 16-byte aligned. */
    function VramDmaSource(): (a: u16)
      requires Valid()
      reads this, state
      ensures a == Model().vramDmaSrc && a % 16 == 0
    {
      vramDmaSrc
    }

    /**
     * `tick(clocks)`: the loop that runs the state machine until the clocks
     * are used up, then the STAT update and the interrupts of the new
     * period, as `TickRegs` states.
     */
    method Tick(clocks: nat) returns (fired: seq<Interrupts.Interrupt>)
      requires Valid()
      modifies this, state
      ensures Valid() && (Model(), fired) == TickRegs(old(Model()), clocks)
      ensures state == old(state)
    {
      TickRegsFacts(Model(), clocks);
      if !DisplayEnabled(lcdc) {
        return [];
      }
      var origPeriod := state.period;
      var clocksLeft: nat := clocks;
      while clocksLeft > 0
        invariant RunState(state.Model(), clocksLeft) == RunState(old(state.Model()), clocks)
        invariant ly == state.ly
        invariant state == old(state)
        invariant unchanged(`vramBank, `lcdc, `stat, `scy, `scx, `lyc, `bgp, `obp0, `obp1, `wy, `wx)
        invariant unchanged(`bgPalette, `ob0Palette, `ob1Palette, `mode, `vramDmaSrc, `vramDmaDst)
        decreases clocksLeft, if state.clocksLeft == 0 then 1 else 0
      {
        clocksLeft := state.Tick(clocksLeft);
        ly := state.ly;
      }
      fired := [];
      if origPeriod != state.period {
        var coincidence := ly == lyc;
        stat := NewStat(stat, coincidence, state.period);
        fired := PeriodInterrupts(state.period, stat, coincidence);
      }
    }

    /** `dma(data)`: OAM takes the 160 bytes; data of another length makes the source panic. */
    method Dma(data: seq<u8>) returns (ok: bool)
      requires Valid()
      modifies oam
      ensures ok <==> |data| == OAM_SIZE
      ensures ok ==> oam[..] == data
      ensures !ok ==> oam[..] == old(oam[..])
    {
      if |data| != OAM_SIZE {
        return false;
      }
      for i := 0 to OAM_SIZE
        invariant forall k :: 0 <= k < i ==> oam[k] == data[k]
      {
        oam[i] := data[i];
      }
      ok := true;
    }

    /**
     * `vram_dma(data)`: the bytes go to the selected bank from the HDMA
     * destination on; data that runs past the bank makes the source panic.
     */
    method VramDma(data: seq<u8>) returns (ok: bool)
      requires Valid()
      modifies vram0, vram1
      ensures ok <==> vramDmaDst + |data| <= VRAM_SIZE
      ensures ok ==> forall k :: 0 <= k < VRAM_SIZE ==>
        Vram()[k] == if vramDmaDst <= k < vramDmaDst + |data| then data[k - vramDmaDst] else old(Vram()[k])
      ensures ok ==> (vramBank == Bank0 ==> vram1[..] == old(vram1[..])) && (vramBank == Bank1 ==> vram0[..] == old(vram0[..]))
      ensures !ok ==> vram0[..] == old(vram0[..]) && vram1[..] == old(vram1[..])
    {
      var offset := vramDmaDst as nat;
      if offset + |data| > VRAM_SIZE {
        return false;
      }
      var bank := Vram();
      for i := 0 to |data|
        invariant forall k :: 0 <= k < VRAM_SIZE ==> bank[k] == if offset <= k < offset + i then data[k - offset] else old(bank[k])
        invariant vramBank == Bank0 ==> vram1[..] == old(vram1[..])
        invariant vramBank == Bank1 ==> vram0[..] == old(vram0[..])
      {
        bank[offset + i] := data[i];
      }
      ok := true;
    }

    /** `get8`: VRAM from the selected bank, and the readable registers; `None` where the source panics. */
    function Get8(addr: u16): (r: Option<u8>)
      requires Valid()
      reads this, state, vram0, vram1
      ensures VRAM_START <= addr <= VRAM_END ==> r == Some(Vram()[addr - VRAM_START])
      ensures !(VRAM_START <= addr <= VRAM_END) ==> r == ReadReg(Model(), addr)
    {
      if VRAM_START <= addr <= VRAM_END then Some(Vram()[addr - VRAM_START])
      else ReadReg(Model(), addr)
    }

    /**
     * `set8`: VRAM in the selected bank, OAM, and the registers as
     * `WriteReg` states; `ok` is false where the source panics.
     */
    method Set8(addr: u16, byte: u8) returns (ok: bool)
      requires Valid()
      modifies this, vram0, vram1, oam
      ensures Valid()
      ensures VRAM_START <= addr <= VRAM_END ==> (ok && Model() == old(Model())
        && Vram()[..] == old(Vram()[..])[addr - VRAM_START := byte] && Get8(addr) == Some(byte))
      ensures OAM_START <= addr <= OAM_END ==> (ok && Model() == old(Model()) && oam[..] == old(oam[..])[addr - OAM_START := byte])
      ensures !(VRAM_START <= addr <= VRAM_END) && !(OAM_START <= addr <= OAM_END) ==>
        ((ok <==> WriteReg(old(Model()), addr, byte).Some?) && (ok ==> Model() == WriteReg(old(Model()), addr, byte).value))
      ensures !(VRAM_START <= addr <= VRAM_END) ==> vram0[..] == old(vram0[..]) && vram1[..] == old(vram1[..])
      ensures !(OAM_START <= addr <= OAM_END) ==> oam[..] == old(oam[..])
    {
      if VRAM_START <= addr <= VRAM_END {
        Vram()[addr - VRAM_START] := byte;
        ok := true;
      } else if OAM_START <= addr <= OAM_END {
        oam[addr - OAM_START] := byte;
        ok := true;
      } else {
        ok := SetReg(addr, byte);
      }
    }

    /** The register part of `set8`. */
    method SetReg(addr: u16, byte: u8) returns (ok: bool)
      requires Valid()
      modifies this
      ensures Valid()
      ensures ok <==> WriteReg(old(Model()), addr, byte).Some?
      ensures ok ==> Model() == WriteReg(old(Model()), addr, byte).value
    {
      ok := true;
      if IsControlReg(addr) {
        SetControl(addr, byte);
      } else if IsPaletteReg(addr) {
        SetPalette(addr, byte);
      } else if IsPositionReg(addr) {
        SetPosition(addr, byte);
      } else if IsHdmaReg(addr) {
        SetHdma(addr, byte);
      } else {
        ok := false;
      }
    }

    method SetControl(addr: u16, byte: u8)
      requires Valid() && IsControlReg(addr)
      modifies this
      ensures Valid() && Model() == WriteControl(old(Model()), addr, byte)
    {
      if addr == VBK {
        vramBank := if Bit(byte, 0) == 0 then Bank0 else Bank1;
      } else if addr == LCDC {
        var displayWasEnabled := DisplayEnabled(lcdc);
        lcdc := byte;
        if displayWasEnabled && !DisplayEnabled(lcdc) {
          ly := 0;
          state := new State();
        }
      } else {
        stat := (stat % 8) + ((byte / 8) % 16) * 8;
      }
    }

    method SetPalette(addr: u16, byte: u8)
      requires Valid() && IsPaletteReg(addr)
      modifies this
      ensures Valid() && Model() == WritePalette(old(Model()), addr, byte)
      ensures state == old(state)
    {
      if addr == BGP {
        bgp := byte;
        bgPalette := Palette(byte);
      } else if addr == OBP0 {
        obp0 := byte;
        ob0Palette := Palette(byte);
      } else if addr == OBP1 {
        obp1 := byte;
        ob1Palette := Palette(byte);
      }
    }

    method SetPosition(addr: u16, byte: u8)
      requires Valid() && IsPositionReg(addr)
      modifies this
      ensures Valid() && Model() == WritePosition(old(Model()), addr, byte)
      ensures state == old(state)
    {
      if addr == SCY {
        scy := byte;
      } else if addr == SCX {
        scx := byte;
      } else if addr == LYC {
        lyc := byte;
      } else if addr == WX {
        wx := byte;
      } else {
        wy := byte;
      }
    }

    method SetHdma(addr: u16, byte: u8)
      requires Valid() && IsHdmaReg(addr)
      modifies this
      ensures Valid() && Model() == WriteHdma(old(Model()), addr, byte)
      ensures state == old(state)
    {
      WriteHdmaGood(Model(), addr, byte);
      if addr == HDMA1 {
        vramDmaSrc := byte * 0x100 + ((vramDmaSrc % 0x100) / 16) * 16;
      } else if addr == HDMA2 {
        vramDmaSrc := (vramDmaSrc / 0x100) * 0x100 + (byte / 16) * 16;
      } else if addr == HDMA3 {
        vramDmaDst := (byte % 0x20) * 0x100 + ((vramDmaDst % 0x100) / 16) * 16;
      } else {
        vramDmaDst := ((vramDmaDst / 0x100) % 0x20) * 0x100 + (byte / 16) * 16;
      }
    }
  }
}
