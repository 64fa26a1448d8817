/**
 * The address map that `map_devices` (src/gameboy.rs) builds: the areas
 * each device registers, in the order they are registered, and the owner
 * every address ends up with.
 */
module GameboyMap {
  import opened Bits
  import opened Wrappers
  import opened Mapping
  import GameCartridge
  import Lcd

  /** `RamDevice::new(0xC000, 0x4000)`'s area: 0xC000 to the top of memory. */
  function RamAreas(): (r: seq<MappedArea>)
    ensures AllFit(r)
    ensures forall a :: 0 <= a < MEMORY_SIZE ==> (AnyCovers(r, a) <==> 0xC000 <= a)
  {
    var r := [MappedArea(0xC000, 0x4000)];
    forall a | 0xC000 <= a < MEMORY_SIZE ensures AnyCovers(r, a) {
      assert Covers(r[0], a);
    }
    r
  }

  /** `InterruptController::mapped_areas`: IE and IF. */
  function InterruptAreas(): (r: seq<MappedArea>)
    ensures AllFit(r)
    ensures forall a :: 0 <= a < MEMORY_SIZE ==> (AnyCovers(r, a) <==> a == 0xFFFF || a == 0xFF0F)
  {
    var r := [MappedArea(0xFFFF, 1), MappedArea(0xFF0F, 1)];
    assert Covers(r[0], 0xFFFF) && Covers(r[1], 0xFF0F);
    r
  }

  /** `TimerController::mapped_areas`: DIV, TIMA, TMA and TAC. */
  function TimerAreas(): (r: seq<MappedArea>)
    ensures AllFit(r)
    ensures forall a :: 0 <= a < MEMORY_SIZE ==> (AnyCovers(r, a) <==> 0xFF04 <= a <= 0xFF07)
  {
    var r := [MappedArea(0xFF04, 4)];
    forall a | 0xFF04 <= a <= 0xFF07 ensures AnyCovers(r, a) {
      assert Covers(r[0], a);
    }
    r
  }

  /** `JoypadController::mapped_areas`: P1. */
  function JoypadAreas(): (r: seq<MappedArea>)
    ensures AllFit(r)
    ensures forall a :: 0 <= a < MEMORY_SIZE ==> (AnyCovers(r, a) <==> a == 0xFF00)
  {
    var r := [MappedArea(0xFF00, 1)];
    assert Covers(r[0], 0xFF00);
    r
  }

  /** `SerialController::mapped_areas`: SB and SC. */
  function SerialAreas(): (r: seq<MappedArea>)
    ensures AllFit(r)
    ensures forall a :: 0 <= a < MEMORY_SIZE ==> (AnyCovers(r, a) <==> a == 0xFF01 || a == 0xFF02)
  {
    var r := [MappedArea(0xFF01, 2)];
    assert Covers(r[0], 0xFF01) && Covers(r[0], 0xFF02);
    r
  }

  /** The sound registers: NR10-NR14, NR21-NR24, NR30-NR34, NR41-NR52 and the wave table. */
  predicate IsSoundAddr(a: int)
  {
    0xFF10 <= a <= 0xFF14 || 0xFF16 <= a <= 0xFF19 || 0xFF1A <= a <= 0xFF1E || 0xFF20 <= a <= 0xFF26
    || 0xFF30 <= a <= 0xFF3F
  }

  /** `SoundController::mapped_areas`. */
  function SoundAreas(): (r: seq<MappedArea>)
    ensures AllFit(r)
    ensures forall a :: 0 <= a < MEMORY_SIZE ==> (AnyCovers(r, a) <==> IsSoundAddr(a))
  {
    var r := [MappedArea(0xFF10, 5), MappedArea(0xFF16, 4), MappedArea(0xFF1A, 5), MappedArea(0xFF20, 7),
              MappedArea(0xFF30, 16)];
    assert forall a :: IsSoundAddr(a) ==> AnyCovers(r, a) by {
      forall a | IsSoundAddr(a) ensures AnyCovers(r, a) {
        if a <= 0xFF14 { assert Covers(r[0], a); }
        else if a <= 0xFF19 { assert Covers(r[1], a); }
        else if a <= 0xFF1E { assert Covers(r[2], a); }
        else if a <= 0xFF26 { assert Covers(r[3], a); }
        else { assert Covers(r[4], a); }
      }
    }
    r
  }

  /** The LCD's registers, without its VRAM and OAM. */
  predicate IsLcdReg(a: int)
  {
    0xFF40 <= a <= 0xFF45 || 0xFF47 <= a <= 0xFF4B || a == 0xFF4F || 0xFF51 <= a <= 0xFF55 || 0xFF68 <= a <= 0xFF6B
  }

  /**
   * The owner of every address after `map_devices`, as a table of ranges:
   * cartridge ROM and RAM, VRAM and OAM, the I/O registers of each device,
   * the boot-ROM switch, and work RAM for everything else from 0xC000 up.
   */
  function Owner(a: int): DeviceId
  {
    if a < 0x8000 then Cartridge
    else if a < 0xA000 then LCD
    else if a < 0xC000 then Cartridge
    else if 0xFE00 <= a < 0xFEA0 then LCD
    else if a == 0xFF00 then Joypad
    else if a == 0xFF01 || a == 0xFF02 then Serial
    else if 0xFF04 <= a <= 0xFF07 then Timer
    else if a == 0xFF0F || a == 0xFFFF then Interrupt
    else if IsSoundAddr(a) then Sound
    else if IsLcdReg(a) then LCD
    else if a == 0xFF50 then Cartridge
    else RAMBank0
  }

  /** The first two registrations: work RAM, then the cartridge. */
  function MemoryLayer(m: seq<Option<DeviceId>>): (r: seq<Option<DeviceId>>)
    requires |m| == MEMORY_SIZE
    ensures |r| == MEMORY_SIZE
  {
    Registered(Registered(m, RAMBank0, RamAreas()), Cartridge, GameCartridge.CartridgeAreas())
  }

  /** The remaining registrations, in `map_devices`' order: interrupts, timer, LCD, sound, joypad, serial. */
  function IoLayer(m: seq<Option<DeviceId>>): (r: seq<Option<DeviceId>>)
    requires |m| == MEMORY_SIZE
    ensures |r| == MEMORY_SIZE
  {
    var m3 := Registered(m, Interrupt, InterruptAreas());
    var m4 := Registered(m3, Timer, TimerAreas());
    var m5 := Registered(m4, LCD, Lcd.LcdAreas());
    var m6 := Registered(m5, Sound, SoundAreas());
    var m7 := Registered(m6, Joypad, JoypadAreas());
    Registered(m7, Serial, SerialAreas())
  }

  /** The table `map_devices` leaves, from whatever table it starts with. */
  function DeviceMap(m: seq<Option<DeviceId>>): (r: seq<Option<DeviceId>>)
    requires |m| == MEMORY_SIZE
    ensures |r| == MEMORY_SIZE
  {
    IoLayer(MemoryLayer(m))
  }

  /** After work RAM and the cartridge, everything but VRAM has an owner: ROM and cartridge RAM, 0xFF50, or work RAM. */
  lemma MemoryLayerOwners(m: seq<Option<DeviceId>>, a: nat)
    requires |m| == MEMORY_SIZE && a < MEMORY_SIZE
    ensures MemoryLayer(m)[a] ==
      if a < 0x8000 || 0xA000 <= a < 0xC000 || a == 0xFF50 then Some(Cartridge)
      else if 0xC000 <= a then Some(RAMBank0)
      else m[a]
  {
  }

  /** The I/O registrations give each of their addresses to their device and leave the rest alone. */
  lemma IoLayerOwners(m: seq<Option<DeviceId>>, a: nat)
    requires |m| == MEMORY_SIZE && a < MEMORY_SIZE
    ensures IoLayer(m)[a] ==
      if a == 0xFF01 || a == 0xFF02 then Some(Serial)
      else if a == 0xFF00 then Some(Joypad)
      else if IsSoundAddr(a) then Some(Sound)
      else if 0x8000 <= a < 0xA000 || 0xFE00 <= a < 0xFEA0 || IsLcdReg(a) then Some(LCD)
      else if 0xFF04 <= a <= 0xFF07 then Some(Timer)
      else if a == 0xFF0F || a == 0xFFFF then Some(Interrupt)
      else m[a]
  {
  }

  /**
   * Whatever table it starts from, `map_devices` leaves every address with
   * the owner the range table names: the registrations together cover all
   * of memory, and the I/O devices registered after work RAM win in the
   * I/O page.
   */
  lemma DeviceMapOwners(m: seq<Option<DeviceId>>, a: nat)
    requires |m| == MEMORY_SIZE && a < MEMORY_SIZE
    ensures DeviceMap(m)[a] == Some(Owner(a))
  {
    MemoryLayerOwners(m, a);
    IoLayerOwners(MemoryLayer(m), a);
  }

  /** Every address has an owner, so no `get_id` panics after `map_devices`. */
  lemma DeviceMapTotal(m: seq<Option<DeviceId>>)
    requires |m| == MEMORY_SIZE
    ensures forall a :: 0 <= a < MEMORY_SIZE ==> DeviceMap(m)[a].Some?
  {
    forall a | 0 <= a < MEMORY_SIZE ensures DeviceMap(m)[a].Some? {
      DeviceMapOwners(m, a);
    }
  }
}
