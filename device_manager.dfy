/**
 * The device manager (src/memory/memory_map.rs): one optional slot per
 * device id, filled by the `set_*` methods.  A getter on an empty slot
 * panics, which the model reports as `None`; the `Ignore` id always names
 * the null device, which reads 0xFF and drops writes.
 *
 * The sound controller (src/sound/controller.rs) is not part of this
 * model; its slot holds a stand-in object without state.
 */
module DeviceManagers {
  import opened Bits
  import opened Wrappers
  import opened Hardware
  import opened Mapping
  import opened RamRom
  import opened GameCartridge
  import opened Interrupts
  import opened Timers
  import opened SerialPort
  import opened Joypad
  import opened Lcd

  /** `NullDevice`: the device behind `Ignore`. */
  class NullDevice {
    constructor ()
    {
    }

    /** `get8`: every read gives 0xFF. */
    function Get8(addr: u16): (b: u8)
      ensures b == NullGet8(addr) && b == 0xFF
    {
      NullGet8(addr)
    }

    /** `set8`: the write is dropped; the null device has no state to change. */
    method Set8(addr: u16, byte: u8)
      ensures Get8(addr) == 0xFF
    {
    }
  }

  /** Stand-in for the sound controller, whose registers are not modelled. */
  class SoundController {
    constructor ()
    {
    }
  }

  /** The contents of the device manager's slots, as a value. */
  datatype SlotTable = SlotTable(
    cartridge: Cartridge?, ramBank0: RamDevice?, ramBank1: RamDevice?, interrupt: InterruptController?,
    joypad: JoypadController?, timer: TimerController?, lcd: LcdController?, sound: SoundController?,
    serial: SerialController?, hram: RamDevice?)

  class DeviceManager {
    var cartridge: Cartridge?
    var ramBank0: RamDevice?
    var ramBank1: RamDevice?
    var interrupt: InterruptController?
    var joypad: JoypadController?
    var timer: TimerController?
    var lcd: LcdController?
    var sound: SoundController?
    var serial: SerialController?
    var hram: RamDevice?
    const ignore: NullDevice

    function Table(): SlotTable
      reads this
    {
      SlotTable(cartridge, ramBank0, ramBank1, interrupt, joypad, timer, lcd, sound, serial, hram)
    }

    /** Whether the getter for `id` succeeds: its slot is filled, or `id` is `Ignore`. */
    predicate Filled(id: DeviceId)
      reads this
    {
      match id
      case Cartridge => cartridge != null
      case RAMBank0 => ramBank0 != null
      case RAMBank1 => ramBank1 != null
      case Timer => timer != null
      case LCD => lcd != null
      case Sound => sound != null
      case Interrupt => interrupt != null
      case Joypad => joypad != null
      case Serial => serial != null
      case HRAM => hram != null
      case Ignore => true
    }

    /** `new`: every slot empty. */
    constructor ()
      ensures forall id :: Filled(id) <==> id == Ignore
      ensures Table() == SlotTable(null, null, null, null, null, null, null, null, null, null)
    {
      cartridge, ramBank0, ramBank1, interrupt, joypad, timer, lcd, sound, serial, hram :=
        null, null, null, null, null, null, null, null, null, null;
      ignore := new NullDevice();
    }

    /**
     * `get(id)`: the device in the slot `id` names, or the null device for
     * `Ignore`; `None` where the slot is empty and the getter panics.
     */
    function Get(id: DeviceId): (r: Option<object>)
      reads this
      ensures r.Some? <==> Filled(id)
      ensures id == Ignore ==> r == Some(ignore as object)
      ensures id == Cartridge && r.Some? ==> r.value == cartridge
      ensures id == RAMBank0 && r.Some? ==> r.value == ramBank0
      ensures id == RAMBank1 && r.Some? ==> r.value == ramBank1
      ensures id == DeviceId.Timer && r.Some? ==> r.value == timer
      ensures id == LCD && r.Some? ==> r.value == lcd
      ensures id == Sound && r.Some? ==> r.value == sound
      ensures id == Interrupt && r.Some? ==> r.value == interrupt
      ensures id == DeviceId.Joypad && r.Some? ==> r.value == joypad
      ensures id == DeviceId.Serial && r.Some? ==> r.value == serial
      ensures id == HRAM && r.Some? ==> r.value == hram
    {
      match id
      case Cartridge => if cartridge == null then None else Some(cartridge as object)
      case RAMBank0 => if ramBank0 == null then None else Some(ramBank0 as object)
      case RAMBank1 => if ramBank1 == null then None else Some(ramBank1 as object)
      case Timer => if timer == null then None else Some(timer as object)
      case LCD => if lcd == null then None else Some(lcd as object)
      case Sound => if sound == null then None else Some(sound as object)
      case Interrupt => if interrupt == null then None else Some(interrupt as object)
      case Joypad => if joypad == null then None else Some(joypad as object)
      case Serial => if serial == null then None else Some(serial as object)
      case HRAM => if hram == null then None else Some(hram as object)
      case Ignore => Some(ignore as object)
    }

    // Each `set_*` fills its own slot and leaves every other slot as it was.

    method SetRamBank0(d: RamDevice)
      modifies this
      ensures Table() == old(Table()).(ramBank0 := d)
    {
      ramBank0 := d;
    }

    method SetRamBank1(d: RamDevice)
      modifies this
      ensures Table() == old(Table()).(ramBank1 := d)
    {
      ramBank1 := d;
    }

    method SetHram(d: RamDevice)
      modifies this
      ensures Table() == old(Table()).(hram := d)
    {
      hram := d;
    }

    method SetInterruptController(d: InterruptController)
      modifies this
      ensures Table() == old(Table()).(interrupt := d)
    {
      interrupt := d;
    }

    method SetJoypadController(d: JoypadController)
      modifies this
      ensures Table() == old(Table()).(joypad := d)
    {
      joypad := d;
    }

    method SetTimer(d: TimerController)
      modifies this
      ensures Table() == old(Table()).(timer := d)
    {
      timer := d;
    }

    method SetLcdController(d: LcdController)
      modifies this
      ensures Table() == old(Table()).(lcd := d)
    {
      lcd := d;
    }

    /** `set_sound_controller`. */
    method SetSoundController(d: SoundController)
      modifies this
      ensures Table() == old(Table()).(sound := d)
    {
      sound := d;
    }

    method SetSerialController(d: SerialController)
      modifies this
      ensures Table() == old(Table()).(serial := d)
    {
      serial := d;
    }

    /**
     * `set_cartridge`: a cartridge that is not CGB-compatible first switches
     * the LCD to DMG mode, which panics when there is no LCD; the cartridge
     * then fills its slot.  `cgb_compatible` is not among the cartridge's
     * methods in the files modelled here, so it is a parameter.
     */
    method SetCartridge(c: Cartridge, cgbCompatible: bool) returns (ok: bool)
      requires lcd != null ==> lcd.Valid()
      modifies this, lcd
      ensures ok <==> cgbCompatible || lcd != null
      ensures ok ==> Table() == old(Table()).(cartridge := c)
      ensures !ok ==> Table() == old(Table())
      ensures lcd != null ==> lcd.Valid() && lcd.state == old(lcd.state)
      ensures lcd != null && !cgbCompatible ==> lcd.Model() == old(lcd.Model()).(mode := DMG)
      ensures lcd != null && cgbCompatible ==> lcd.Model() == old(lcd.Model())
    {
      if !cgbCompatible {
        if lcd == null {
          return false;
        }
        lcd.SetMode(DMG);
      }
      cartridge := c;
      ok := true;
    }
  }
}
