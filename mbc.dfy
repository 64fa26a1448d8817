/**
 * The memory bank controllers (src/cartridge/mbc.rs).  `RomOnly` has one
 * fixed ROM bank and an 8K RAM bank it only reads.  `Mbc1` keeps a 5-bit
 * and a 2-bit bank register, a RAM-enable latch, a banking mode and 32K of
 * RAM seen through an 8K window at 0xA000-0xBFFF.
 */
module Mbc {
  import opened Bits
  import opened Wrappers

  const RAM_WINDOW: u16 := 0xA000
  const RAM_WINDOW_END: u16 := 0xBFFF
  const ROM_ONLY_RAM_SIZE: nat := 0x2000
  const MBC1_RAM_SIZE: nat := 0x8000

  datatype MbcType = RomOnlyType | Mbc1Type

  /** The banking mode of MBC1, chosen by bit 0 of a write to 0x6000-0x7FFF. */
  datatype BankMode = RomMode | RamMode

  predicate InRamWindow(addr: u16)
  {
    RAM_WINDOW <= addr <= RAM_WINDOW_END
  }

  /** `byte & 0x0A == 0x0A`: bits 1 and 3 of the byte are both set. */
  function LatchOn(byte: u8): (r: bool)
    ensures r <==> Bit(byte, 1) == 1 && Bit(byte, 3) == 1
  {
    MaskedLatch(byte);
    And(byte, 0x0A) == 0x0A
  }

  lemma MaskedLatch(byte: u8)
    ensures And(byte, 0x0A) == 0x0A <==> Bit(byte, 1) == 1 && Bit(byte, 3) == 1
  {
    var x, y, z := byte / 2, byte / 4, byte / 8;
    AndOne(z);
    assert And(y, 2) == 2 * And(z, 1) by {
      DivDiv(byte, 4, 2);
    }
    assert And(x, 5) == 2 * And(y, 2) + x % 2 by {
      DivDiv(byte, 2, 2);
    }
    assert And(byte, 0x0A) == 2 * And(x, 5);
    assert And(byte, 0x0A) == 8 * (z % 2) + 2 * (x % 2);
    BitShr(byte, 1, 0);
    BitShr(byte, 3, 0);
    SmallPow2(1);
    SmallPow2(3);
  }

  /**
   * `rom_bank_num` of MBC1 as written: in ROM mode `(two_bit_reg << 6) |
   * five_bit_reg`, one higher where that is 0x00, 0x20, 0x40 or 0x60; in
   * RAM mode 1.
   */
  function RomBankAsWritten(mode: BankMode, twoBitReg: u8, fiveBitReg: u8): (r: u8)
    requires twoBitReg < 4 && fiveBitReg < 32
    ensures r != 0
    ensures mode == RamMode ==> r == 1
    ensures mode == RomMode && fiveBitReg != 0 ==> r == twoBitReg * 64 + fiveBitReg
    ensures mode == RomMode && fiveBitReg == 0 ==> r == twoBitReg * 64 + (if twoBitReg < 2 then 1 else 0)
  {
    match mode
    case RomMode =>
      SmallPow2(6);
      OrDisjoint(fiveBitReg, twoBitReg * 64, twoBitReg, 6);
      var n := Or(twoBitReg * 64, fiveBitReg);
      if n == 0x00 || n == 0x20 || n == 0x40 || n == 0x60 then n + 1 else n
    case RamMode => 1
  }

  /**
   * The bank MBC1 selects when the 2-bit register supplies bits 5 and 6 of
   * the bank number, `(two_bit_reg << 5) | five_bit_reg`, with the same
   * adjustment for 0x00, 0x20, 0x40 and 0x60.
   */
  function RomBankIntended(mode: BankMode, twoBitReg: u8, fiveBitReg: u8): (r: u8)
    requires twoBitReg < 4 && fiveBitReg < 32
    ensures mode == RamMode ==> r == 1
    ensures mode == RomMode ==> r == twoBitReg * 32 + (if fiveBitReg == 0 then 1 else fiveBitReg)
  {
    match mode
    case RomMode =>
      SmallPow2(5);
      OrDisjoint(fiveBitReg, twoBitReg * 32, twoBitReg, 5);
      var n := Or(twoBitReg * 32, fiveBitReg);
      if n == 0x00 || n == 0x20 || n == 0x40 || n == 0x60 then n + 1 else n
    case RamMode => 1
  }

  /**
   * With bits 5-6 from the 2-bit register the selected bank is one of the
   * 128 an MBC1 can address, never 0x00, 0x20, 0x40 or 0x60; its low five
   * bits are the 5-bit register (one where that is 0) and bits 5-6 are the
   * 2-bit register.
   */
  lemma RomBankIntendedRange(twoBitReg: u8, fiveBitReg: u8)
    requires twoBitReg < 4 && fiveBitReg < 32
    ensures var r := RomBankIntended(RomMode, twoBitReg, fiveBitReg);
      1 <= r < 0x80 && r != 0x20 && r != 0x40 && r != 0x60
      && r / 32 == twoBitReg && r % 32 == (if fiveBitReg == 0 then 1 else fiveBitReg)
  {
    var r := RomBankIntended(RomMode, twoBitReg, fiveBitReg);
    DivUnique(r, 32, twoBitReg, if fiveBitReg == 0 then 1 else fiveBitReg);
  }

  /**
   * Every bank from 1 to 0x7F except 0x20, 0x40 and 0x60 is reached by some
   * setting of the two registers.
   */
  lemma RomBankIntendedOnto(bank: nat)
    requires 1 <= bank < 0x80 && bank != 0x20 && bank != 0x40 && bank != 0x60
    ensures RomBankIntended(RomMode, bank / 32, bank % 32) == bank
  {
  }

  /**
   * As written, with `<< 6`: no setting of the registers selects bank 0x21;
   * registers (1, 1) select bank 0x41 where the 2-bit register as bits 5-6
   * selects 0x21, and registers (2, 1) select 0x81, past the 128 banks an
   * MBC1 addresses.
   */
  lemma RomBankAsWrittenDiffers()
    ensures forall two: u8, five: u8 :: two < 4 && five < 32 ==> RomBankAsWritten(RomMode, two, five) != 0x21
    ensures RomBankAsWritten(RomMode, 1, 1) == 0x41 && RomBankIntended(RomMode, 1, 1) == 0x21
    ensures RomBankAsWritten(RomMode, 2, 1) == 0x81
  {
  }

  /**
   * The bank as written and the intended bank agree exactly when the 2-bit
   * register is 0, and in RAM mode.
   */
  lemma RomBankAgreement(mode: BankMode, twoBitReg: u8, fiveBitReg: u8)
    requires twoBitReg < 4 && fiveBitReg < 32
    ensures RomBankAsWritten(mode, twoBitReg, fiveBitReg) == RomBankIntended(mode, twoBitReg, fiveBitReg)
      <==> mode == RamMode || twoBitReg == 0
  {
    if mode == RomMode && twoBitReg != 0 {
      var w, c := RomBankAsWritten(mode, twoBitReg, fiveBitReg), RomBankIntended(mode, twoBitReg, fiveBitReg);
      assert c < twoBitReg * 64 <= w;
    }
  }

  /** The start of the selected RAM bank: 0 in ROM mode, `two_bit_reg * 0x2000` in RAM mode. */
  function RamBankOffset(mode: BankMode, twoBitReg: u8): (r: nat)
    requires twoBitReg < 4
    ensures r % 0x2000 == 0 && r + 0x1FFF < MBC1_RAM_SIZE
    ensures mode == RomMode ==> r == 0
  {
    match mode
    case RomMode => 0
    case RamMode => twoBitReg * 0x2000
  }

  class RomOnly {
    const ramBank: array<u8>

    constructor ()
      ensures fresh(ramBank) && ramBank[..] == seq(ROM_ONLY_RAM_SIZE, _ => 0)
    {
      ramBank := new u8[ROM_ONLY_RAM_SIZE](_ => 0);
    }

    /** `rom_bank_num`: always bank 1. */
    function RomBankNum(): (r: u8)
      ensures r == 1
    {
      1
    }

    /**
     * `get8`: the RAM byte at `addr - 0xA000`; `None` below 0xA000, where
     * the subtraction underflows, and past the 8K bank.
     */
    function Get8(addr: u16): (r: Option<u8>)
      reads this, ramBank
      ensures r.Some? <==> RAM_WINDOW <= addr && addr - RAM_WINDOW < ramBank.Length
      ensures r.Some? ==> r.value == ramBank[addr - RAM_WINDOW]
    {
      if RAM_WINDOW <= addr && addr - RAM_WINDOW < ramBank.Length then Some(ramBank[addr - RAM_WINDOW]) else None
    }

    /** `set8` writes nothing: every read gives what it gave before. */
    method Set8(addr: u16, byte: u8)
      ensures forall a: u16 :: Get8(a) == old(Get8(a))
    {
    }

    function Type(): (t: MbcType)
      ensures t == RomOnlyType
    {
      RomOnlyType
    }
  }

  class Mbc1 {
    var fiveBitReg: u8
    var twoBitReg: u8
    var ramBankEnabled: bool
    var mode: BankMode
    const ram: array<u8>

    ghost predicate Valid()
      reads this
    {
      fiveBitReg < 32 && twoBitReg < 4 && ram.Length == MBC1_RAM_SIZE
    }

    constructor ()
      ensures Valid() && fresh(ram)
      ensures fiveBitReg == 0 && twoBitReg == 0 && !ramBankEnabled && mode == RomMode
      ensures ram[..] == seq(MBC1_RAM_SIZE, _ => 0)
    {
      fiveBitReg, twoBitReg, ramBankEnabled, mode := 0, 0, false, RomMode;
      ram := new u8[MBC1_RAM_SIZE](_ => 0);
    }

    /**
     * `rom_bank_num` as the source computes it, with the 2-bit register
     * shifted left by 6 (see `RomBankAsWrittenDiffers`).
     */
    function RomBankNum(): (r: u8)
      requires Valid()
      reads this
      ensures r != 0
      ensures mode == RamMode ==> r == 1
      ensures mode == RomMode ==> r / 64 == twoBitReg && r % 64 == (if fiveBitReg == 0 && twoBitReg < 2 then 1 else fiveBitReg)
    {
      var r := RomBankAsWritten(mode, twoBitReg, fiveBitReg);
      if mode == RomMode then
        DivUnique(r, 64, twoBitReg, if fiveBitReg == 0 && twoBitReg < 2 then 1 else fiveBitReg);
        r
      else
        r
    }

    /**
     * `get8`: the byte at `ram_bank_offset() + addr - 0xA000`; `None` where
     * that index underflows or runs past the RAM.  Every address of the
     * window is in bounds.
     */
    function Get8(addr: u16): (r: Option<u8>)
      requires Valid()
      reads this, ram
      ensures InRamWindow(addr) ==> r == Some(ram[RamBankOffset(mode, twoBitReg) + addr - RAM_WINDOW])
      ensures addr < RAM_WINDOW && mode == RomMode ==> r.None?
    {
      var i := RamBankOffset(mode, twoBitReg) + addr - RAM_WINDOW;
      if 0 <= i < ram.Length then Some(ram[i]) else None
    }

    /**
     * `set8`: the latch, the two bank registers and the mode take their bits
     * of the byte; a window write stores the byte in the selected RAM bank.
     * `ok` is false, and nothing changes, at the addresses where the source
     * panics.
     */
    method Set8(addr: u16, byte: u8) returns (ok: bool)
      requires Valid()
      modifies this, ram
      ensures Valid()
      ensures ok <==> addr <= 0x7FFF || InRamWindow(addr)
      ensures ramBankEnabled == if addr <= 0x1FFF then LatchOn(byte) else old(ramBankEnabled)
      ensures fiveBitReg == if 0x2000 <= addr <= 0x3FFF then byte % 32 else old(fiveBitReg)
      ensures twoBitReg == if 0x4000 <= addr <= 0x5FFF then byte % 4 else old(twoBitReg)
      ensures mode == if 0x6000 <= addr <= 0x7FFF then (if byte % 2 == 0 then RomMode else RamMode) else old(mode)
      ensures InRamWindow(addr) ==> ram[..] == old(ram[..])[RamBankOffset(mode, twoBitReg) + addr - RAM_WINDOW := byte]
      ensures !InRamWindow(addr) ==> ram[..] == old(ram[..])
    {
      if addr <= 0x1FFF {
        ramBankEnabled := LatchOn(byte);
      } else if addr <= 0x3FFF {
        fiveBitReg := byte % 32;
      } else if addr <= 0x5FFF {
        twoBitReg := byte % 4;
      } else if addr <= 0x7FFF {
        mode := if byte % 2 == 0 then RomMode else RamMode;
      } else if InRamWindow(addr) {
        ram[RamBankOffset(mode, twoBitReg) + addr - RAM_WINDOW] := byte;
      } else {
        return false;
      }
      ok := true;
    }

    function Type(): (t: MbcType)
      ensures t == Mbc1Type
    {
      Mbc1Type
    }
  }

  /**
   * With the mode and the 2-bit register unchanged, a window write followed
   * by a read at the same address returns the byte, and the other window
   * addresses keep their bytes.
   */
  lemma WindowRoundTrip(mode: BankMode, two: u8, before: seq<u8>, after: seq<u8>, addr: u16, byte: u8)
    requires two < 4 && |before| == MBC1_RAM_SIZE && InRamWindow(addr)
    requires after == before[RamBankOffset(mode, two) + addr - RAM_WINDOW := byte]
    ensures after[RamBankOffset(mode, two) + addr - RAM_WINDOW] == byte
    ensures forall a: u16 :: InRamWindow(a) && a != addr ==>
      after[RamBankOffset(mode, two) + a - RAM_WINDOW] == before[RamBankOffset(mode, two) + a - RAM_WINDOW]
  {
  }

  /** A controller of either kind, as `build_mbc` returns it. */
  datatype Controller = RomOnlyController(romOnly: RomOnly) | Mbc1Controller(mbc1: Mbc1)

  /** `build_mbc`: type 0 is ROM only, 1 to 3 are MBC1, anything else fails. */
  method BuildMbc(byte: u8) returns (r: Option<Controller>)
    ensures r.Some? <==> byte <= 3
    ensures byte == 0 ==> r.Some? && r.value.RomOnlyController? && fresh(r.value.romOnly)
    ensures 1 <= byte <= 3 ==> r.Some? && r.value.Mbc1Controller? && fresh(r.value.mbc1) && r.value.mbc1.Valid()
  {
    if byte == 0 {
      var c := new RomOnly();
      r := Some(RomOnlyController(c));
    } else if byte <= 3 {
      var c := new Mbc1();
      r := Some(Mbc1Controller(c));
    } else {
      r := None;
    }
  }
}
