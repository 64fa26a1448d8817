/**
 * The cartridge (src/cartridge/cartridge.rs): the 32K of ROM banks 0 and 1
 * and an 8K RAM bank.  The first 256 bytes of ROM are overlaid by the boot
 * ROM until the boot ROM is cleared, by a write to 0xFF50 or before booting
 * without it.
 *
 * The cartridge file and the boot ROM image are read from disk in the
 * source; here they are the byte sequences the constructor is given.
 */
module GameCartridge {
  import opened Bits
  import opened Wrappers
  import opened Mapping

  const ROM_BANK0_SIZE: nat := 0x4000
  const ROM_BANK1_SIZE: nat := 0x4000
  const ROM_BANKS_SIZE: nat := ROM_BANK0_SIZE + ROM_BANK1_SIZE
  const RAM_BANK0_SIZE: nat := 0x2000
  const BOOT_ROM_SIZE: nat := 0x100
  const BOOT_OFF: u16 := 0xFF50
  /** The header byte naming the cartridge type. */
  const TYPE_BYTE: nat := 0x147

  /** The cartridge types of the header, with their codes. */
  datatype CartridgeType = RomOnly | Mbc1 | Mbc1Ram | Mbc1RamBattery | Mbc2

  function TypeCode(t: CartridgeType): u8
  {
    match t
    case RomOnly => 0
    case Mbc1 => 1
    case Mbc1Ram => 2
    case Mbc1RamBattery => 3
    case Mbc2 => 5
  }

  /** `mbc_type`: the type whose code is the header byte; `None` for an unknown code, where the source panics. */
  function TypeOf(code: u8): (r: Option<CartridgeType>)
    ensures r.Some? <==> code in {0, 1, 2, 3, 5}
    ensures r.Some? ==> TypeCode(r.value) == code
  {
    if code == 0 then Some(RomOnly)
    else if code == 1 then Some(Mbc1)
    else if code == 2 then Some(Mbc1Ram)
    else if code == 3 then Some(Mbc1RamBattery)
    else if code == 5 then Some(Mbc2)
    else None
  }

  /** Decoding a type's code gives the type back. */
  lemma TypeCodeRoundTrip(t: CartridgeType)
    ensures TypeOf(TypeCode(t)) == Some(t)
  {
  }

  /** `mapped_areas`: the boot-ROM switch, the ROM and the RAM bank. */
  function CartridgeAreas(): (r: seq<MappedArea>)
    ensures AllFit(r)
    ensures forall a :: 0 <= a < MEMORY_SIZE ==> (AnyCovers(r, a) <==> a < 0x8000 || 0xA000 <= a < 0xC000 || a == BOOT_OFF as int)
  {
    var r := [MappedArea(BOOT_OFF, 0x1), MappedArea(0x0000, 0x8000), MappedArea(0xA000, 0x2000)];
    assert forall a :: 0 <= a < MEMORY_SIZE && (a < 0x8000 || 0xA000 <= a < 0xC000 || a == BOOT_OFF as int) ==> AnyCovers(r, a) by {
      forall a | 0 <= a < MEMORY_SIZE && (a < 0x8000 || 0xA000 <= a < 0xC000 || a == BOOT_OFF as int) ensures AnyCovers(r, a) {
        if a < 0x8000 {
          assert Covers(r[1], a);
        } else if a == BOOT_OFF as int {
          assert Covers(r[0], a);
        } else {
          assert Covers(r[2], a);
        }
      }
    }
    r
  }

  class Cartridge {
    const data: seq<u8>
    const romBanks: array<u8>
    const ramBank0: array<u8>

    /** ROM above the boot area always holds the cartridge's own bytes. */
    ghost predicate Valid()
      reads this, romBanks
    {
      |data| >= ROM_BANKS_SIZE && romBanks.Length == ROM_BANKS_SIZE && ramBank0.Length == RAM_BANK0_SIZE
      && romBanks != ramBank0
      && forall i :: BOOT_ROM_SIZE <= i < ROM_BANKS_SIZE ==> romBanks[i] == data[i]
    }

    /** Whether the boot ROM is still mapped over the first 256 bytes. */
    ghost predicate BootRomMapped(bootRom: seq<u8>)
      requires |bootRom| >= BOOT_ROM_SIZE
      reads this, romBanks
    {
      romBanks.Length == ROM_BANKS_SIZE && forall i :: 0 <= i < BOOT_ROM_SIZE ==> romBanks[i] == bootRom[i]
    }

    /**
     * `new`: the boot ROM over the first 256 bytes, the cartridge's data for
     * the rest of the 32K, and a zeroed RAM bank.  A file shorter than 32K
     * makes the source panic; `New` reports that case.
     */
    constructor (bootRom: seq<u8>, data: seq<u8>)
      requires |bootRom| >= BOOT_ROM_SIZE && |data| >= ROM_BANKS_SIZE
      ensures Valid() && this.data == data && fresh(romBanks) && fresh(ramBank0)
      ensures BootRomMapped(bootRom)
      ensures ramBank0[..] == seq(RAM_BANK0_SIZE, _ => 0)
    {
      this.data := data;
      var rom := new u8[ROM_BANKS_SIZE](_ => 0);
      for i := 0 to BOOT_ROM_SIZE
        invariant forall k :: 0 <= k < i ==> rom[k] == bootRom[k]
      {
        rom[i] := bootRom[i];
      }
      for i := BOOT_ROM_SIZE to ROM_BANKS_SIZE
        invariant forall k :: 0 <= k < BOOT_ROM_SIZE ==> rom[k] == bootRom[k]
        invariant forall k :: BOOT_ROM_SIZE <= k < i ==> rom[k] == data[k]
      {
        rom[i] := data[i];
      }
      romBanks := rom;
      ramBank0 := new u8[RAM_BANK0_SIZE](_ => 0);
    }

    /**
     * `new` with its panic: `null` where the file is shorter than the 32K
     * the copy loop indexes, the cartridge the constructor builds otherwise.
     */
    static method New(bootRom: seq<u8>, data: seq<u8>) returns (c: Cartridge?)
      requires |bootRom| >= BOOT_ROM_SIZE
      ensures c == null <==> |data| < ROM_BANKS_SIZE
      ensures c != null ==> fresh(c) && fresh(c.romBanks) && fresh(c.ramBank0) && c.Valid() && c.data == data
      ensures c != null ==> c.BootRomMapped(bootRom) && c.ramBank0[..] == seq(RAM_BANK0_SIZE, _ => 0)
    {
      if |data| < ROM_BANKS_SIZE {
        return null;
      }
      c := new Cartridge(bootRom, data);
    }

    /** `clear_boot_rom`: the first 256 bytes take the cartridge's own, so all of ROM is the cartridge's data. */
    method ClearBootRom()
      requires Valid()
      modifies romBanks
      ensures Valid()
      ensures romBanks[..] == data[..ROM_BANKS_SIZE]
    {
      for i := 0 to BOOT_ROM_SIZE
        invariant Valid()
        invariant forall k :: 0 <= k < i ==> romBanks[k] == data[k]
      {
        romBanks[i] := data[i];
      }
      assert romBanks[..] == data[..ROM_BANKS_SIZE];
    }

    /** `mbc_type`: the type named by header byte 0x147; `None` where the source panics. */
    function Type(): (r: Option<CartridgeType>)
      requires Valid()
      reads this, romBanks
      ensures r.Some? <==> data[TYPE_BYTE] in {0, 1, 2, 3, 5}
      ensures r.Some? ==> TypeCode(r.value) == data[TYPE_BYTE]
    {
      TypeOf(data[TYPE_BYTE])
    }

    /** `get8`: ROM at 0x0000-0x7FFF, the RAM bank at 0xA000-0xBFFF, and a panic elsewhere. */
    function Get8(addr: u16): (r: Option<u8>)
      requires Valid()
      reads this, romBanks, ramBank0
      ensures r.Some? <==> addr < 0x8000 || 0xA000 <= addr < 0xC000
      ensures addr < 0x8000 ==> r == Some(romBanks[addr])
      ensures 0xA000 <= addr < 0xC000 ==> r == Some(ramBank0[addr - 0xA000])
    {
      if addr < 0x8000 then Some(romBanks[addr])
      else if 0xA000 <= addr < 0xC000 then Some(ramBank0[addr - 0xA000])
      else None
    }

    /**
     * `set8`: 0xFF50 clears the boot ROM, 0xA000-0xBFFF writes the RAM bank,
     * and a write anywhere else is ignored.
     */
    method Set8(addr: u16, byte: u8)
      requires Valid()
      modifies romBanks, ramBank0
      ensures Valid()
      ensures addr == BOOT_OFF ==> romBanks[..] == data[..ROM_BANKS_SIZE]
      ensures addr != BOOT_OFF ==> romBanks[..] == old(romBanks[..])
      ensures 0xA000 <= addr < 0xC000 ==> ramBank0[..] == old(ramBank0[..])[addr - 0xA000 := byte]
      ensures !(0xA000 <= addr < 0xC000) ==> ramBank0[..] == old(ramBank0[..])
      ensures 0xA000 <= addr < 0xC000 ==> Get8(addr) == Some(byte)
    {
      if addr == BOOT_OFF {
        ClearBootRom();
      } else if 0xA000 <= addr < 0xC000 {
        ramBank0[addr - 0xA000] := byte;
      }
    }

    /** `get_slice`: `size` bytes of ROM or of the RAM bank from `addr`; `None` where the source panics. */
    function GetSlice(addr: u16, size: nat): (r: Option<seq<u8>>)
      requires Valid()
      reads this, romBanks, ramBank0
      ensures addr < 0x8000 ==> (r.Some? <==> addr + size <= ROM_BANKS_SIZE)
      ensures 0xA000 <= addr < 0xC000 ==> (r.Some? <==> addr - 0xA000 + size <= RAM_BANK0_SIZE)
      ensures !(addr < 0x8000 || 0xA000 <= addr < 0xC000) ==> r.None?
      ensures r.Some? ==> |r.value| == size && forall i :: 0 <= i < size ==> Get8(addr + i) == Some(r.value[i])
    {
      if addr < 0x8000 then
        if addr + size <= ROM_BANKS_SIZE then Some(romBanks[addr..addr + size]) else None
      else if 0xA000 <= addr < 0xC000 then
        if addr - 0xA000 + size <= RAM_BANK0_SIZE then Some(ramBank0[addr - 0xA000..addr - 0xA000 + size]) else None
      else None
    }
  }

  /**
   * The boot overlay: while the boot ROM is mapped, reads of 0x0000-0x00FF
   * give the boot ROM and reads of 0x0100-0x7FFF the cartridge; once
   * 0xFF50 is written, every ROM read gives the cartridge's byte.
   */
  lemma BootOverlay(c: Cartridge, bootRom: seq<u8>, addr: u16)
    requires c.Valid() && |bootRom| >= BOOT_ROM_SIZE && addr < 0x8000
    ensures c.BootRomMapped(bootRom) && addr < 0x100 ==> c.Get8(addr) == Some(bootRom[addr])
    ensures addr >= 0x100 ==> c.Get8(addr) == Some(c.data[addr])
    ensures c.romBanks[..] == c.data[..ROM_BANKS_SIZE] ==> c.Get8(addr) == Some(c.data[addr])
  {
    if c.romBanks[..] == c.data[..ROM_BANKS_SIZE] {
      assert c.romBanks[addr] == c.romBanks[..][addr];
    }
  }
}
