/**
 * The routing memory bus (src/memory/memory_bus.rs).  Every read and write
 * is forwarded to the device the address map names for the address, with
 * two exceptions among writes: a write to DMA (0xFF46) copies 160 bytes,
 * read back through the bus, into the LCD's sprite table, and a write to
 * HDMA5 (0xFF55) either requests an HBlank transfer from the LCD or copies
 * the block from the LCD's VRAM-DMA source at once.
 *
 * The devices stand behind the bus as a state `S` together with their
 * entry points (`Devices`); each entry point reports a panic as `None`.
 * Address arithmetic (`addr + 1`, `source + i`) wraps around in 16 bits.
 */
module RoutingBus {
  import opened Bits
  import opened Wrappers
  import opened Mapping

  const DMA: u16 := 0xFF46
  const HDMA5: u16 := 0xFF55
  /** Bytes an OAM DMA transfer copies. */
  const OAM_DMA_LEN: nat := 0xA0

  /**
   * The devices behind the bus: `get8`/`set8` of the device with a given
   * id, and the LCD's `dma`, `vram_hblank_dma`, `vram_dma_source` and
   * `vram_dma`.
   */
  datatype Devices<!S> = Devices(
    get8: (S, DeviceId, u16) -> Option<u8>,
    set8: (S, DeviceId, u16, u8) -> Option<S>,
    oamDma: (S, seq<u8>) -> Option<S>,
    hblankDma: (S, u16) -> Option<S>,
    vramDmaSource: S -> Option<u16>,
    vramDma: (S, seq<u8>) -> Option<S>)

  /** `get8`: the owner's byte; `None` where no device owns the address or the owner panics. */
  function Read<S>(d: Devices<S>, m: seq<Option<DeviceId>>, s: S, addr: u16): (r: Option<u8>)
    requires |m| == MEMORY_SIZE
    ensures m[addr].None? ==> r.None?
    ensures m[addr].Some? ==> r == d.get8(s, m[addr].value, addr)
  {
    var id :- m[addr];
    d.get8(s, id, addr)
  }

  /** Whether a read of address `a` succeeds: its owner answers. */
  predicate Readable<S>(d: Devices<S>, m: seq<Option<DeviceId>>, s: S, a: u16)
    requires |m| == MEMORY_SIZE
  {
    Read(d, m, s, a).Some?
  }

  /** The byte a read of `a` gives, or 0 where it fails. */
  function ByteAt<S>(d: Devices<S>, m: seq<Option<DeviceId>>, s: S, a: u16): u8
    requires |m| == MEMORY_SIZE
  {
    if Readable(d, m, s, a) then Read(d, m, s, a).value else 0
  }

  /** `source + i` in 16 bits, wrapping past 0xFFFF. */
  function Offset(source: u16, i: int): (a: u16)
    ensures 0 <= source + i < MEMORY_SIZE ==> a == source + i
    ensures MEMORY_SIZE <= source + i < 2 * MEMORY_SIZE ==> a == source + i - MEMORY_SIZE
  {
    Wrap16(source + i)
  }

  /**
   * `n` bytes read through the bus from `source` upwards, wrapping past
   * 0xFFFF, as the DMA loops gather them; `None` if a read panics.
   */
  function ReadBlock<S>(d: Devices<S>, m: seq<Option<DeviceId>>, s: S, source: u16, n: nat): (r: Option<seq<u8>>)
    requires |m| == MEMORY_SIZE
    ensures r.Some? <==> forall i :: 0 <= i < n ==> Readable(d, m, s, Offset(source, i))
    ensures r.Some? ==> |r.value| == n && forall i :: 0 <= i < n ==> r.value[i] == ByteAt(d, m, s, Offset(source, i))
  {
    if forall i :: 0 <= i < n ==> Readable(d, m, s, Offset(source, i)) then
      Some(seq<u8>(n, i => ByteAt(d, m, s, Offset(source, i))))
    else None
  }

  /** The length of an HDMA5 transfer, `((b & 0x7F) + 1) << 4`. */
  function HdmaLength(b: u8): (len: u16)
    ensures len % 16 == 0 && 16 <= len <= 0x800
    ensures len / 16 == b % 0x80 + 1
  {
    (b % 0x80 + 1) * 16
  }

  /** `set8`: the DMA and HDMA5 intercepts, and forwarding to the owner otherwise. */
  function Write<S>(d: Devices<S>, m: seq<Option<DeviceId>>, s: S, addr: u16, byte: u8): (r: Option<S>)
    requires |m| == MEMORY_SIZE
    ensures addr != DMA && addr != HDMA5 && m[addr].None? ==> r.None?
    ensures addr == DMA && r.Some? ==> forall i :: 0 <= i < OAM_DMA_LEN ==> Readable(d, m, s, Offset(byte * 0x100, i))
    ensures addr == HDMA5 && Bit(byte, 7) == 0 && r.Some? ==>
      d.vramDmaSource(s).Some? && forall i :: 0 <= i < HdmaLength(byte) ==> Readable(d, m, s, Offset(d.vramDmaSource(s).value, i))
  {
    if addr == DMA then
      var data :- ReadBlock(d, m, s, byte * 0x100, OAM_DMA_LEN);
      d.oamDma(s, data)
    else if addr == HDMA5 then
      var len := HdmaLength(byte);
      if Bit(byte, 7) == 1 then d.hblankDma(s, len)
      else
        var source :- d.vramDmaSource(s);
        var data :- ReadBlock(d, m, s, source, len);
        d.vramDma(s, data)
    else
      var id :- m[addr];
      d.set8(s, id, addr, byte)
  }

  /** `set16`: the high byte at `addr` and the low byte at `addr + 1`, both written to the owner of `addr`. */
  function Write16<S>(d: Devices<S>, m: seq<Option<DeviceId>>, s: S, addr: u16, v: u16): (r: Option<S>)
    requires |m| == MEMORY_SIZE
    ensures r.Some? ==> m[addr].Some? && d.set8(s, m[addr].value, addr, v / 0x100).Some?
  {
    var id :- m[addr];
    var s1 :- d.set8(s, id, addr, v / 0x100);
    d.set8(s1, id, Offset(addr, 1), v % 0x100)
  }

  /** `get_arr3`: the bytes at `addr`, `addr + 1` and `addr + 2`, read through the bus. */
  function Read3<S>(d: Devices<S>, m: seq<Option<DeviceId>>, s: S, addr: u16): (r: Option<seq<u8>>)
    requires |m| == MEMORY_SIZE
    ensures r.Some? <==> forall i :: 0 <= i < 3 ==> Readable(d, m, s, Offset(addr, i))
    ensures r.Some? ==> |r.value| == 3 && forall i :: 0 <= i < 3 ==> r.value[i] == Read(d, m, s, Offset(addr, i)).value
  {
    assert Offset(addr, 0) == addr;
    var b0 :- Read(d, m, s, addr);
    var b1 :- Read(d, m, s, Offset(addr, 1));
    var b2 :- Read(d, m, s, Offset(addr, 2));
    Some([b0, b1, b2])
  }

  /**
   * A DMA write hands the LCD the 160 bytes at `b << 8`, read through the
   * bus, and is not forwarded to the owner of 0xFF46.
   */
  lemma DmaCopiesToOam<S>(d: Devices<S>, m: seq<Option<DeviceId>>, s: S, b: u8)
    requires |m| == MEMORY_SIZE
    ensures forall i :: 0 <= i < OAM_DMA_LEN ==> Offset(b * 0x100, i) == b * 0x100 + i
    ensures Write(d, m, s, DMA, b).Some? ==> exists data: seq<u8> ::
      |data| == OAM_DMA_LEN
      && (forall i :: 0 <= i < OAM_DMA_LEN ==> Readable(d, m, s, Offset(b * 0x100, i)))
      && (forall i :: 0 <= i < OAM_DMA_LEN ==> data[i] == ByteAt(d, m, s, Offset(b * 0x100, i)))
      && Write(d, m, s, DMA, b) == d.oamDma(s, data)
  {
    if Write(d, m, s, DMA, b).Some? {
      var data := ReadBlock(d, m, s, b * 0x100, OAM_DMA_LEN).value;
      assert Write(d, m, s, DMA, b) == d.oamDma(s, data);
    }
  }

  /**
   * An HDMA5 write with bit 7 set only requests an HBlank transfer of its
   * length; with bit 7 clear it copies that many bytes from the LCD's
   * source, read through the bus.
   */
  lemma HdmaModes<S>(d: Devices<S>, m: seq<Option<DeviceId>>, s: S, b: u8)
    requires |m| == MEMORY_SIZE
    ensures Bit(b, 7) == 1 ==> Write(d, m, s, HDMA5, b) == d.hblankDma(s, (b % 0x80 + 1) * 16)
    ensures Bit(b, 7) == 0 && Write(d, m, s, HDMA5, b).Some? ==>
      d.vramDmaSource(s).Some? && exists data: seq<u8> ::
        |data| == (b % 0x80 + 1) * 16
        && (forall i :: 0 <= i < |data| ==> Readable(d, m, s, Offset(d.vramDmaSource(s).value, i)))
        && (forall i :: 0 <= i < |data| ==> data[i] == ByteAt(d, m, s, Offset(d.vramDmaSource(s).value, i)))
        && Write(d, m, s, HDMA5, b) == d.vramDma(s, data)
  {
    if Bit(b, 7) == 0 && Write(d, m, s, HDMA5, b).Some? {
      var data := ReadBlock(d, m, s, d.vramDmaSource(s).value, HdmaLength(b)).value;
      assert Write(d, m, s, HDMA5, b) == d.vramDma(s, data);
    }
  }

  /** Every other write goes to the device that owns the address, and an unowned address fails. */
  lemma WriteForwards<S>(d: Devices<S>, m: seq<Option<DeviceId>>, s: S, addr: u16, b: u8)
    requires |m| == MEMORY_SIZE && addr != DMA && addr != HDMA5
    ensures m[addr].None? ==> Write(d, m, s, addr, b).None?
    ensures m[addr].Some? ==> Write(d, m, s, addr, b) == d.set8(s, m[addr].value, addr, b)
  {
  }

  /**
   * Where the owner of an address keeps what is written to it, a forwarded
   * write followed by a read at the same address returns the byte.
   */
  lemma WriteThenRead<S>(d: Devices<S>, m: seq<Option<DeviceId>>, s: S, addr: u16, b: u8)
    requires |m| == MEMORY_SIZE && addr != DMA && addr != HDMA5 && m[addr].Some?
    requires forall t: S :: d.set8(t, m[addr].value, addr, b).Some? ==> d.get8(d.set8(t, m[addr].value, addr, b).value, m[addr].value, addr) == Some(b)
    requires Write(d, m, s, addr, b).Some?
    ensures Read(d, m, Write(d, m, s, addr, b).value, addr) == Some(b)
  {
  }

  /**
   * `set16` sends both bytes to the owner of `addr`, even when another
   * device owns `addr + 1`: the high byte first, then the low byte.
   */
  lemma Write16SameDevice<S>(d: Devices<S>, m: seq<Option<DeviceId>>, s: S, addr: u16, v: u16)
    requires |m| == MEMORY_SIZE && m[addr].Some?
    ensures var id := m[addr].value;
      Write16(d, m, s, addr, v) ==
        match d.set8(s, id, addr, v / 0x100)
        case None => None
        case Some(s1) => d.set8(s1, id, Offset(addr, 1), v % 0x100)
  {
  }

  /** Whether device `id` reads back at `a` whatever byte is written there. */
  ghost predicate KeepsWrites<S(!new)>(d: Devices<S>, id: DeviceId, a: u16)
  {
    forall t: S, b: u8 :: d.set8(t, id, a, b).Some? ==> d.get8(d.set8(t, id, a, b).value, id, a) == Some(b)
  }

  /** Whether writes of device `id` at `w` leave its reads at `a` alone. */
  ghost predicate WriteLeaves<S(!new)>(d: Devices<S>, id: DeviceId, w: u16, a: u16)
  {
    forall t: S, b: u8 :: d.set8(t, id, w, b).Some? ==> d.get8(d.set8(t, id, w, b).value, id, a) == d.get8(t, id, a)
  }

  /**
   * Where one device owns both `addr` and `addr + 1` and keeps what is
   * written there, a `set16` followed by reads of the two addresses gives
   * the high byte of the word at `addr` and the low byte after it.
   */
  lemma Write16ThenRead<S(!new)>(d: Devices<S>, m: seq<Option<DeviceId>>, s: S, addr: u16, v: u16)
    requires |m| == MEMORY_SIZE && m[addr].Some? && m[Offset(addr, 1)] == m[addr]
    requires KeepsWrites(d, m[addr].value, addr) && KeepsWrites(d, m[addr].value, Offset(addr, 1))
    requires WriteLeaves(d, m[addr].value, Offset(addr, 1), addr)
    requires Write16(d, m, s, addr, v).Some?
    ensures Read(d, m, Write16(d, m, s, addr, v).value, addr) == Some(v / 0x100)
    ensures Read(d, m, Write16(d, m, s, addr, v).value, Offset(addr, 1)) == Some(v % 0x100)
    ensures (v / 0x100) * 0x100 + v % 0x100 == v
  {
    var id := m[addr].value;
    var s1 := d.set8(s, id, addr, v / 0x100).value;
    var s2 := d.set8(s1, id, Offset(addr, 1), v % 0x100).value;
    assert Write16(d, m, s, addr, v) == Some(s2);
    assert d.get8(s1, id, addr) == Some(v / 0x100);
    assert d.get8(s2, id, addr) == d.get8(s1, id, addr);
  }

  class MemoryBus<S> {
    const devices: Devices<S>
    const memoryMap: MemoryMap
    var state: S

    ghost predicate Valid()
      reads this, memoryMap
    {
      memoryMap.memoryMap.Length == MEMORY_SIZE
    }

    constructor (devices: Devices<S>, memoryMap: MemoryMap, state: S)
      requires memoryMap.memoryMap.Length == MEMORY_SIZE
      ensures Valid() && this.devices == devices && this.memoryMap == memoryMap && this.state == state
    {
      this.devices := devices;
      this.memoryMap := memoryMap;
      this.state := state;
    }

    /** `get8`, through `get_device`. */
    function Get8(addr: u16): (r: Option<u8>)
      requires Valid()
      reads this, memoryMap, memoryMap.memoryMap
      ensures r == Read(devices, memoryMap.memoryMap[..], state, addr)
    {
      var id :- memoryMap.GetId(addr);
      devices.get8(state, id, addr)
    }

    /** `get_arr3`. */
    function GetArr3(addr: u16): (r: Option<seq<u8>>)
      requires Valid()
      reads this, memoryMap, memoryMap.memoryMap
      ensures r == Read3(devices, memoryMap.memoryMap[..], state, addr)
    {
      var b0 :- Get8(addr);
      var b1 :- Get8(Offset(addr, 1));
      var b2 :- Get8(Offset(addr, 2));
      Some([b0, b1, b2])
    }

    /**
     * The byte-copy loop of both DMA intercepts: `len` bytes from `source`
     * read through `get8` into a fresh buffer, the address wrapping past
     * 0xFFFF; `ok` is false where a read panics.
     */
    method Gather(source: u16, len: nat) returns (ok: bool, data: array<u8>)
      requires Valid()
      ensures fresh(data)
      ensures ok <==> ReadBlock(devices, memoryMap.memoryMap[..], state, source, len).Some?
      ensures ok ==> data[..] == ReadBlock(devices, memoryMap.memoryMap[..], state, source, len).value
    {
      data := new u8[len];
      ghost var m := memoryMap.memoryMap[..];
      var i := 0;
      while i < len
        invariant 0 <= i <= len
        invariant forall k :: 0 <= k < i ==> Readable(devices, m, state, Offset(source, k))
        invariant forall k :: 0 <= k < i ==> data[k] == ByteAt(devices, m, state, Offset(source, k))
      {
        var b := Get8(Offset(source, i));
        if b.None? {
          assert !Readable(devices, m, state, Offset(source, i));
          return false, data;
        }
        data[i] := b.value;
        i := i + 1;
      }
      ok := true;
    }

    /** `set8`; `ok` is false, and the devices keep their state, where the source panics. */
    method Set8(addr: u16, byte: u8) returns (ok: bool)
      requires Valid()
      modifies this
      ensures ok <==> Write(devices, memoryMap.memoryMap[..], old(state), addr, byte).Some?
      ensures ok ==> Some(state) == Write(devices, memoryMap.memoryMap[..], old(state), addr, byte)
      ensures !ok ==> state == old(state)
    {
      if addr == DMA {
        var read, data := Gather(byte * 0x100, OAM_DMA_LEN);
        if !read {
          return false;
        }
        var next := devices.oamDma(state, data[..]);
        if next.None? {
          return false;
        }
        state := next.value;
      } else if addr == HDMA5 {
        var len := HdmaLength(byte);
        if Bit(byte, 7) == 1 {
          var next := devices.hblankDma(state, len);
          if next.None? {
            return false;
          }
          state := next.value;
        } else {
          var source := devices.vramDmaSource(state);
          if source.None? {
            return false;
          }
          var read, data := Gather(source.value, len);
          if !read {
            return false;
          }
          var next := devices.vramDma(state, data[..]);
          if next.None? {
            return false;
          }
          state := next.value;
        }
      } else {
        var id := memoryMap.GetId(addr);
        if id.None? {
          return false;
        }
        var next := devices.set8(state, id.value, addr, byte);
        if next.None? {
          return false;
        }
        state := next.value;
      }
      ok := true;
    }

    /** `set16`: two writes to the device owning `addr`. */
    method Set16(addr: u16, v: u16) returns (ok: bool)
      requires Valid()
      modifies this
      ensures ok <==> Write16(devices, memoryMap.memoryMap[..], old(state), addr, v).Some?
      ensures ok ==> Some(state) == Write16(devices, memoryMap.memoryMap[..], old(state), addr, v)
    {
      var id := memoryMap.GetId(addr);
      if id.None? {
        return false;
      }
      var first := devices.set8(state, id.value, addr, v / 0x100);
      if first.None? {
        return false;
      }
      state := first.value;
      var second := devices.set8(state, id.value, Offset(addr, 1), v % 0x100);
      if second.None? {
        return false;
      }
      state := second.value;
      ok := true;
    }
  }
}
