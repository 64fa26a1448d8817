/**
 * The two plain backing stores (src/ram_device.rs and src/rom_device.rs):
 * a zero-filled byte buffer of fixed size.  RAM is mapped at an offset and
 * can be written; ROM is addressed from 0 and panics on any write.  An index
 * outside the buffer panics in the source; the model reports it as a
 * failure.
 */
module RamRom {
  import opened Bits
  import opened Wrappers

  /** `load`: the first |data| cells take the data, the rest keep their bytes. */
  function Loaded(memory: seq<u8>, data: seq<u8>): (r: seq<u8>)
    requires |data| <= |memory|
    ensures |r| == |memory|
    ensures forall i :: 0 <= i < |data| ==> r[i] == data[i]
    ensures forall i :: |data| <= i < |memory| ==> r[i] == memory[i]
  {
    data + memory[|data|..]
  }

  class RamDevice {
    const offset: nat
    const memory: array<u8>

    /** `new(offset, size)`: `size` zero bytes, mapped from `offset`. */
    constructor (offset: nat, size: nat)
      ensures this.offset == offset && fresh(memory)
      ensures memory[..] == seq(size, _ => 0)
    {
      this.offset := offset;
      memory := new u8[size](_ => 0);
    }

    /**
     * `load`: copies `data` to the start of the buffer; `ok` is false where
     * the data is longer than the buffer and the source panics after filling it.
     */
    method Load(data: seq<u8>) returns (ok: bool)
      modifies memory
      ensures ok <==> |data| <= memory.Length
      ensures ok ==> memory[..] == Loaded(old(memory[..]), data)
      ensures !ok ==> memory[..] == data[..memory.Length]
    {
      var i := 0;
      while i < |data|
        invariant 0 <= i <= |data| && i <= memory.Length
        invariant forall k :: 0 <= k < i ==> memory[k] == data[k]
        invariant forall k :: i <= k < memory.Length ==> memory[k] == old(memory[k])
      {
        if i >= memory.Length {
          assert memory[..] == data[..memory.Length];
          return false;
        }
        memory[i] := data[i];
        i := i + 1;
      }
      assert memory[..] == Loaded(old(memory[..]), data);
      ok := true;
    }

    /** Whether `addr` falls inside the buffer once the offset is taken off. */
    predicate Maps(addr: u16)
      reads this
    {
      offset <= addr < offset + memory.Length
    }

    /** `get8`. */
    function Get8(addr: u16): (r: Option<u8>)
      reads this, memory
      ensures r.Some? <==> Maps(addr)
      ensures r.Some? ==> r.value == memory[addr - offset]
    {
      if Maps(addr) then Some(memory[addr - offset]) else None
    }

    /** `set8`: the byte at `addr - offset`; a write, then a read at the same address, returns the byte. */
    method Set8(addr: u16, byte: u8) returns (ok: bool)
      modifies memory
      ensures ok <==> Maps(addr)
      ensures ok ==> memory[..] == old(memory[..])[addr - offset := byte]
      ensures !ok ==> memory[..] == old(memory[..])
      ensures ok ==> Get8(addr) == Some(byte)
      ensures forall a: u16 :: a != addr ==> Get8(a) == old(Get8(a))
    {
      if !Maps(addr) {
        return false;
      }
      memory[addr - offset] := byte;
      ok := true;
    }

    /** `get_slice(addr, size)`: `size` bytes from `addr - offset`. */
    function GetSlice(addr: u16, size: nat): (r: Option<seq<u8>>)
      reads this, memory
      ensures r.Some? <==> offset <= addr && addr - offset + size <= memory.Length
      ensures r.Some? ==> |r.value| == size
      ensures r.Some? ==> forall i :: 0 <= i < size ==> r.value[i] == memory[addr - offset + i]
    {
      if offset <= addr && addr - offset + size <= memory.Length then
        Some(memory[addr - offset..addr - offset + size])
      else None
    }
  }

  class RomDevice {
    const memory: array<u8>

    /** `new(size)`: `size` zero bytes. */
    constructor (size: nat)
      ensures fresh(memory) && memory[..] == seq(size, _ => 0)
    {
      memory := new u8[size](_ => 0);
    }

    /** `load`, as for RAM. */
    method Load(data: seq<u8>) returns (ok: bool)
      modifies memory
      ensures ok <==> |data| <= memory.Length
      ensures ok ==> memory[..] == Loaded(old(memory[..]), data)
      ensures !ok ==> memory[..] == data[..memory.Length]
    {
      var i := 0;
      while i < |data|
        invariant 0 <= i <= |data| && i <= memory.Length
        invariant forall k :: 0 <= k < i ==> memory[k] == data[k]
        invariant forall k :: i <= k < memory.Length ==> memory[k] == old(memory[k])
      {
        if i >= memory.Length {
          assert memory[..] == data[..memory.Length];
          return false;
        }
        memory[i] := data[i];
        i := i + 1;
      }
      assert memory[..] == Loaded(old(memory[..]), data);
      ok := true;
    }

    /** `get8`: the byte at `addr`. */
    function Get8(addr: u16): (r: Option<u8>)
      reads this, memory
      ensures r.Some? <==> addr < memory.Length
      ensures r.Some? ==> r.value == memory[addr]
    {
      if addr < memory.Length then Some(memory[addr]) else None
    }

    /** `set8` always panics: ROM cannot be written. */
    function Set8(addr: u16, byte: u8): (ok: bool)
      ensures !ok
    {
      false
    }

    /** `get_slice(addr, size)`: `size` bytes from `addr`. */
    function GetSlice(addr: u16, size: nat): (r: Option<seq<u8>>)
      reads this, memory
      ensures r.Some? <==> addr + size <= memory.Length
      ensures r.Some? ==> |r.value| == size
      ensures r.Some? ==> forall i :: 0 <= i < size ==> r.value[i] == memory[addr + i]
    {
      if addr + size <= memory.Length then Some(memory[addr..addr + size]) else None
    }
  }
}
