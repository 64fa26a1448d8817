/**
 * The flat 64K memory of the early engine (src/memory_bus.rs): one byte
 * array indexed by the 16-bit address.  16-bit values are stored high byte
 * first, and a 16-bit access at 0xFFFF, like any read past the end, indexes
 * outside the array and panics; the model reports that as a failure.
 */
module FlatMemoryBus {
  import opened Bits
  import opened Wrappers

  const MEMORY_SIZE: nat := 0x1_0000

  /** `get16`: the byte at `addr` is the high byte, the one after it the low byte. */
  function Read16(mem: seq<u8>, addr: u16): (r: Option<u16>)
    requires |mem| == MEMORY_SIZE
    ensures r.Some? <==> addr < 0xFFFF
    ensures r.Some? ==> r.value / 0x100 == mem[addr] && r.value % 0x100 == mem[addr + 1]
  {
    if addr == 0xFFFF then None else Some((mem[addr] as int) * 0x100 + mem[addr + 1])
  }

  /** `set16`: `v >> 8` goes to `addr` and `v & 0xFF` to `addr + 1`. */
  function Write16(mem: seq<u8>, addr: u16, v: u16): (r: Option<seq<u8>>)
    requires |mem| == MEMORY_SIZE
    ensures r.Some? <==> addr < 0xFFFF
    ensures r.Some? ==> |r.value| == MEMORY_SIZE
    ensures r.Some? ==> r.value[addr] == v / 0x100 && r.value[addr + 1] == v % 0x100
    ensures r.Some? ==> forall i :: 0 <= i < MEMORY_SIZE && i != addr && i != addr + 1 ==> r.value[i] == mem[i]
  {
    if addr == 0xFFFF then None else Some(mem[addr := v / 0x100][addr + 1 := v % 0x100])
  }

  /** A 16-bit write followed by a 16-bit read at the same address gives the value back. */
  lemma Write16Read16(mem: seq<u8>, addr: u16, v: u16)
    requires |mem| == MEMORY_SIZE && addr < 0xFFFF
    ensures Read16(Write16(mem, addr, v).value, addr) == Some(v)
  {
    var m := Write16(mem, addr, v).value;
    DivUnique(Read16(m, addr).value, 0x100, v / 0x100, v % 0x100);
  }

  /** A 16-bit read followed by a write of the value read changes nothing. */
  lemma Read16Write16(mem: seq<u8>, addr: u16)
    requires |mem| == MEMORY_SIZE && addr < 0xFFFF
    ensures Write16(mem, addr, Read16(mem, addr).value) == Some(mem)
  {
    var m := Write16(mem, addr, Read16(mem, addr).value).value;
    assert m == mem;
  }

  /** A sequence that agrees with `data` from `at` onwards and with `s` elsewhere is `s` with `data` copied in at `at`. */
  lemma Overlaid(s: seq<u8>, data: seq<u8>, at: nat, r: seq<u8>)
    requires at + |data| <= |s| && |r| == |s|
    requires forall j :: 0 <= j < |s| ==> r[j] == if at <= j < at + |data| then data[j - at] else s[j]
    ensures r == s[..at] + data + s[at + |data|..]
  {
    var t := s[..at] + data + s[at + |data|..];
    forall j | 0 <= j < |s|
      ensures r[j] == t[j]
    {
      if j < at {
      } else if j < at + |data| {
        assert t[j] == data[j - at];
      } else {
        assert t[j] == s[j];
      }
    }
  }

  class MemoryBus {
    var memory: array<u8>

    ghost predicate Valid()
      reads this
    {
      memory.Length == MEMORY_SIZE
    }

    function Contents(): (s: seq<u8>)
      reads this, memory
      ensures |s| == memory.Length
    {
      memory[..]
    }

    /** `new`: 64K zero bytes. */
    constructor ()
      ensures Valid() && fresh(memory)
      ensures Contents() == seq(MEMORY_SIZE, _ => 0)
    {
      memory := new u8[MEMORY_SIZE](_ => 0);
    }

    /** `new_from_slice`: the data at address 0 and zeros after it. */
    constructor FromSlice(data: seq<u8>)
      requires |data| <= MEMORY_SIZE
      ensures Valid() && fresh(memory)
      ensures Contents() == data + seq(MEMORY_SIZE - |data|, _ => 0)
    {
      memory := new u8[MEMORY_SIZE](_ => 0);
      new;
      Load(data, 0);
    }

    /** `load`: copies `data` to `start_at` onwards and leaves the other bytes alone. */
    method Load(data: seq<u8>, startAt: nat)
      requires Valid() && startAt + |data| <= MEMORY_SIZE
      modifies memory
      ensures Contents() == old(Contents())[..startAt] + data + old(Contents())[startAt + |data|..]
    {
      var i := 0;
      while i < |data|
        invariant 0 <= i <= |data|
        invariant forall j :: 0 <= j < memory.Length ==>
          memory[j] == if startAt <= j < startAt + i then data[j - startAt] else old(memory[j])
      {
        memory[startAt + i] := data[i];
        i := i + 1;
      }
      Overlaid(old(Contents()), data, startAt, Contents());
    }

    method Set8(addr: u16, byte: u8)
      requires Valid()
      modifies memory
      ensures Contents() == old(Contents())[addr := byte]
    {
      memory[addr] := byte;
    }

    /** `set16`; `ok` is false where the source indexes past the end and panics. */
    method Set16(addr: u16, v: u16) returns (ok: bool)
      requires Valid()
      modifies memory
      ensures ok <==> addr < 0xFFFF
      ensures ok ==> Write16(old(Contents()), addr, v) == Some(Contents())
    {
      if addr == 0xFFFF {
        return false;
      }
      memory[addr] := v / 0x100;
      memory[addr + 1] := v % 0x100;
      ok := true;
    }

    function Get8(addr: u16): (b: u8)
      requires Valid()
      reads this, memory
      ensures b == Contents()[addr]
    {
      memory[addr]
    }

    /** `get16`; `None` where the source indexes past the end and panics. */
    method Get16(addr: u16) returns (r: Option<u16>)
      requires Valid()
      ensures r == Read16(Contents(), addr)
    {
      if addr == 0xFFFF {
        return None;
      }
      r := Some((memory[addr] as int) * 0x100 + memory[addr + 1]);
    }

    /** `read_bytes`: fills `bytes` from `addr` onwards; `ok` is false where it runs past the end and panics. */
    method ReadBytes(addr: u16, bytes: array<u8>) returns (ok: bool)
      requires Valid() && bytes != memory
      modifies bytes
      ensures ok <==> addr + bytes.Length <= MEMORY_SIZE
      ensures ok ==> bytes[..] == Contents()[addr..addr + bytes.Length]
    {
      var i := 0;
      while i < bytes.Length
        invariant 0 <= i <= bytes.Length
        invariant addr + i <= MEMORY_SIZE
        invariant bytes[..i] == memory[addr..addr + i]
      {
        if addr + i >= MEMORY_SIZE {
          return false;
        }
        bytes[i] := memory[addr + i];
        i := i + 1;
      }
      ok := true;
    }
  }
}
