/**
 * The address map (src/memory/memory_map.rs): a table of 64K entries that
 * names the device owning each address.  Devices register the areas they
 * answer to; a later registration overwrites an earlier one on the
 * addresses they share.  An address nobody registered has no owner and a
 * lookup there panics, which the model reports as `None`.
 */
module Mapping {
  import opened Bits
  import opened Wrappers
  import Symbols

  const MEMORY_SIZE: nat := 0x1_0000

  /** `MappedArea(start, len)`: the addresses start .. start + len - 1. */
  datatype MappedArea = MappedArea(start: u16, len: nat)

  datatype DeviceId = Cartridge | RAMBank0 | RAMBank1 | Timer | Interrupt | Joypad | LCD | Serial | Sound | HRAM | Ignore

  predicate Covers(area: MappedArea, a: int)
  {
    area.start <= a < area.start + area.len
  }

  /** An area lies inside the 64K table; the source indexes past the table, and panics, otherwise. */
  predicate Fits(area: MappedArea)
  {
    area.start + area.len <= MEMORY_SIZE
  }

  predicate AllFit(areas: seq<MappedArea>)
  {
    forall k :: 0 <= k < |areas| ==> Fits(areas[k])
  }

  /** Whether one of the areas covers address `a`. */
  predicate AnyCovers(areas: seq<MappedArea>, a: int)
  {
    exists k :: 0 <= k < |areas| && Covers(areas[k], a)
  }

  /**
   * `register(id, areas)` on the table `m`: the areas are filled in order,
   * so every address an area covers now names `id` and every other address
   * keeps its owner.
   */
  function Registered(m: seq<Option<DeviceId>>, id: DeviceId, areas: seq<MappedArea>): (r: seq<Option<DeviceId>>)
    requires |m| == MEMORY_SIZE && AllFit(areas)
    ensures |r| == MEMORY_SIZE
    ensures forall a :: 0 <= a < MEMORY_SIZE ==> r[a] == if AnyCovers(areas, a) then Some(id) else m[a]
    decreases |areas|
  {
    if areas == [] then m
    else
      var init := areas[..|areas| - 1];
      var last := areas[|areas| - 1];
      var before := Registered(m, id, init);
      assert forall a :: AnyCovers(areas, a) <==> AnyCovers(init, a) || Covers(last, a) by {
        forall a ensures AnyCovers(areas, a) ==> AnyCovers(init, a) || Covers(last, a) {
          if AnyCovers(areas, a) {
            var k :| 0 <= k < |areas| && Covers(areas[k], a);
            if k < |areas| - 1 {
              assert Covers(init[k], a);
            }
          }
        }
        forall a ensures AnyCovers(init, a) ==> AnyCovers(areas, a) {
          if AnyCovers(init, a) {
            var k :| 0 <= k < |init| && Covers(init[k], a);
            assert Covers(areas[k], a);
          }
        }
      }
      seq(MEMORY_SIZE, a requires 0 <= a < MEMORY_SIZE => if Covers(last, a) then Some(id) else before[a])
  }

  /** The table of `MemoryMap::new`: no address has an owner. */
  function EmptyMap(): (m: seq<Option<DeviceId>>)
    ensures |m| == MEMORY_SIZE && forall a :: 0 <= a < MEMORY_SIZE ==> m[a].None?
  {
    seq(MEMORY_SIZE, _ => None)
  }

  /** Registering areas that do not cover an address leaves its owner alone. */
  lemma RegisterElsewhere(m: seq<Option<DeviceId>>, id: DeviceId, areas: seq<MappedArea>, a: nat)
    requires |m| == MEMORY_SIZE && AllFit(areas) && a < MEMORY_SIZE
    requires forall k :: 0 <= k < |areas| ==> !Covers(areas[k], a)
    ensures Registered(m, id, areas)[a] == m[a]
  {
  }

  /** Of two registrations covering an address, the later one owns it. */
  lemma LaterRegistrationWins(m: seq<Option<DeviceId>>, first: DeviceId, second: DeviceId,
                              areas1: seq<MappedArea>, areas2: seq<MappedArea>, a: nat)
    requires |m| == MEMORY_SIZE && AllFit(areas1) && AllFit(areas2) && a < MEMORY_SIZE
    requires AnyCovers(areas2, a)
    ensures Registered(Registered(m, first, areas1), second, areas2)[a] == Some(second)
  {
  }

  /** `NullDevice::get8`: every read gives 0xFF. */
  function NullGet8(addr: u16): (b: u8)
    ensures b == 0xFF
  {
    0xFF
  }

  /** `get_sym`: no name without a symbol table, otherwise the table's name for `addr`. */
  function SymbolAt(symbols: Option<map<Symbols.Loc, string>>, addr: u16): (r: Option<string>)
    ensures symbols.None? ==> r.None?
    ensures symbols.Some? ==> r == Symbols.Get(symbols.value, addr)
  {
    match symbols
    case None => None
    case Some(labels) => Symbols.Get(labels, addr)
  }

  class MemoryMap {
    const memoryMap: array<Option<DeviceId>>
    var symbols: Option<map<Symbols.Loc, string>>

    /** `new`: an empty table and no symbols. */
    constructor ()
      ensures fresh(memoryMap) && memoryMap[..] == EmptyMap() && symbols.None?
    {
      memoryMap := new Option<DeviceId>[MEMORY_SIZE](_ => None);
      symbols := None;
    }

    /** `set_symbols`. */
    method SetSymbols(symbols: Option<map<Symbols.Loc, string>>)
      modifies this
      ensures this.symbols == symbols
    {
      this.symbols := symbols;
    }

    /** `get_sym`. */
    function GetSym(addr: u16): (r: Option<string>)
      reads this
      ensures r == SymbolAt(symbols, addr)
    {
      SymbolAt(symbols, addr)
    }

    /**
     * `register`: the nested loops over the areas and their addresses.  `ok`
     * is false where an area runs past the table and the source panics.
     */
    method Register(id: DeviceId, areas: seq<MappedArea>) returns (ok: bool)
      requires memoryMap.Length == MEMORY_SIZE
      modifies memoryMap
      ensures ok <==> AllFit(areas)
      ensures ok ==> memoryMap[..] == Registered(old(memoryMap[..]), id, areas)
    {
      var j := 0;
      while j < |areas|
        invariant 0 <= j <= |areas| && AllFit(areas[..j])
        invariant memoryMap[..] == Registered(old(memoryMap[..]), id, areas[..j])
      {
        var start := areas[j].start as nat;
        var before := memoryMap[..];
        var i := start;
        while i < start + areas[j].len
          invariant start <= i <= start + areas[j].len
          invariant i <= MEMORY_SIZE
          invariant forall a :: 0 <= a < MEMORY_SIZE ==> memoryMap[a] == if start <= a < i then Some(id) else before[a]
        {
          if i >= MEMORY_SIZE {
            return false;
          }
          memoryMap[i] := Some(id);
          i := i + 1;
        }
        assert areas[..j + 1][..j] == areas[..j];
        assert memoryMap[..] == Registered(old(memoryMap[..]), id, areas[..j + 1]);
        j := j + 1;
      }
      assert areas[..j] == areas;
      ok := true;
    }

    /** `get_id`: the owner of `addr`; `None` where nothing is registered and the source panics. */
    function GetId(addr: u16): (r: Option<DeviceId>)
      requires memoryMap.Length == MEMORY_SIZE
      reads memoryMap
      ensures r == memoryMap[addr]
    {
      memoryMap[addr]
    }
  }
}
