/**
 * The interrupt controller (src/interrupt_controller.rs): the enable
 * register IE at 0xFFFF and the request register IF at 0xFF0F.  `handle`
 * picks the first source that is both enabled and requested, VBlank before
 * Timer, and can acknowledge it by clearing its request bit.
 */
module Interrupts {
  import opened Bits
  import opened Wrappers

  const IE: u16 := 0xFFFF
  const IF: u16 := 0xFF0F

  /**
   * The interrupt sources.  The enum in the source names only VBlank and
   * Timer, while the LCD and serial controllers also raise Stat and Serial;
   * those two take their bits (1 and 3) and vectors (0x48 and 0x58) from the
   * Game Boy hardware.
   */
  datatype Interrupt = VBlank | Stat | Timer | Serial

  /** The bit of IE/IF that belongs to a source. */
  function FlagBit(i: Interrupt): (k: nat)
    ensures k < 8
  {
    match i
    case VBlank => 0
    case Stat => 1
    case Timer => 2
    case Serial => 3
  }

  /** `flag`: `1 << FlagBit(i)`. */
  function Flag(i: Interrupt): (f: u8)
    ensures f == Pow2(FlagBit(i))
    ensures Bit(f, FlagBit(i)) == 1
  {
    SmallPow2(FlagBit(i));
    BitPow2(FlagBit(i), FlagBit(i));
    Pow2(FlagBit(i))
  }

  /** `addr`: the vector the CPU jumps to. */
  function Addr(i: Interrupt): (a: u16)
    ensures a == 0x40 + 8 * FlagBit(i)
  {
    match i
    case VBlank => 0x40
    case Stat => 0x48
    case Timer => 0x50
    case Serial => 0x58
  }

  /** `enabled_and_requested`: `ie & flag == flag && if & flag == flag`. */
  function EnabledAndRequested(ie: u8, ifReg: u8, i: Interrupt): (b: bool)
    ensures b <==> Bit(ie, FlagBit(i)) == 1 && Bit(ifReg, FlagBit(i)) == 1
  {
    MaskBit(ie, FlagBit(i));
    MaskBit(ifReg, FlagBit(i));
    And(ie, Flag(i)) == Flag(i) && And(ifReg, Flag(i)) == Flag(i)
  }

  /** `request`: ORs the source's flag into IF. */
  function WithRequest(ifReg: u8, i: Interrupt): (r: u8)
    ensures Bit(r, FlagBit(i)) == 1
    ensures forall j: nat :: j != FlagBit(i) ==> Bit(r, j) == Bit(ifReg, j)
  {
    ByteOps(ifReg, Flag(i));
    forall j: nat ensures Bit(Or(ifReg, Flag(i)), j) == if j == FlagBit(i) then 1 else Bit(ifReg, j) {
      SetBitBits(ifReg, FlagBit(i), j);
    }
    Or(ifReg, Flag(i))
  }

  /** A second request of the same source leaves IF unchanged. */
  lemma RequestTwice(ifReg: u8, i: Interrupt)
    ensures WithRequest(WithRequest(ifReg, i), i) == WithRequest(ifReg, i)
  {
    OrIdempotent(ifReg, Flag(i));
  }

  /** `fire`: clears the source's request bit with `^` when `clear` is set. */
  function Fire(ifReg: u8, i: Interrupt, clear: bool): (r: u8)
    requires Bit(ifReg, FlagBit(i)) == 1
    ensures clear ==> Bit(r, FlagBit(i)) == 0
    ensures !clear ==> r == ifReg
    ensures forall j: nat :: j != FlagBit(i) ==> Bit(r, j) == Bit(ifReg, j)
  {
    if clear then
      ByteOps(ifReg, Flag(i));
      forall j: nat ensures Bit(Xor(ifReg, Flag(i)), j) == if j == FlagBit(i) then 1 - Bit(ifReg, j) else Bit(ifReg, j) {
        FlipBitBits(ifReg, FlagBit(i), j);
      }
      Xor(ifReg, Flag(i))
    else
      ifReg
  }

  /** The result of `handle`: the vector taken, and the new IF. */
  datatype Handled = Handled(addr: Option<u16>, ifReg: u8)

  /** `handle`: VBlank is checked first, then Timer; no other source is ever taken. */
  function Handling(ie: u8, ifReg: u8, clear: bool): (r: Handled)
    ensures r.addr.Some? <==> (Bit(ie, 0) == 1 && Bit(ifReg, 0) == 1) || (Bit(ie, 2) == 1 && Bit(ifReg, 2) == 1)
    ensures r.addr == Some(0x40) <==> Bit(ie, 0) == 1 && Bit(ifReg, 0) == 1
    ensures r.addr.None? ==> r.ifReg == ifReg
  {
    if EnabledAndRequested(ie, ifReg, VBlank) then Handled(Some(Addr(VBlank)), Fire(ifReg, VBlank, clear))
    else if EnabledAndRequested(ie, ifReg, Timer) then Handled(Some(Addr(Timer)), Fire(ifReg, Timer, clear))
    else Handled(None, ifReg)
  }

  /**
   * `handle` returns the vector of a source that is enabled and requested,
   * and with `clear` acknowledges exactly that source; without it IF stays.
   */
  lemma HandleAcknowledges(ie: u8, ifReg: u8, clear: bool)
    requires Handling(ie, ifReg, clear).addr.Some?
    ensures var r := Handling(ie, ifReg, clear);
      exists i :: r.addr == Some(Addr(i)) && EnabledAndRequested(ie, ifReg, i)
        && (clear ==> Bit(r.ifReg, FlagBit(i)) == 0)
        && (!clear ==> r.ifReg == ifReg)
        && forall j: nat :: j != FlagBit(i) ==> Bit(r.ifReg, j) == Bit(ifReg, j)
  {
    var i := if EnabledAndRequested(ie, ifReg, VBlank) then VBlank else Timer;
    assert Handling(ie, ifReg, clear) == Handled(Some(Addr(i)), Fire(ifReg, i, clear));
  }

  /** With every source enabled and requested, VBlank wins and only bit 0 is cleared: IF goes from 0xFF to 0xFE. */
  lemma HandleAllPending()
    ensures Handling(0xFF, 0xFF, false) == Handled(Some(0x40), 0xFF)
    ensures Handling(0xFF, 0xFF, true) == Handled(Some(0x40), 0xFE)
  {
    assert Bit(0xFF, 0) == 1;
    assert Xor(0xFF, 1) == 0xFE;
  }

  class InterruptController {
    var ieReg: u8
    var ifReg: u8

    constructor ()
      ensures ieReg == 0 && ifReg == 0
    {
      ieReg, ifReg := 0, 0;
    }

    /** `handle`; its contract is the function `Handling`. */
    method Handle(clear: bool) returns (r: Option<u16>)
      modifies this
      ensures Handled(r, ifReg) == Handling(old(ieReg), old(ifReg), clear)
      ensures ieReg == old(ieReg)
    {
      if EnabledAndRequested(ieReg, ifReg, VBlank) {
        r := FireSource(VBlank, clear);
      } else if EnabledAndRequested(ieReg, ifReg, Timer) {
        r := FireSource(Timer, clear);
      } else {
        r := None;
      }
    }

    /** `fire`. */
    method FireSource(i: Interrupt, clear: bool) returns (r: Option<u16>)
      requires Bit(ifReg, FlagBit(i)) == 1
      modifies this
      ensures r == Some(Addr(i)) && ifReg == Fire(old(ifReg), i, clear) && ieReg == old(ieReg)
    {
      if clear {
        ByteOps(ifReg, Flag(i));
        ifReg := Xor(ifReg, Flag(i));
      }
      r := Some(Addr(i));
    }

    /** `request`. */
    method Request(i: Interrupt)
      modifies this
      ensures ifReg == WithRequest(old(ifReg), i) && ieReg == old(ieReg)
    {
      ifReg := WithRequest(ifReg, i);
    }

    /** `get8`: IE or IF; `None` where the source panics. */
    function Get8(addr: u16): (r: Option<u8>)
      reads this
      ensures r.Some? <==> addr == IE || addr == IF
      ensures addr == IE ==> r == Some(ieReg)
      ensures addr == IF ==> r == Some(ifReg)
    {
      if addr == IE then Some(ieReg) else if addr == IF then Some(ifReg) else None
    }

    /** `set8`: IE or IF; `ok` is false, and nothing changes, where the source panics. */
    method Set8(addr: u16, byte: u8) returns (ok: bool)
      modifies this
      ensures ok <==> addr == IE || addr == IF
      ensures ieReg == (if addr == IE then byte else old(ieReg))
      ensures ifReg == (if addr == IF then byte else old(ifReg))
      ensures ok ==> Get8(addr) == Some(byte)
    {
      if addr == IE {
        ieReg := byte;
      } else if addr == IF {
        ifReg := byte;
      } else {
        return false;
      }
      ok := true;
    }
  }
}
