/**
 * The serial port (src/serial.rs): the data register SB at 0xFF01 and the
 * control register SC at 0xFF02.  Writing SC with bit 7 set starts a
 * transfer; with the internal clock (bit 0) the transfer completes once more
 * than `CLOCKS_PER_SERIAL_BIT_SHIFT` clocks have passed, shifting a 1 into
 * SB, clearing bit 7 and raising the Serial interrupt.  No other Game Boy is
 * attached, so the bit shifted in is always 1.
 *
 * `CLOCKS_PER_SERIAL_BIT_SHIFT` is defined outside the files modelled here
 * and is a constructor parameter.
 */
module SerialPort {
  import opened Bits
  import opened Wrappers
  import Interrupts

  const SB: u16 := 0xFF01
  const SC: u16 := 0xFF02

  datatype SerialState = SerialState(sb: u8, sc: u8, clocksToShift: nat)

  /** A transfer is in progress and driven by the internal clock: bits 7 and 0 of SC. */
  predicate Shifting(sc: u8)
  {
    Bit(sc, 7) == 1 && Bit(sc, 0) == 1
  }

  /** `(sb << 1) | 1` on a byte: the top bit falls off and a 1 comes in. */
  function ShiftIn(sb: u8): (r: u8)
    ensures r == (sb * 2) % 0x100 + 1
  {
    OrDisjoint(1, (sb * 2) % 0x100, ((sb * 2) % 0x100) / 2, 1);
    Or((sb * 2) % 0x100, 1)
  }

  /** `sc ^ (1 << 7)` when bit 7 is set: bit 7 is cleared and the others kept. */
  function ClearBit7(sc: u8): (r: u8)
    requires Bit(sc, 7) == 1
    ensures Bit(r, 7) == 0
    ensures forall j: nat :: j != 7 ==> Bit(r, j) == Bit(sc, j)
  {
    SmallPow2(7);
    ByteOps(sc, 0x80);
    forall j: nat ensures Bit(Xor(sc, Pow2(7)), j) == if j == 7 then 1 - Bit(sc, j) else Bit(sc, j) {
      FlipBitBits(sc, 7, j);
    }
    Xor(sc, 0x80)
  }

  /**
   * `tick(clocks)`: nothing happens unless a transfer is shifting; it
   * completes when fewer clocks are left than have passed, and otherwise
   * the clocks are counted off.
   */
  function TickSerial(s: SerialState, clocks: nat): (r: (SerialState, seq<Interrupts.Interrupt>))
    ensures !Shifting(s.sc) ==> r == (s, [])
    ensures Shifting(s.sc) && s.clocksToShift < clocks ==>
      r.1 == [Interrupts.Serial] && r.0.sb == (s.sb * 2) % 0x100 + 1 && Bit(r.0.sc, 7) == 0
      && (forall j: nat :: j != 7 ==> Bit(r.0.sc, j) == Bit(s.sc, j)) && r.0.clocksToShift == s.clocksToShift
    ensures Shifting(s.sc) && clocks <= s.clocksToShift ==>
      r == (s.(clocksToShift := s.clocksToShift - clocks), [])
  {
    if Shifting(s.sc) then
      if s.clocksToShift < clocks then
        (s.(sb := ShiftIn(s.sb), sc := ClearBit7(s.sc)), [Interrupts.Serial])
      else
        (s.(clocksToShift := s.clocksToShift - clocks), [])
    else (s, [])
  }

  /** A completed transfer leaves the port idle: later ticks change nothing and raise nothing. */
  lemma IdleAfterTransfer(s: SerialState, clocks: nat, later: nat)
    requires Shifting(s.sc) && s.clocksToShift < clocks
    ensures TickSerial(TickSerial(s, clocks).0, later) == (TickSerial(s, clocks).0, [])
  {
  }

  function GetSerial(s: SerialState, addr: u16): (r: Option<u8>)
    ensures r.Some? <==> addr == SB || addr == SC
  {
    if addr == SB then Some(s.sb) else if addr == SC then Some(s.sc) else None
  }

  /** `set8`: SB is stored; an SC write that sets bit 7 where it was clear reloads the shift countdown. */
  function SetSerial(clocksPerShift: nat, s: SerialState, addr: u16, byte: u8): (r: Option<SerialState>)
    ensures r.Some? <==> addr == SB || addr == SC
    ensures r.Some? ==> GetSerial(r.value, addr) == Some(byte)
    ensures addr == SB ==> r.value.sc == s.sc && r.value.clocksToShift == s.clocksToShift
    ensures addr == SC ==> r.value.sb == s.sb
    ensures addr == SC ==> r.value.clocksToShift == if Bit(s.sc, 7) == 0 && Bit(byte, 7) == 1 then clocksPerShift else s.clocksToShift
  {
    if addr == SB then Some(s.(sb := byte))
    else if addr == SC then
      Some(s.(sc := byte, clocksToShift := if Bit(s.sc, 7) == 0 && Bit(byte, 7) == 1 then clocksPerShift else s.clocksToShift))
    else None
  }

  /**
   * Starting a transfer from idle by writing 0x81 to SC, the first tick of
   * more than `CLOCKS_PER_SERIAL_BIT_SHIFT` clocks completes it: SB takes a 1
   * from the right, SC reads 0x01 and one Serial interrupt is raised.
   */
  lemma TransferCompletes(clocksPerShift: nat, s: SerialState, clocks: nat)
    requires Bit(s.sc, 7) == 0 && clocks > clocksPerShift
    ensures var started := SetSerial(clocksPerShift, s, SC, 0x81).value;
      TickSerial(started, clocks) == (SerialState((s.sb * 2) % 0x100 + 1, 0x01, clocksPerShift), [Interrupts.Serial])
  {
    var started := SetSerial(clocksPerShift, s, SC, 0x81).value;
    assert Bit(0x81, 7) == 1 && Bit(0x81, 0) == 1;
    assert started == s.(sc := 0x81, clocksToShift := clocksPerShift);
    assert TickSerial(started, clocks) == (started.(sb := ShiftIn(s.sb), sc := ClearBit7(0x81)), [Interrupts.Serial]);
    assert ClearBit7(0x81) == 0x01 by {
      assert Xor(0x81, 0x80) == 0x01;
    }
  }

  class SerialController {
    const clocksPerShift: nat
    var sb: u8
    var sc: u8
    var clocksToShift: nat

    function Model(): SerialState
      reads this
    {
      SerialState(sb, sc, clocksToShift)
    }

    constructor (clocksPerShift: nat)
      ensures this.clocksPerShift == clocksPerShift && Model() == SerialState(0, 0, 0)
    {
      this.clocksPerShift := clocksPerShift;
      sb, sc, clocksToShift := 0, 0, 0;
    }

    /** `tick`; the interrupt the source fires through its callback is returned. */
    method Tick(clocks: nat) returns (fired: seq<Interrupts.Interrupt>)
      modifies this
      ensures (Model(), fired) == TickSerial(old(Model()), clocks)
    {
      fired := [];
      if Bit(sc, 7) == 1 && Bit(sc, 0) == 1 {
        if clocksToShift < clocks {
          sb := ShiftIn(sb);
          sc := ClearBit7(sc);
          fired := [Interrupts.Serial];
        } else {
          clocksToShift := clocksToShift - clocks;
        }
      }
    }

    function Get8(addr: u16): (r: Option<u8>)
      reads this
      ensures r == GetSerial(Model(), addr)
    {
      if addr == SB then Some(sb) else if addr == SC then Some(sc) else None
    }

    /** `set8`; `ok` is false, and nothing changes, where the source panics. */
    method Set8(addr: u16, byte: u8) returns (ok: bool)
      modifies this
      ensures ok <==> addr == SB || addr == SC
      ensures ok ==> SetSerial(clocksPerShift, old(Model()), addr, byte) == Some(Model())
      ensures !ok ==> Model() == old(Model())
    {
      if addr == SB {
        sb := byte;
      } else if addr == SC {
        if Bit(sc, 7) == 0 && Bit(byte, 7) == 1 {
          clocksToShift := clocksPerShift;
        }
        sc := byte;
      } else {
        return false;
      }
      ok := true;
    }
  }
}
