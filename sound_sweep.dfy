/**
 * The frequency sweep of the first square channel (src/sound/sweep.rs):
 * every `sweep_period` sweep clocks the frequency moves by
 * `frequency >> shift`, and a frequency past 2047 switches the channel off.
 *
 * `CLOCK_FREQ` is defined outside the files modelled here and is a
 * parameter.
 */
module Sweeps {
  import opened Bits
  import opened Wrappers
  import opened Envelopes

  /** The largest 11-bit channel frequency. */
  const MAX_FREQUENCY: nat := 2047

  /** `SweepAction`: what the channel must do after a sweep operation. */
  datatype SweepAction = Disable | Nop | Update(frequency: u16)

  datatype SweepState = SweepState(enabled: bool, sweepPeriod: u8, direction: Direction, shift: u8,
                                   frequency: u16, ticksLeft: nat)

  /**
   * `Sweep::new_from_byte`: the period in bits 4-6, bit 3 clear for an
   * increasing sweep, the shift in bits 0-2; disabled, frequency 0.
   */
  function NewSweep(byte: u8): (s: SweepState)
    ensures !s.enabled && s.frequency == 0 && s.ticksLeft == 0
    ensures s.sweepPeriod <= 7 && s.shift <= 7
    ensures s.sweepPeriod * 16 + (if s.direction == Decrease then 8 else 0) + s.shift == byte % 0x80
  {
    SweepFields(byte);
    SweepState(false, (byte / 16) % 8, if Bit(byte, 3) == 0 then Increase else Decrease, byte % 8, 0, 0)
  }

  lemma SweepFields(byte: u8)
    ensures Bit(byte, 3) == (byte / 8) % 2
    ensures byte % 0x80 == ((byte / 16) % 8) * 16 + ((byte / 8) % 2) * 8 + byte % 8
  {
    NibbleBit3Split(byte);
    var hi := byte / 16;
    DivDiv(byte, 16, 8);
    DivUnique(hi, 8, byte / 0x80, hi % 8);
    DivUnique(byte, 0x80, byte / 0x80, (hi % 8) * 16 + ((byte / 8) % 2) * 8 + byte % 8);
  }

  /** The ticks between two sweep steps. */
  function SweepTicks(sweepPeriod: u8, clockFreq: nat): nat
  {
    (clockFreq / 128) * sweepPeriod
  }

  /** `frequency >> shift`. */
  function Delta(s: SweepState): (d: nat)
    ensures d <= s.frequency
  {
    var p := Pow2(s.shift);
    DivAtMost(s.frequency, p);
    s.frequency / p
  }

  /**
   * `new_frequency`: an increase past 2047 gives `None`; a decrease always
   * gives a frequency, and never below 0.  The sum is a 16-bit one.
   */
  function NewFrequency(s: SweepState): (r: Option<u16>)
    ensures s.direction == Decrease ==> r == Some(s.frequency - Delta(s))
    ensures s.direction == Increase && s.frequency + Delta(s) < 0x10000 ==>
      (r.None? <==> s.frequency + Delta(s) > MAX_FREQUENCY) && (r.Some? ==> r.value == s.frequency + Delta(s))
    ensures s.direction == Increase && r.Some? ==> r.value <= MAX_FREQUENCY
  {
    var delta := Delta(s);
    match s.direction
    case Increase =>
      var sum := Wrap16(s.frequency + delta);
      if sum > MAX_FREQUENCY then None else Some(sum)
    case Decrease => Some(s.frequency - delta)
  }

  /**
   * `tick` (called on sweep clocks): nothing while disabled or with period
   * 0.  With ticks left it counts one down.  Otherwise it reloads, and the
   * new frequency is taken and reported as `Update` when both it and the
   * one after it are valid; an invalid one gives `Disable`.
   */
  function SweepTick(s: SweepState, clockFreq: nat): (r: (SweepState, SweepAction))
    ensures !s.enabled || s.sweepPeriod == 0 ==> r == (s, Nop)
    ensures s.enabled && s.sweepPeriod != 0 && s.ticksLeft > 0 ==> r == (s.(ticksLeft := s.ticksLeft - 1), Nop)
    ensures r.1 != Nop ==> (s.enabled && s.sweepPeriod != 0 && s.ticksLeft == 0
      && r.0.ticksLeft == SweepTicks(s.sweepPeriod, clockFreq))
    ensures r.1.Update? ==> r.1.frequency == r.0.frequency && Some(r.0.frequency) == NewFrequency(s) && NewFrequency(r.0).Some?
    ensures r.1.Update? && s.direction == Increase ==> r.0.frequency <= MAX_FREQUENCY && NewFrequency(r.0).value <= MAX_FREQUENCY
    ensures r.1 == Disable <==> (s.enabled && s.sweepPeriod != 0 && s.ticksLeft == 0
      && (NewFrequency(s).None? || NewFrequency(s.(frequency := NewFrequency(s).value)).None?))
    ensures r.0.enabled == s.enabled && r.0.sweepPeriod == s.sweepPeriod && r.0.direction == s.direction && r.0.shift == s.shift
  {
    if !s.enabled || s.sweepPeriod == 0 then (s, Nop)
    else if s.ticksLeft == 0 then
      var reloaded := s.(ticksLeft := SweepTicks(s.sweepPeriod, clockFreq));
      match NewFrequency(reloaded)
      case None => (reloaded, Disable)
      case Some(f) =>
        var updated := reloaded.(frequency := f);
        match NewFrequency(updated)
        case None => (updated, Disable)
        case Some(_) => (updated, Update(updated.frequency))
    else (s.(ticksLeft := s.ticksLeft - 1), Nop)
  }

  /**
   * `trigger(frequency)`: take the channel's frequency, reload, and run
   * exactly when the period or the shift is non-zero; a running sweep whose
   * first step would overflow says `Disable` at once.
   */
  function SweepTrigger(s: SweepState, frequency: u16, clockFreq: nat): (r: (SweepState, SweepAction))
    ensures r.0.frequency == frequency && r.0.ticksLeft == SweepTicks(s.sweepPeriod, clockFreq)
    ensures r.0.enabled <==> s.sweepPeriod != 0 || s.shift != 0
    ensures r.1 == Disable <==> r.0.enabled && NewFrequency(r.0).None?
    ensures r.1 != Disable ==> r.1 == Nop
    ensures r.0.sweepPeriod == s.sweepPeriod && r.0.direction == s.direction && r.0.shift == s.shift
  {
    var t := s.(frequency := frequency, ticksLeft := SweepTicks(s.sweepPeriod, clockFreq),
                enabled := s.sweepPeriod != 0 || s.shift != 0);
    if t.enabled then
      match NewFrequency(t)
      case None => (t, Disable)
      case Some(_) => (t, Nop)
    else (t, Nop)
  }

  /** A decreasing sweep from a valid frequency never disables the channel. */
  lemma DecreaseNeverDisables(s: SweepState, frequency: u16, clockFreq: nat)
    requires s.direction == Decrease
    ensures SweepTrigger(s, frequency, clockFreq).1 == Nop
    ensures SweepTick(s, clockFreq).1 != Disable
  {
  }

  /**
   * With shift 0 an increasing sweep doubles the frequency, so any
   * frequency above 1023 disables the channel as soon as it triggers.
   */
  lemma ShiftZeroDoubles(s: SweepState, frequency: u16, clockFreq: nat)
    requires s.direction == Increase && s.shift == 0 && s.sweepPeriod != 0 && 1023 < frequency <= MAX_FREQUENCY
    ensures SweepTrigger(s, frequency, clockFreq).1 == Disable
  {
    var t := SweepTrigger(s, frequency, clockFreq).0;
    assert Delta(t) == frequency;
  }

  class Sweep {
    const clockFreq: nat
    var enabled: bool
    var sweepPeriod: u8
    var direction: Direction
    var shift: u8
    var frequency: u16
    var ticksLeft: nat

    function Model(): SweepState
      reads this
    {
      SweepState(enabled, sweepPeriod, direction, shift, frequency, ticksLeft)
    }

    /** `Sweep::new_from_byte`. */
    constructor (byte: u8, clockFreq: nat)
      ensures this.clockFreq == clockFreq && Model() == NewSweep(byte)
    {
      this.clockFreq := clockFreq;
      var s := NewSweep(byte);
      enabled, sweepPeriod, direction, shift, frequency, ticksLeft :=
        s.enabled, s.sweepPeriod, s.direction, s.shift, s.frequency, s.ticksLeft;
    }

    method Tick() returns (a: SweepAction)
      modifies this
      ensures (Model(), a) == SweepTick(old(Model()), clockFreq)
    {
      if !enabled || sweepPeriod == 0 {
        return Nop;
      }
      if ticksLeft == 0 {
        ticksLeft := SweepTicks(sweepPeriod, clockFreq);
        match NewFrequency(Model())
        case None =>
          a := Disable;
        case Some(f) =>
          frequency := f;
          match NewFrequency(Model())
          case None =>
            a := Disable;
          case Some(_) =>
            a := Update(frequency);
      } else {
        ticksLeft := ticksLeft - 1;
        a := Nop;
      }
    }

    method Trigger(frequency: u16) returns (a: SweepAction)
      modifies this
      ensures (Model(), a) == SweepTrigger(old(Model()), frequency, clockFreq)
    {
      this.frequency := frequency;
      ticksLeft := SweepTicks(sweepPeriod, clockFreq);
      enabled := sweepPeriod != 0 || shift != 0;
      if enabled {
        match NewFrequency(Model())
        case None =>
          a := Disable;
        case Some(_) =>
          a := Nop;
      } else {
        a := Nop;
      }
    }
  }
}
