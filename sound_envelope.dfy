/**
 * The volume envelope (src/sound/envelope.rs): a volume 0-15 that steps
 * up or down by one every `period * CLOCK_FREQ / 64` ticks, and scales the
 * channel's samples.
 *
 * `CLOCK_FREQ` is a parameter of at least 64, so that a running envelope
 * period lasts at least one tick.
 */
module Envelopes {
  import opened Bits

  datatype Direction = Increase | Decrease

  datatype Envelope = Envelope(volume: u8, direction: Direction, period: u8, ticksLeft: nat)

  /** The ticks between two volume steps. */
  function PeriodTicks(period: u8, clockFreq: nat): nat
  {
    period * clockFreq / 64
  }

  /**
   * `new_from_byte`: the volume in the high nibble, bit 3 clear for a
   * decreasing envelope, the period in bits 0-2.
   */
  function NewEnvelope(byte: u8, clockFreq: nat): (e: Envelope)
    ensures e.volume <= 15 && e.period <= 7
    ensures e.volume * 16 + (if e.direction == Increase then 8 else 0) + e.period == byte
    ensures e.ticksLeft == PeriodTicks(e.period, clockFreq)
  {
    var volume := byte / 16;
    var direction := if Bit(byte, 3) == 0 then Decrease else Increase;
    var period := byte % 8;
    NibbleBit3Split(byte);
    Envelope(volume, direction, period, PeriodTicks(period, clockFreq))
  }

  /**
   * `tick`: a period of 0 stops the envelope.  Otherwise, when no ticks
   * are left the period is reloaded and the volume takes a step in its
   * direction, stopping at 0 and 15; one tick is used either way.
   */
  function EnvelopeTick(e: Envelope, clockFreq: nat): (r: Envelope)
    requires clockFreq >= 64
    ensures e.period == 0 ==> r == e
    ensures r.direction == e.direction && r.period == e.period
    ensures e.volume <= 15 ==> r.volume <= 15
    ensures e.ticksLeft != 0 || e.period == 0 ==> r.volume == e.volume
    ensures e.direction == Increase ==> e.volume <= r.volume <= e.volume + 1
    ensures e.direction == Decrease ==> e.volume - 1 <= r.volume <= e.volume
    ensures e.period != 0 && e.ticksLeft == 0 && e.direction == Increase && e.volume < 15 ==> r.volume == e.volume + 1
    ensures e.period != 0 && e.ticksLeft == 0 && e.direction == Decrease && e.volume > 0 ==> r.volume == e.volume - 1
  {
    if e.period == 0 then e
    else
      var stepped :=
        if e.ticksLeft == 0 then
          var volume := match e.direction
            case Decrease => if e.volume > 0 then e.volume - 1 else e.volume
            case Increase => if e.volume < 15 then e.volume + 1 else e.volume;
          e.(ticksLeft := PeriodTicks(e.period, clockFreq), volume := volume)
        else e;
      assert stepped.ticksLeft > 0 by {
        if e.ticksLeft == 0 { assert e.period * clockFreq >= 64; }
      }
      stepped.(ticksLeft := stepped.ticksLeft - 1)
  }

  /**
   * `apply(input)`: the input scaled by the volume, an 8-bit product.  For
   * the 0/1 samples the channels pass in it is 0 or the volume.
   */
  function Apply(e: Envelope, input: u8): (r: u8)
    ensures input <= 1 && e.volume <= 15 ==> r == input * e.volume && r <= 15
  {
    Wrap8(input * e.volume)
  }

  /** `k` ticks in a row. */
  function Ticks(e: Envelope, clockFreq: nat, k: nat): Envelope
    requires clockFreq >= 64
    decreases k
  {
    if k == 0 then e else Ticks(EnvelopeTick(e, clockFreq), clockFreq, k - 1)
  }

  /**
   * However long it runs, an envelope keeps its volume in 0-15 and moves it
   * only in its direction.
   */
  lemma {:induction false} Monotone(e: Envelope, clockFreq: nat, k: nat)
    requires clockFreq >= 64 && e.volume <= 15
    ensures Ticks(e, clockFreq, k).volume <= 15
    ensures e.direction == Increase ==> Ticks(e, clockFreq, k).volume >= e.volume
    ensures e.direction == Decrease ==> Ticks(e, clockFreq, k).volume <= e.volume
    ensures Ticks(e, clockFreq, k).direction == e.direction
    decreases k
  {
    if k > 0 {
      Monotone(EnvelopeTick(e, clockFreq), clockFreq, k - 1);
    }
  }

  class VolumeEnvelope {
    const clockFreq: nat
    var volume: u8
    var direction: Direction
    var period: u8
    var ticksLeft: nat

    function Model(): Envelope
      reads this
    {
      Envelope(volume, direction, period, ticksLeft)
    }

    ghost predicate Valid()
      reads this
    {
      clockFreq >= 64 && volume <= 15
    }

    /** `VolumeEnvelope::new_from_byte`. */
    constructor (byte: u8, clockFreq: nat)
      requires clockFreq >= 64
      ensures Valid() && this.clockFreq == clockFreq && Model() == NewEnvelope(byte, clockFreq)
    {
      this.clockFreq := clockFreq;
      var e := NewEnvelope(byte, clockFreq);
      volume, direction, period, ticksLeft := e.volume, e.direction, e.period, e.ticksLeft;
    }

    /** Taking over the value of another envelope, as the channels' `set_volume_envelope` does. */
    method Assign(e: Envelope)
      requires clockFreq >= 64 && e.volume <= 15
      modifies this
      ensures Valid() && Model() == e
    {
      volume, direction, period, ticksLeft := e.volume, e.direction, e.period, e.ticksLeft;
    }

    method Tick()
      requires Valid()
      modifies this
      ensures Valid() && Model() == EnvelopeTick(old(Model()), clockFreq)
    {
      if period == 0 {
        return;
      }
      if ticksLeft == 0 {
        ticksLeft := PeriodTicks(period, clockFreq);
        match direction
        case Decrease =>
          if volume > 0 {
            volume := volume - 1;
          }
        case Increase =>
          if volume < 15 {
            volume := volume + 1;
          }
      }
      assert ticksLeft > 0 by {
        assert period * clockFreq >= 64;
      }
      ticksLeft := ticksLeft - 1;
    }
  }
}
