/**
 * The noise channel (src/sound/noise.rs): a linear-feedback shift register
 * clocked every `frequency()` ticks, whose bit 0 is the channel's 0/1
 * sample, scaled by a volume envelope.
 *
 * `CLOCK_FREQ` is defined outside the files modelled here and is a
 * parameter; the `u32` quotient it feeds is truncated to 16 bits as the
 * source's `as u16` does.
 */
module NoiseChannel {
  import opened Bits
  import opened Envelopes

  /** `DIVISORS`, indexed by the divisor code. */
  const DIVISORS: seq<nat> := [8, 16, 32, 48, 64, 80, 96, 112]

  datatype LfsrState = LfsrState(bits: u16, freqShift: u8, len: u8, divisorCode: nat, timer: u16)

  /** What `new_from_byte` guarantees and `tick` relies on: a code that indexes `DIVISORS`, a length of 7 or 15. */
  predicate LfsrOk(s: LfsrState)
  {
    s.divisorCode < |DIVISORS| && (s.len == 7 || s.len == 15)
  }

  /**
   * `Lfsr::new_from_byte`: all ones, the shift in the high nibble, a 15-bit
   * register when bit 3 is clear and a 7-bit one when it is set, the
   * divisor code in bits 0-2, timer 0.
   */
  function NewLfsr(byte: u8): (s: LfsrState)
    ensures LfsrOk(s) && s.bits == 0xFFFF && s.timer == 0 && s.freqShift <= 15
    ensures s.freqShift * 16 + (if s.len == 7 then 8 else 0) + s.divisorCode == byte
  {
    NibbleBit3Split(byte);
    LfsrState(0xFFFF, (byte / 16) % 16, if Bit(byte, 3) == 0 then 15 else 7, byte % 8, 0)
  }

  /** `frequency`: the ticks between two shifts, `(CLOCK_FREQ / divisor) >> shift` cut to 16 bits. */
  function LfsrFrequency(s: LfsrState, clockFreq: nat): (r: u16)
    requires LfsrOk(s)
    ensures clockFreq / DIVISORS[s.divisorCode] < 0x1_0000 ==> r <= clockFreq / DIVISORS[s.divisorCode]
  {
    var q := clockFreq / DIVISORS[s.divisorCode];
    DivAtMost(q, Pow2(s.freqShift));
    Wrap16(q / Pow2(s.freqShift))
  }

  /** Each step of the shift halves the frequency while the quotient fits in 16 bits. */
  lemma FrequencyHalves(s: LfsrState, clockFreq: nat)
    requires LfsrOk(s) && s.freqShift < 0xFF && clockFreq / DIVISORS[s.divisorCode] < 0x1_0000
    ensures LfsrFrequency(s.(freqShift := s.freqShift + 1), clockFreq) == LfsrFrequency(s, clockFreq) / 2
  {
    var q := clockFreq / DIVISORS[s.divisorCode];
    var p := Pow2(s.freqShift);
    DivAtMost(q, p);
    DivAtMost(q, p * 2);
    DivDiv(q, p, 2);
    assert Pow2(s.freqShift + 1) == p * 2;
  }

  /** The feedback bit `(bits & 1) ^ ((bits >> 1) & 1)`: whether bits 0 and 1 differ. */
  function Feedback(bits: u16): (b: nat)
    ensures b == if Bit(bits, 0) != Bit(bits, 1) then 1 else 0
  {
    AndOne(bits);
    AndOne(bits / 2);
    Xor(And(bits, 1), And(bits / 2, 1))
  }

  lemma Pow2Values()
    ensures Pow2(6) == 64 && Pow2(7) == 128 && Pow2(14) == 0x4000 && Pow2(15) == 0x8000
  {
    SmallPow2(6);
    SmallPow2(7);
    assert Pow2(10) == 1024;
    assert Pow2(14) == 0x4000;
  }

  /** One shift: `(feedback << (len - 1)) | (bits >> 1)`. */
  function Shifted(bits: u16, len: u8): (r: u16)
    requires len == 7 || len == 15
    ensures r < 0x8000
    ensures len == 7 && bits < 0x80 ==> r < 0x80
  {
    ShiftedBound(bits, len);
    Or(Feedback(bits) * Pow2(len - 1), bits / 2)
  }

  lemma ShiftedBound(bits: u16, len: u8)
    requires len == 7 || len == 15
    ensures Or(Feedback(bits) * Pow2(len - 1), bits / 2) < 0x8000
    ensures len == 7 && bits < 0x80 ==> Or(Feedback(bits) * Pow2(len - 1), bits / 2) < 0x80
  {
    var fb := Feedback(bits);
    Pow2Values();
    assert fb * Pow2(len - 1) < Pow2(len) <= Pow2(15);
    OrBound(fb * Pow2(len - 1), bits / 2, 15);
    if len == 7 && bits < 0x80 {
      OrBound(fb * Pow2(len - 1), bits / 2, 7);
    }
  }

  /**
   * A shift moves every bit down by one, except bit `len - 1`, which becomes
   * set when bits 0 and 1 differed or when the bit above it was set.
   */
  lemma ShiftedBits(bits: u16, len: u8, i: nat)
    requires len == 7 || len == 15
    ensures Bit(Shifted(bits, len), i) ==
      if i == len - 1 then (if Bit(bits, 0) != Bit(bits, 1) || Bit(bits, len) == 1 then 1 else 0)
      else Bit(bits, i + 1)
  {
    var fb := Feedback(bits);
    BitOr(fb * Pow2(len - 1), bits / 2, i);
    if fb == 1 {
      BitPow2(len - 1, i);
    } else {
      BitZero(i);
    }
  }

  /** A shift outputs the old bit 1 next. */
  lemma ShiftedSample(bits: u16, len: u8)
    requires len == 7 || len == 15
    ensures Bit(Shifted(bits, len), 0) == Bit(bits, 1)
  {
    ShiftedBits(bits, len, 0);
  }

  /** The register locks up exactly at zero: a non-zero register stays non-zero. */
  lemma ShiftedZero(bits: u16, len: u8)
    requires len == 7 || len == 15
    ensures Shifted(bits, len) == 0 <==> bits == 0
  {
    var fb := Feedback(bits);
    OrZero(fb * Pow2(len - 1), bits / 2);
    if bits / 2 == 0 && bits != 0 {
      assert bits == 1;
      assert Bit(bits, 1) == Bit(0, 0);
    }
  }

  /**
   * Once the bits at and above `len` are clear, a shift is the textbook
   * one: the register moves down and the feedback bit enters at the top.
   */
  lemma ShiftedWithinLength(bits: u16, len: u8)
    requires len == 7 || len == 15
    requires bits < Pow2(len)
    ensures Shifted(bits, len) == Feedback(bits) * Pow2(len - 1) + bits / 2
    ensures Shifted(bits, len) < Pow2(len)
  {
    assert Pow2(len) == 2 * Pow2(len - 1);
    OrDisjoint(bits / 2, Feedback(bits) * Pow2(len - 1), Feedback(bits), len - 1);
  }

  /** From the all-ones reset value, the first shift clears bit 15 and keeps the rest. */
  lemma ResetShift(len: u8)
    requires len == 7 || len == 15
    ensures Shifted(0xFFFF, len) == 0x7FFF
  {
    assert Bit(0xFFFF, 1) == Bit(0x7FFF, 0);
    assert Feedback(0xFFFF) == 0;
  }

  /** `sample`: bit 0 of the register. */
  function LfsrSample(s: LfsrState): (r: u8)
    ensures r == Bit(s.bits, 0)
  {
    AndOne(s.bits);
    And(s.bits, 1)
  }

  /**
   * `tick`: with the timer at 0 the timer reloads from `frequency()` and
   * the register shifts; otherwise the timer counts one down.
   */
  function LfsrTick(s: LfsrState, clockFreq: nat): (r: LfsrState)
    requires LfsrOk(s)
    ensures LfsrOk(r) && r.freqShift == s.freqShift && r.len == s.len && r.divisorCode == s.divisorCode
    ensures s.timer != 0 ==> r.bits == s.bits && r.timer == s.timer - 1
    ensures s.timer == 0 ==> r.timer == LfsrFrequency(s, clockFreq) && r.bits < 0x8000
    ensures s.timer == 0 ==> LfsrSample(r) == Bit(s.bits, 1) && (r.bits == 0 <==> s.bits == 0)
  {
    if s.timer == 0 then
      ShiftedSample(s.bits, s.len);
      ShiftedZero(s.bits, s.len);
      s.(timer := LfsrFrequency(s, clockFreq), bits := Shifted(s.bits, s.len))
    else s.(timer := s.timer - 1)
  }

  /** `reset`: all ones again, and a full period before the next shift. */
  function LfsrReset(s: LfsrState, clockFreq: nat): (r: LfsrState)
    requires LfsrOk(s)
    ensures LfsrOk(r) && r.freqShift == s.freqShift && r.len == s.len && r.divisorCode == s.divisorCode
    ensures r.bits == 0xFFFF && LfsrSample(r) == 1 && r.timer == LfsrFrequency(s, clockFreq)
  {
    s.(bits := 0xFFFF, timer := LfsrFrequency(s, clockFreq))
  }

  datatype NoiseState = NoiseState(playing: bool, lfsr: LfsrState, envelope: Envelope)

  /** `Noise::new`: silent, register and envelope from byte 0. */
  function NewNoise(clockFreq: nat): (n: NoiseState)
    ensures !n.playing && LfsrOk(n.lfsr) && n.envelope.volume == 0 && n.lfsr.len == 15
  {
    NoiseState(false, NewLfsr(0), NewEnvelope(0, clockFreq))
  }

  /** `tick`: a silent channel is frozen; a playing one ticks register and envelope. */
  function NoiseTick(n: NoiseState, clockFreq: nat): (r: NoiseState)
    requires clockFreq >= 64 && LfsrOk(n.lfsr)
    ensures !n.playing ==> r == n
    ensures n.playing ==> r.lfsr == LfsrTick(n.lfsr, clockFreq) && r.envelope == EnvelopeTick(n.envelope, clockFreq)
    ensures r.playing == n.playing && LfsrOk(r.lfsr)
  {
    if !n.playing then n
    else n.(lfsr := LfsrTick(n.lfsr, clockFreq), envelope := EnvelopeTick(n.envelope, clockFreq))
  }

  /** `sample`: 0 when silent, else the register's bit scaled by the envelope. */
  function NoiseSample(n: NoiseState): (r: u8)
    ensures !n.playing ==> r == 0
    ensures n.playing && n.envelope.volume <= 15 ==> r == Bit(n.lfsr.bits, 0) * n.envelope.volume
  {
    if n.playing then Apply(n.envelope, LfsrSample(n.lfsr)) else 0
  }

  /** `restart`: the channel plays, and its first sample is the envelope's full volume. */
  function NoiseRestart(n: NoiseState, clockFreq: nat): (r: NoiseState)
    requires LfsrOk(n.lfsr)
    ensures r.playing && r.envelope == n.envelope && r.lfsr == LfsrReset(n.lfsr, clockFreq)
    ensures n.envelope.volume <= 15 ==> NoiseSample(r) == n.envelope.volume
  {
    n.(playing := true, lfsr := LfsrReset(n.lfsr, clockFreq))
  }

  class Lfsr {
    const clockFreq: nat
    var bits: u16
    var freqShift: u8
    var len: u8
    var divisorCode: nat
    var timer: u16

    function Model(): LfsrState
      reads this
    {
      LfsrState(bits, freqShift, len, divisorCode, timer)
    }

    ghost predicate Valid()
      reads this
    {
      LfsrOk(Model())
    }

    /** `Lfsr::new_from_byte`. */
    constructor (byte: u8, clockFreq: nat)
      ensures Valid() && this.clockFreq == clockFreq && Model() == NewLfsr(byte)
    {
      this.clockFreq := clockFreq;
      var s := NewLfsr(byte);
      bits, freqShift, len, divisorCode, timer := s.bits, s.freqShift, s.len, s.divisorCode, s.timer;
    }

    /** Taking over the value of another register, as `set_lsrf` does. */
    method Assign(s: LfsrState)
      requires LfsrOk(s)
      modifies this
      ensures Valid() && Model() == s
    {
      bits, freqShift, len, divisorCode, timer := s.bits, s.freqShift, s.len, s.divisorCode, s.timer;
    }

    function Frequency(): (r: u16)
      requires Valid()
      reads this
      ensures r == LfsrFrequency(Model(), clockFreq)
    {
      LfsrFrequency(Model(), clockFreq)
    }

    method Tick()
      requires Valid()
      modifies this
      ensures Valid() && Model() == LfsrTick(old(Model()), clockFreq)
    {
      if timer == 0 {
        timer := Frequency();
        bits := Shifted(bits, len);
      } else {
        timer := timer - 1;
      }
    }

    function Sample(): (r: u8)
      reads this
      ensures r == LfsrSample(Model())
    {
      LfsrSample(Model())
    }

    method Reset()
      requires Valid()
      modifies this
      ensures Valid() && Model() == LfsrReset(old(Model()), clockFreq)
    {
      bits := 0xFFFF;
      timer := Frequency();
    }
  }

  class Noise {
    var playing: bool
    const lfsr: Lfsr
    const envelope: VolumeEnvelope

    function Model(): NoiseState
      reads this, lfsr, envelope
    {
      NoiseState(playing, lfsr.Model(), envelope.Model())
    }

    ghost predicate Valid()
      reads this, lfsr, envelope
    {
      lfsr.Valid() && envelope.Valid() && lfsr.clockFreq == envelope.clockFreq
    }

    /** `Noise::new`. */
    constructor (clockFreq: nat)
      requires clockFreq >= 64
      ensures Valid() && fresh(lfsr) && fresh(envelope) && envelope.clockFreq == clockFreq
      ensures Model() == NewNoise(clockFreq)
    {
      playing := false;
      lfsr := new Lfsr(0x00, clockFreq);
      envelope := new VolumeEnvelope(0x00, clockFreq);
    }

    method Tick()
      requires Valid()
      modifies lfsr, envelope
      ensures Valid() && Model() == NoiseTick(old(Model()), envelope.clockFreq)
    {
      if !playing {
        return;
      }
      lfsr.Tick();
      envelope.Tick();
    }

    function Sample(): (r: u8)
      reads this, lfsr, envelope
      ensures r == NoiseSample(Model())
    {
      if playing then Apply(envelope.Model(), lfsr.Sample()) else 0
    }

    /** `set_lsrf`: the channel takes over the given register. */
    method SetLfsr(s: LfsrState)
      requires Valid() && LfsrOk(s)
      modifies lfsr
      ensures Valid() && Model() == old(Model()).(lfsr := s)
    {
      lfsr.Assign(s);
    }

    /** `set_volume_envelope`: the channel takes over the given envelope. */
    method SetVolumeEnvelope(e: Envelope)
      requires Valid() && e.volume <= 15
      modifies envelope
      ensures Valid() && Model() == old(Model()).(envelope := e)
    {
      envelope.Assign(e);
    }

    /** `restart`. */
    method Restart()
      requires Valid()
      modifies this, lfsr
      ensures Valid() && Model() == NoiseRestart(old(Model()), envelope.clockFreq)
    {
      playing := true;
      lfsr.Reset();
    }
  }
}
