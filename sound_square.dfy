/**
 * The square wave channels (src/sound/square.rs): a duty-cycle generator
 * that steps through eight duty positions, one every `2048 - frequency`
 * ticks, scaled by a volume envelope while the channel plays.
 */
module SquareWaves {
  import opened Bits
  import opened Envelopes

  /**
   * The duty table as the source writes it, which the generator samples.
   * Rows 0, 2 and 3 are the 12.5%, 50% and 75% waveforms; row 1 repeats the
   * 12.5% duty of row 0 (shifted) instead of the 25% waveform 10000001.
   */
  const DUTY_CYCLES: seq<seq<u8>> := [
    [0, 0, 0, 0, 0, 0, 0, 1],
    [1, 0, 0, 0, 0, 0, 0, 0],
    [1, 0, 0, 0, 0, 1, 1, 1],
    [0, 1, 1, 1, 1, 1, 1, 0]
  ]

  /** The duty table with row 1 the 25% waveform: the reference the source's table is compared with. */
  const DUTY_CYCLES_INTENDED: seq<seq<u8>> := [
    [0, 0, 0, 0, 0, 0, 0, 1],
    [1, 0, 0, 0, 0, 0, 0, 1],
    [1, 0, 0, 0, 0, 1, 1, 1],
    [0, 1, 1, 1, 1, 1, 1, 0]
  ]

  /** The number of high steps in a duty row. */
  function HighSteps(row: seq<u8>): nat
  {
    if row == [] then 0 else (if row[0] == 1 then 1 else 0) + HighSteps(row[1..])
  }

  /** As written, duty codes 0 and 1 both give one high step in eight: the same 12.5% duty. */
  lemma DutyAsWrittenRepeats()
    ensures HighSteps(DUTY_CYCLES[0]) == HighSteps(DUTY_CYCLES[1]) == 1
  {
    assert DUTY_CYCLES[0][1..] == [0, 0, 0, 0, 0, 0, 1];
    assert DUTY_CYCLES[1][1..] == [0, 0, 0, 0, 0, 0, 0];
  }

  /** In the intended table duty codes 0-3 give 1, 2, 4 and 6 high steps in eight: 12.5%, 25%, 50% and 75%. */
  lemma DutyFractions(d: nat)
    requires d < 4
    ensures HighSteps(DUTY_CYCLES_INTENDED[d]) == [1, 2, 4, 6][d]
  {
    var row := DUTY_CYCLES_INTENDED[d];
    RowSteps(row);
    if d == 0 {
      assert row == [0, 0, 0, 0, 0, 0, 0, 1];
    } else if d == 1 {
      assert row == [1, 0, 0, 0, 0, 0, 0, 1];
    } else if d == 2 {
      assert row == [1, 0, 0, 0, 0, 1, 1, 1];
    } else {
      assert row == [0, 1, 1, 1, 1, 1, 1, 0];
    }
  }

  /** Every duty row has eight steps, each low (0) or high (1). */
  lemma DutyLevels(d: nat)
    requires d < 4
    ensures |DUTY_CYCLES[d]| == 8 && forall i :: 0 <= i < 8 ==> DUTY_CYCLES[d][i] <= 1
  {
  }

  /** The high steps of an eight-step row, counted one step at a time. */
  lemma RowSteps(row: seq<u8>)
    requires |row| == 8
    ensures HighSteps(row) == (if row[0] == 1 then 1 else 0) + (if row[1] == 1 then 1 else 0)
      + (if row[2] == 1 then 1 else 0) + (if row[3] == 1 then 1 else 0) + (if row[4] == 1 then 1 else 0)
      + (if row[5] == 1 then 1 else 0) + (if row[6] == 1 then 1 else 0) + (if row[7] == 1 then 1 else 0)
  {
    assert row[0..] == row;
    assert HighSteps(row[0..]) == (if row[0] == 1 then 1 else 0) + HighSteps(row[1..]);
    assert HighSteps(row[1..]) == (if row[1] == 1 then 1 else 0) + HighSteps(row[2..]);
    assert HighSteps(row[2..]) == (if row[2] == 1 then 1 else 0) + HighSteps(row[3..]);
    assert HighSteps(row[3..]) == (if row[3] == 1 then 1 else 0) + HighSteps(row[4..]);
    assert HighSteps(row[4..]) == (if row[4] == 1 then 1 else 0) + HighSteps(row[5..]);
    assert HighSteps(row[5..]) == (if row[5] == 1 then 1 else 0) + HighSteps(row[6..]);
    assert HighSteps(row[6..]) == (if row[6] == 1 then 1 else 0) + HighSteps(row[7..]);
    assert HighSteps(row[7..]) == (if row[7] == 1 then 1 else 0) + HighSteps(row[8..]);
  }

  // ---------------------------------------------------------------------
  // Frequency registers (shared with the wave channel)

  /** `set_freq_lower`: `(f & 0x700) | data`: the low byte replaced, bits 8-10 kept, bits above cleared. */
  function FreqLower(f: u16, data: u8): (r: u16)
    ensures r % 0x100 == data && r / 0x100 == (f / 0x100) % 8
  {
    var r := ((f / 0x100) % 8) * 0x100 + data;
    DivUnique(r, 0x100, (f / 0x100) % 8, data);
    r
  }

  /** `set_freq_upper`: `(f & 0xFF) | (data << 8)`: the low byte kept, the high byte replaced. */
  function FreqUpper(f: u16, data: u8): (r: u16)
    ensures r % 0x100 == f % 0x100 && r / 0x100 == data
  {
    var r := data * 0x100 + f % 0x100;
    DivUnique(r, 0x100, data, f % 0x100);
    r
  }

  /** Writing both registers, in either order, sets the 11-bit frequency `hi * 256 + lo`. */
  lemma FrequencyWrites(f: u16, lo: u8, hi: u8)
    requires hi < 8
    ensures FreqLower(FreqUpper(f, hi), lo) == hi * 0x100 + lo
    ensures FreqUpper(FreqLower(f, lo), hi) == hi * 0x100 + lo
  {
    var u := FreqUpper(f, hi);
    var l := FreqLower(f, lo);
    assert FreqLower(u, lo) == (u / 0x100 % 8) * 0x100 + lo;
    assert FreqUpper(l, hi) == hi * 0x100 + l % 0x100;
  }

  // ---------------------------------------------------------------------
  // The duty generator

  datatype Gen = Gen(frequency: u16, timer: u16, dutyIndex: u8, cycleOffset: nat)

  /**
   * `WaveGen::tick`: at timer 0 move to the next duty position and reload
   * `2048 - frequency`; then count one down.  Both are 16-bit sums.
   */
  function GenTick(g: Gen): (r: Gen)
    ensures r.frequency == g.frequency && r.dutyIndex == g.dutyIndex
    ensures g.cycleOffset < 8 ==> r.cycleOffset < 8
    ensures g.timer > 0 ==> r == g.(timer := g.timer - 1)
    ensures g.timer == 0 && g.frequency < 2048 ==> r.cycleOffset == (g.cycleOffset + 1) % 8 && r.timer == 2047 - g.frequency
  {
    var reloaded := if g.timer == 0 then g.(cycleOffset := (g.cycleOffset + 1) % 8, timer := Wrap16(2048 - g.frequency)) else g;
    reloaded.(timer := Wrap16(reloaded.timer - 1))
  }

  /**
   * `WaveGen::sample`: the entry of the source's duty table; a duty index
   * above 3 makes the source panic.  It is the intended waveform's level at
   * every position but the last step of duty code 1, which is low.
   */
  function GenSample(g: Gen): (r: u8)
    requires g.dutyIndex < 4 && g.cycleOffset < 8
    ensures r <= 1
    ensures !(g.dutyIndex == 1 && g.cycleOffset == 7) ==> r == DUTY_CYCLES_INTENDED[g.dutyIndex][g.cycleOffset]
    ensures g.dutyIndex == 1 && g.cycleOffset == 7 ==> r == 0 && DUTY_CYCLES_INTENDED[1][7] == 1
  {
    DutyLevels(g.dutyIndex);
    DUTY_CYCLES[g.dutyIndex][g.cycleOffset]
  }

  function GenTicks(g: Gen, k: nat): Gen
    decreases k
  {
    if k == 0 then g else GenTicks(GenTick(g), k - 1)
  }

  lemma {:induction false} CountDown(g: Gen, k: nat)
    requires k <= g.timer
    ensures GenTicks(g, k) == g.(timer := g.timer - k)
    decreases k
  {
    if k > 0 {
      CountDown(GenTick(g), k - 1);
    }
  }

  /**
   * Each duty position lasts `2048 - frequency` ticks: from timer 0 that
   * many ticks move to the next position and bring the timer back to 0.
   */
  lemma DutyStepTicks(g: Gen)
    requires g.timer == 0 && g.frequency < 2048 && g.cycleOffset < 8
    ensures GenTicks(g, 2048 - g.frequency) == g.(cycleOffset := (g.cycleOffset + 1) % 8)
  {
    var n := 2048 - g.frequency;
    var first := GenTick(g);
    assert first == g.(cycleOffset := (g.cycleOffset + 1) % 8, timer := n - 1);
    assert GenTicks(g, n) == GenTicks(first, n - 1);
    CountDown(first, n - 1);
  }

  class WaveGen {
    var frequency: u16
    var timer: u16
    var dutyIndex: u8
    var cycleOffset: nat

    function Model(): Gen
      reads this
    {
      Gen(frequency, timer, dutyIndex, cycleOffset)
    }

    constructor ()
      ensures Model() == Gen(0, 0, 0, 0)
    {
      frequency, timer, dutyIndex, cycleOffset := 0, 0, 0, 0;
    }

    method SetFreqLower(data: u8)
      modifies this
      ensures Model() == old(Model()).(frequency := FreqLower(old(frequency), data))
    {
      frequency := FreqLower(frequency, data);
    }

    method SetFreqUpper(data: u8)
      modifies this
      ensures Model() == old(Model()).(frequency := FreqUpper(old(frequency), data))
    {
      frequency := FreqUpper(frequency, data);
    }

    method SetDuty(d: u8)
      modifies this
      ensures Model() == old(Model()).(dutyIndex := d)
    {
      dutyIndex := d;
    }

    method Tick()
      modifies this
      ensures Model() == GenTick(old(Model()))
    {
      if timer == 0 {
        cycleOffset := (cycleOffset + 1) % 8;
        timer := Wrap16(2048 - frequency);
      }
      timer := Wrap16(timer - 1);
    }
  }

  // ---------------------------------------------------------------------
  // The channel

  datatype Square = Square(playing: bool, gen: Gen, envelope: Envelope)

  /** `SquareWave::tick`: nothing while not playing; otherwise the generator and the envelope tick. */
  function SquareTick(s: Square, clockFreq: nat): (r: Square)
    requires clockFreq >= 64
    ensures !s.playing ==> r == s
    ensures s.playing ==> r == s.(gen := GenTick(s.gen), envelope := EnvelopeTick(s.envelope, clockFreq))
  {
    if !s.playing then s
    else s.(gen := GenTick(s.gen), envelope := EnvelopeTick(s.envelope, clockFreq))
  }

  /** `SquareWave::sample`: 0 while not playing; otherwise 0 at a low duty step and the volume at a high one. */
  function SquareSample(s: Square): (r: u8)
    requires s.gen.dutyIndex < 4 && s.gen.cycleOffset < 8 && s.envelope.volume <= 15
    ensures r <= 15
    ensures !s.playing ==> r == 0
    ensures s.playing ==> r == GenSample(s.gen) * s.envelope.volume
  {
    if s.playing then Apply(s.envelope, GenSample(s.gen)) else 0
  }

  class SquareWave {
    var playing: bool
    const gen: WaveGen
    const envelope: VolumeEnvelope

    function Model(): Square
      reads this, gen, envelope
    {
      Square(playing, gen.Model(), envelope.Model())
    }

    ghost predicate Valid()
      reads this, gen, envelope
    {
      gen.cycleOffset < 8 && envelope.Valid()
    }

    /** `SquareWave::new`: not playing, the envelope from byte 0xF3. */
    constructor (clockFreq: nat)
      requires clockFreq >= 64
      ensures Valid() && fresh(gen) && fresh(envelope) && envelope.clockFreq == clockFreq
      ensures Model() == Square(false, Gen(0, 0, 0, 0), NewEnvelope(0xF3, clockFreq))
    {
      playing := false;
      gen := new WaveGen();
      envelope := new VolumeEnvelope(0xF3, clockFreq);
    }

    method Tick()
      requires Valid()
      modifies gen, envelope
      ensures Valid() && Model() == SquareTick(old(Model()), envelope.clockFreq)
    {
      if !playing {
        return;
      }
      gen.Tick();
      envelope.Tick();
    }

    function Sample(): (r: u8)
      requires Valid() && gen.dutyIndex < 4
      reads this, gen, envelope
      ensures r == SquareSample(Model())
    {
      if playing then Apply(envelope.Model(), GenSample(gen.Model())) else 0
    }

    method SetDuty(d: u8)
      requires Valid()
      modifies gen
      ensures Valid() && Model() == old(Model()).(gen := old(gen.Model()).(dutyIndex := d))
    {
      gen.SetDuty(d);
    }

    method SetFreqLower(data: u8)
      requires Valid()
      modifies gen
      ensures Valid() && Model() == old(Model()).(gen := old(gen.Model()).(frequency := FreqLower(old(gen.frequency), data)))
    {
      gen.SetFreqLower(data);
    }

    method SetFreqUpper(data: u8)
      requires Valid()
      modifies gen
      ensures Valid() && Model() == old(Model()).(gen := old(gen.Model()).(frequency := FreqUpper(old(gen.frequency), data)))
    {
      gen.SetFreqUpper(data);
    }

    /** `set_volume_envelope`: the channel takes over the given envelope. */
    method SetVolumeEnvelope(e: Envelope)
      requires Valid() && e.volume <= 15
      modifies envelope
      ensures Valid() && Model() == old(Model()).(envelope := e)
    {
      envelope.Assign(e);
    }

    /** `restart`: the channel plays. */
    method Restart()
      requires Valid()
      modifies this
      ensures Valid() && Model() == old(Model()).(playing := true)
    {
      playing := true;
    }
  }
}
