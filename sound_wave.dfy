/**
 * The wave channel (src/sound/wave.rs): 32 four-bit samples played in a
 * loop, one every `(2048 - frequency) / 2` ticks, at one of four volume
 * shifts, gated by a DAC switch and a 256-step length counter.
 */
module WaveChannel {
  import opened Bits
  import opened LengthCounters
  import FrameSequencers
  import SquareWaves

  const WAVE_TABLE_SIZE: nat := 32

  /** `Volume`: the output level of the channel. */
  datatype Volume = Mute | Quarter | Half | Full

  /** `VOLUMES`: the volume codes 0-3 of NR32 in order. */
  const VOLUMES: seq<Volume> := [Mute, Full, Half, Quarter]

  /** The two table entries a wave RAM byte fills: its high nibble, then its low nibble. */
  function Nibbles(data: u8): (r: (u8, u8))
    ensures r.0 <= 15 && r.1 <= 15 && r.0 * 16 + r.1 == data
  {
    (data / 16, data % 16)
  }

  /** A sample at a volume: muted, or shifted right by 2, 1 or 0. */
  function Scale(v: Volume, sample: u8): (r: u8)
    ensures r <= sample
    ensures v == Mute ==> r == 0
    ensures v == Full ==> r == sample
    ensures v == Half ==> r == sample / 2
    ensures v == Quarter ==> r == sample / 4
  {
    match v
    case Mute => 0
    case Quarter => sample / Pow2(2)
    case Half => sample / Pow2(1)
    case Full => sample
  }

  /** The position of the wave: the channel's frequency, timer and table index. */
  datatype Position = Position(frequency: u16, timer: u16, cycleOffset: nat)

  /**
   * `CustomWave::tick`: at timer 0 move to the next table entry and reload
   * `(2048 - frequency) / 2` (a 16-bit difference); otherwise count down.
   */
  function PositionTick(p: Position): (r: Position)
    ensures r.frequency == p.frequency
    ensures p.cycleOffset < WAVE_TABLE_SIZE ==> r.cycleOffset < WAVE_TABLE_SIZE
    ensures p.timer > 0 ==> r == p.(timer := p.timer - 1)
    ensures p.timer == 0 && p.frequency <= 2048 ==>
      (r.cycleOffset == (p.cycleOffset + 1) % WAVE_TABLE_SIZE && r.timer == (2048 - p.frequency) / 2)
  {
    if p.timer == 0 then p.(cycleOffset := (p.cycleOffset + 1) % WAVE_TABLE_SIZE, timer := Wrap16(2048 - p.frequency) / 2)
    else p.(timer := p.timer - 1)
  }

  /** `CustomWave::reset`: back to entry 0 with the timer at `(2048 - frequency) * 2`, in 16 bits. */
  function PositionReset(p: Position): (r: Position)
    ensures r.frequency == p.frequency && r.cycleOffset == 0
    ensures p.frequency <= 2048 && 2048 - p.frequency < 0x8000 ==> r.timer == (2048 - p.frequency) * 2
  {
    p.(cycleOffset := 0, timer := Wrap16(Wrap16(2048 - p.frequency) * 2))
  }

  class CustomWave {
    const waveTable: array<u8>
    var frequency: u16
    var timer: u16
    var cycleOffset: nat

    function Model(): Position
      reads this
    {
      Position(frequency, timer, cycleOffset)
    }

    /** The table has 32 four-bit entries and the position is inside it. */
    ghost predicate Valid()
      reads this, waveTable
    {
      waveTable.Length == WAVE_TABLE_SIZE && cycleOffset < WAVE_TABLE_SIZE
      && forall i :: 0 <= i < WAVE_TABLE_SIZE ==> waveTable[i] <= 15
    }

    constructor ()
      ensures Valid() && fresh(waveTable) && Model() == Position(0, 0, 0)
      ensures waveTable[..] == seq(WAVE_TABLE_SIZE, _ => 0)
    {
      waveTable := new u8[WAVE_TABLE_SIZE](_ => 0);
      frequency, timer, cycleOffset := 0, 0, 0;
    }

    method SetFreqLower(data: u8)
      requires Valid()
      modifies this
      ensures Valid() && Model() == old(Model()).(frequency := SquareWaves.FreqLower(old(frequency), data))
    {
      frequency := SquareWaves.FreqLower(frequency, data);
    }

    method SetFreqUpper(data: u8)
      requires Valid()
      modifies this
      ensures Valid() && Model() == old(Model()).(frequency := SquareWaves.FreqUpper(old(frequency), data))
    {
      frequency := SquareWaves.FreqUpper(frequency, data);
    }

    /**
     * `set_wave(offset, data)`: the byte's high nibble goes to entry
     * `2 * offset` and its low nibble to the next.  Offsets past 15 are
     * outside the table (the source panics).
     */
    method SetWave(offset: u8, data: u8)
      requires Valid() && offset < 16
      modifies waveTable
      ensures Valid()
      ensures waveTable[..] == old(waveTable[..])[2 * offset := Nibbles(data).0][2 * offset + 1 := Nibbles(data).1]
      ensures waveTable[2 * offset] * 16 + waveTable[2 * offset + 1] == data
    {
      var idx := offset as nat * 2;
      waveTable[idx] := data / 16;
      waveTable[idx + 1] := data % 16;
    }

    method Tick()
      requires Valid()
      modifies this
      ensures Valid() && Model() == PositionTick(old(Model()))
    {
      if timer == 0 {
        cycleOffset := (cycleOffset + 1) % WAVE_TABLE_SIZE;
        timer := Wrap16(2048 - frequency) / 2;
      } else {
        timer := timer - 1;
      }
    }

    /** `CustomWave::sample`: the current table entry, a four-bit value. */
    function Sample(): (r: u8)
      requires Valid()
      reads this, waveTable
      ensures r <= 15 && r == waveTable[cycleOffset]
    {
      waveTable[cycleOffset]
    }

    method Reset()
      requires Valid()
      modifies this
      ensures Valid() && Model() == PositionReset(old(Model()))
    {
      cycleOffset := 0;
      timer := Wrap16(Wrap16(2048 - frequency) * 2);
    }
  }

  // ---------------------------------------------------------------------
  // The channel

  datatype WaveState = WaveState(dacOn: bool, enabled: bool, volume: Volume, counter: Counter, position: Position)

  /** `is_on`: the DAC is on and the channel is enabled. */
  predicate IsOn(w: WaveState)
  {
    w.dacOn && w.enabled
  }

  /**
   * `Wave::tick(fs)`: on a length clock the length counter ticks and may
   * disable the channel; then, only while the channel is on, the wave
   * moves.
   */
  function WaveTick(w: WaveState, lengthClock: bool): (r: WaveState)
    ensures r.dacOn == w.dacOn && r.volume == w.volume
    ensures r.enabled ==> w.enabled
    ensures !lengthClock ==> r.counter == w.counter && r.enabled == w.enabled
    ensures lengthClock ==> (r.counter == CounterTick(w.counter).0
      && (r.enabled <==> w.enabled && CounterTick(w.counter).1 == Nop))
    ensures IsOn(r) ==> r.position == PositionTick(w.position)
    ensures !IsOn(r) ==> r.position == w.position
  {
    var counted :=
      if lengthClock then
        var (counter, action) := CounterTick(w.counter);
        w.(counter := counter, enabled := if action == Disable then false else w.enabled)
      else w;
    if !counted.dacOn || !counted.enabled then counted
    else counted.(position := PositionTick(counted.position))
  }

  /** `set_dac(on)`: switching the DAC off also disables the channel. */
  function WithDac(w: WaveState, on: bool): (r: WaveState)
    ensures r.dacOn == on
    ensures !on ==> !IsOn(r)
    ensures on ==> r == w.(dacOn := true)
  {
    if on then w.(dacOn := on) else w.(dacOn := on, enabled := false)
  }

  /** `set_length_enabled(enabled, fs)`: the counter's `set_enabled`, disabling the channel on `Disable`. */
  function WithLengthEnabled(w: WaveState, enabled: bool, nextIsLengthCounter: bool): (r: WaveState)
    ensures r.counter == CounterSetEnabled(w.counter, enabled, nextIsLengthCounter).0
    ensures r.enabled == (w.enabled && CounterSetEnabled(w.counter, enabled, nextIsLengthCounter).1 == Nop)
    ensures r.dacOn == w.dacOn && r.position == w.position && r.volume == w.volume
  {
    var (counter, action) := CounterSetEnabled(w.counter, enabled, nextIsLengthCounter);
    w.(counter := counter, enabled := if action == Disable then false else w.enabled)
  }

  /**
   * `trigger`: the channel is enabled when its DAC is on, the length
   * counter is triggered and the wave restarts from entry 0.
   */
  function WaveTrigger(w: WaveState, willEnable: bool): (r: WaveState)
    ensures IsOn(r) <==> w.dacOn
    ensures r.counter == CounterTrigger(w.counter, willEnable)
    ensures r.position == PositionReset(w.position) && r.position.cycleOffset == 0
  {
    w.(enabled := if w.dacOn then true else w.enabled,
       counter := CounterTrigger(w.counter, willEnable),
       position := PositionReset(w.position))
  }

  /** While the channel is off its wave position does not move, and it stays off. */
  lemma OffIsFrozen(w: WaveState, lengthClock: bool)
    requires !IsOn(w)
    ensures !IsOn(WaveTick(w, lengthClock)) && WaveTick(w, lengthClock).position == w.position
  {
  }

  /** On the length clock that runs its counter out, a playing channel switches off. */
  lemma LengthExpires(w: WaveState)
    requires IsOn(w) && w.counter.enabled && w.counter.length == 1
    ensures !IsOn(WaveTick(w, true)) && WaveTick(w, true).counter.length == 0
  {
  }

  class Wave {
    var dacOn: bool
    var enabled: bool
    const customWave: CustomWave
    var volume: Volume
    const lengthCounter: LengthCounter

    function Model(): WaveState
      reads this, customWave, lengthCounter
    {
      WaveState(dacOn, enabled, volume, lengthCounter.Model(), customWave.Model())
    }

    ghost predicate Valid()
      reads this, customWave, customWave.waveTable, lengthCounter
    {
      customWave.Valid() && lengthCounter.max == 256
    }

    /** `Wave::new`: DAC off, disabled, muted, a 256-step length counter. */
    constructor ()
      ensures Valid() && fresh(customWave) && fresh(customWave.waveTable) && fresh(lengthCounter)
      ensures Model() == WaveState(false, false, Mute, Counter(false, 0, 256), Position(0, 0, 0))
    {
      dacOn := false;
      enabled := false;
      customWave := new CustomWave();
      volume := Mute;
      lengthCounter := new LengthCounter(256);
    }

    predicate IsOnNow()
      reads this
    {
      dacOn && enabled
    }

    method Tick(fs: FrameSequencers.FrameSequencer)
      requires Valid()
      modifies this, customWave, lengthCounter
      ensures Valid() && Model() == WaveTick(old(Model()), fs.IsLengthClock())
    {
      if fs.IsLengthClock() {
        var action := lengthCounter.Tick();
        match action
        case Nop =>
        case Disable =>
          enabled := false;
      }
      if !dacOn || !enabled {
        return;
      }
      customWave.Tick();
    }

    /** `Wave::sample`: 0 while disabled; otherwise the table entry at the channel's volume. */
    function Sample(): (r: u8)
      requires Valid()
      reads this, customWave, customWave.waveTable, lengthCounter
      ensures r <= 15
      ensures !enabled ==> r == 0
      ensures enabled ==> r == Scale(volume, customWave.waveTable[customWave.cycleOffset])
    {
      if enabled then Scale(volume, customWave.Sample()) else 0
    }

    method SetDac(on: bool)
      requires Valid()
      modifies this
      ensures Valid() && Model() == WithDac(old(Model()), on)
    {
      dacOn := on;
      if !dacOn {
        enabled := false;
      }
    }

    /** `set_volume(code)`: codes past 3 are outside the volume table (the source panics). */
    method SetVolume(code: u8)
      requires Valid() && code < 4
      modifies this
      ensures Valid() && Model() == old(Model()).(volume := VOLUMES[code])
    {
      volume := VOLUMES[code];
    }

    method SetWave(offset: u8, data: u8)
      requires Valid() && offset < 16
      modifies customWave.waveTable
      ensures Valid() && Model() == old(Model())
      ensures customWave.waveTable[..] == old(customWave.waveTable[..])[2 * offset := Nibbles(data).0][2 * offset + 1 := Nibbles(data).1]
    {
      customWave.SetWave(offset, data);
    }

    method SetLength(l: u8)
      requires Valid()
      modifies lengthCounter
      ensures Valid() && Model() == old(Model()).(counter := CounterSetLength(old(lengthCounter.Model()), l))
    {
      lengthCounter.SetLength(l);
    }

    method SetLengthEnabled(enabled: bool, fs: FrameSequencers.FrameSequencer)
      requires Valid()
      modifies this, lengthCounter
      ensures Valid() && Model() == WithLengthEnabled(old(Model()), enabled, fs.NextIsLengthClock())
    {
      var action := lengthCounter.SetEnabled(enabled, fs.NextIsLengthClock());
      match action
      case Nop =>
      case Disable =>
        this.enabled := false;
    }

    method SetFreqLower(data: u8)
      requires Valid()
      modifies customWave
      ensures Valid() && Model() == old(Model()).(position := old(customWave.Model()).(frequency := SquareWaves.FreqLower(old(customWave.frequency), data)))
    {
      customWave.SetFreqLower(data);
    }

    method SetFreqUpper(data: u8)
      requires Valid()
      modifies customWave
      ensures Valid() && Model() == old(Model()).(position := old(customWave.Model()).(frequency := SquareWaves.FreqUpper(old(customWave.frequency), data)))
    {
      customWave.SetFreqUpper(data);
    }

    method Trigger(willEnable: bool)
      requires Valid()
      modifies this, customWave, lengthCounter
      ensures Valid() && Model() == WaveTrigger(old(Model()), willEnable)
    {
      if dacOn {
        enabled := true;
      }
      lengthCounter.Trigger(willEnable);
      customWave.Reset();
    }
  }
}
