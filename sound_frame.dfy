/**
 * The frame sequencer (src/sound/frame_sequencer.rs): every
 * `CLOCK_FREQ / 512` ticks it emits the next of eight steps 0-7.  Even
 * steps clock the length counters, steps 2 and 6 the frequency sweep.
 *
 * `CLOCK_FREQ` is defined outside the files modelled here; it is a
 * parameter of at least 512, so that a step lasts at least one tick.
 */
module FrameSequencers {
  import opened Wrappers

  /** The step count; `step` is taken modulo this. */
  const STEPS: nat := 8

  datatype Sequencer = Sequencer(ticksLeft: nat, step: nat, clock: Option<nat>)

  /** `FrameSequencer::new`: no ticks left, so the first tick emits step 0. */
  function NewSequencer(): Sequencer
  {
    Sequencer(0, 0, None)
  }

  /** The ticks between two emitted steps. */
  function StepTicks(clockFreq: nat): nat
  {
    clockFreq / 512
  }

  /**
   * `tick`: with no ticks left, emit the current step, move to the next
   * one and reload; otherwise emit nothing.  Either way one tick is used.
   */
  function SequencerTick(s: Sequencer, clockFreq: nat): (r: Sequencer)
    requires clockFreq >= 512
    ensures s.step < STEPS ==> r.step < STEPS
    ensures r.clock.Some? <==> s.ticksLeft == 0
    ensures s.ticksLeft == 0 ==> r.clock == Some(s.step) && r.step == (s.step + 1) % STEPS && r.ticksLeft == StepTicks(clockFreq) - 1
    ensures s.ticksLeft > 0 ==> r.step == s.step && r.ticksLeft == s.ticksLeft - 1
  {
    var reloaded :=
      if s.ticksLeft == 0 then Sequencer(StepTicks(clockFreq), (s.step + 1) % STEPS, Some(s.step))
      else s.(clock := None);
    reloaded.(ticksLeft := reloaded.ticksLeft - 1)
  }

  /** `is_length_counter`: this tick emitted an even step. */
  predicate IsLengthCounter(s: Sequencer)
  {
    s.clock.Some? && s.clock.value % 2 == 0
  }

  /** `is_sweep`: this tick emitted step 2 or 6. */
  predicate IsSweep(s: Sequencer)
  {
    s.clock.Some? && (s.clock.value == 2 || s.clock.value == 6)
  }

  /** `next_is_length_counter`: the next step emitted will be even. */
  predicate NextIsLengthCounter(s: Sequencer)
  {
    s.step % 2 == 0
  }

  /** A sweep clock is always a length clock too. */
  lemma SweepIsLengthClock(s: Sequencer)
    requires IsSweep(s)
    ensures IsLengthCounter(s)
  {
  }

  /** The first tick of a new sequencer emits step 0, a length clock. */
  lemma FirstTick(clockFreq: nat)
    requires clockFreq >= 512
    ensures SequencerTick(NewSequencer(), clockFreq).clock == Some(0)
    ensures IsLengthCounter(SequencerTick(NewSequencer(), clockFreq))
    ensures !IsSweep(SequencerTick(NewSequencer(), clockFreq))
  {
  }

  /** `k` ticks in a row. */
  function Ticks(s: Sequencer, clockFreq: nat, k: nat): Sequencer
    requires clockFreq >= 512
    decreases k
  {
    if k == 0 then s else Ticks(SequencerTick(s, clockFreq), clockFreq, k - 1)
  }

  /** While ticks are left, ticking emits nothing and keeps the step. */
  lemma {:induction false} Quiet(s: Sequencer, clockFreq: nat, k: nat)
    requires clockFreq >= 512 && 0 < k <= s.ticksLeft
    ensures Ticks(s, clockFreq, k) == Sequencer(s.ticksLeft - k, s.step, None)
    decreases k
  {
    if k > 1 {
      Quiet(SequencerTick(s, clockFreq), clockFreq, k - 1);
    }
  }

  /**
   * Steps come every `CLOCK_FREQ / 512` ticks: from the tick that emits a
   * step, that many more ticks emit the next step, with silence between.
   */
  lemma StepPeriod(s: Sequencer, clockFreq: nat)
    requires clockFreq >= 512 && s.ticksLeft == 0
    ensures Ticks(s, clockFreq, StepTicks(clockFreq) + 1).clock == Some((s.step + 1) % STEPS)
    ensures forall k :: 1 < k <= StepTicks(clockFreq) ==> Ticks(s, clockFreq, k).clock.None?
  {
    var p := StepTicks(clockFreq);
    var first := SequencerTick(s, clockFreq);
    assert Ticks(s, clockFreq, 1) == first;
    forall k | 1 < k <= p ensures Ticks(s, clockFreq, k).clock.None? {
      Quiet(first, clockFreq, k - 1);
    }
    if p > 1 {
      Quiet(first, clockFreq, p - 1);
    }
    assert Ticks(s, clockFreq, p) == (if p == 1 then first else Ticks(first, clockFreq, p - 1));
    TicksSplit(s, clockFreq, p);
  }

  lemma {:induction false} TicksSplit(s: Sequencer, clockFreq: nat, k: nat)
    requires clockFreq >= 512
    ensures Ticks(s, clockFreq, k + 1) == SequencerTick(Ticks(s, clockFreq, k), clockFreq)
    decreases k
  {
    if k > 0 {
      TicksSplit(SequencerTick(s, clockFreq), clockFreq, k - 1);
    }
  }

  class FrameSequencer {
    const clockFreq: nat
    var ticksLeft: nat
    var step: nat
    var clock: Option<nat>

    function Model(): Sequencer
      reads this
    {
      Sequencer(ticksLeft, step, clock)
    }

    ghost predicate Valid()
      reads this
    {
      clockFreq >= 512 && step < STEPS
    }

    constructor (clockFreq: nat)
      requires clockFreq >= 512
      ensures Valid() && this.clockFreq == clockFreq && Model() == NewSequencer()
    {
      this.clockFreq := clockFreq;
      ticksLeft := 0;
      step := 0;
      clock := None;
    }

    method Tick()
      requires Valid()
      modifies this
      ensures Valid() && Model() == SequencerTick(old(Model()), clockFreq)
    {
      if ticksLeft == 0 {
        ticksLeft := StepTicks(clockFreq);
        clock := Some(step);
        step := (step + 1) % STEPS;
      } else {
        clock := None;
      }
      ticksLeft := ticksLeft - 1;
    }

    predicate IsLengthClock()
      reads this
    {
      IsLengthCounter(Model())
    }

    predicate IsSweepClock()
      reads this
    {
      IsSweep(Model())
    }

    predicate NextIsLengthClock()
      reads this
    {
      NextIsLengthCounter(Model())
    }
  }
}
