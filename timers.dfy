/**
 * The timer controller (src/timer_controller.rs): the free-running divider
 * DIV at 0xFF04 and the programmable counter TIMA at 0xFF05, with its reload
 * value TMA at 0xFF06 and its control register TAC at 0xFF07.  Each counter
 * is a `Timer` that counts clocks down and steps its value once per period.
 *
 * The CPU clock frequency `CLOCK_FREQ` is defined outside the files
 * modelled here; it is a constructor parameter, required to be at least the
 * fastest TAC frequency so that every period is at least one clock.
 */
module Timers {
  import opened Bits
  import opened Wrappers
  import Interrupts

  const DIV_FREQ: nat := 16384
  const TAC_FREQS: seq<nat> := [4096, 262144, 65536, 16384]
  const MAX_FREQ: nat := 262144
  const DIV: u16 := 0xFF04
  const TIMA: u16 := 0xFF05
  const TMA: u16 := 0xFF06
  const TAC: u16 := 0xFF07

  /** The fields of a `Timer`. */
  datatype TimerState = TimerState(clocksPerTick: nat, clocksLeft: nat, value: u8, defaultValue: u8)

  /** Between ticks at least one clock, and at most a whole period, is left. */
  predicate Ticking(t: TimerState)
  {
    1 <= t.clocksLeft <= t.clocksPerTick
  }

  /** `Timer::new`: a period of `clock_freq / freq` clocks, value 0. */
  function NewTimer(clockFreq: nat, freq: nat, defaultValue: u8): (t: TimerState)
    requires 0 < freq <= clockFreq
    ensures Ticking(t) && t.value == 0 && t.defaultValue == defaultValue
    ensures t.clocksPerTick == t.clocksLeft == clockFreq / freq
  {
    DivAtLeastOne(clockFreq, freq);
    TimerState(clockFreq / freq, clockFreq / freq, 0, defaultValue)
  }

  lemma DivAtLeastOne(a: nat, b: nat)
    requires 0 < b <= a
    ensures a / b >= 1
  {
    DivUnique(a, b, a / b, a % b);
  }

  /** One step of the value: 0xFF reloads the default value, anything else counts up. */
  function Increment(v: u8, d: u8): u8
  {
    if v == 0xFF then d else v + 1
  }

  /**
   * `Timer::tick(clocks)` as the loop runs it: each time a whole
   * `clocks_left` is consumed the value steps and a new period starts; what
   * is left of `clocks` is taken off `clocks_left`.  The flag records a step
   * from 0xFF.
   */
  function Run(t: TimerState, toTick: nat): (r: (TimerState, bool))
    requires Ticking(t)
    ensures Ticking(r.0) && r.0.clocksPerTick == t.clocksPerTick && r.0.defaultValue == t.defaultValue
    decreases toTick
  {
    if toTick == 0 then (t, false)
    else if t.clocksLeft <= toTick then
      var next := Run(t.(value := Increment(t.value, t.defaultValue), clocksLeft := t.clocksPerTick), toTick - t.clocksLeft);
      (next.0, t.value == 0xFF || next.1)
    else (t.(clocksLeft := t.clocksLeft - toTick), false)
  }

  /** The number of value steps `tick(c)` makes. */
  function Steps(t: TimerState, c: nat): nat
    requires Ticking(t)
  {
    if c < t.clocksLeft then 0 else 1 + (c - t.clocksLeft) / t.clocksPerTick
  }

  /** The value after `n` steps. */
  function Advance(v: u8, d: u8, n: nat): (r: u8)
    ensures v + n <= 0xFF ==> r == v + n
    decreases n
  {
    if n == 0 then v else Advance(Increment(v, d), d, n - 1)
  }

  /** Whether one of `n` steps starts from 0xFF. */
  predicate Wraps(v: u8, d: u8, n: nat)
    decreases n
  {
    n > 0 && (v == 0xFF || Wraps(Increment(v, d), d, n - 1))
  }

  /**
   * The closed form of `tick(c)`: the value steps once when the clocks left
   * run out and then once per whole period; the remainder is carried in
   * `clocks_left`.
   */
  lemma {:induction false} RunClosedForm(t: TimerState, c: nat)
    requires Ticking(t)
    ensures Run(t, c).0 == t.(value := Advance(t.value, t.defaultValue, Steps(t, c)),
                              clocksLeft := if c < t.clocksLeft then t.clocksLeft - c
                                            else t.clocksPerTick - (c - t.clocksLeft) % t.clocksPerTick)
    ensures Run(t, c).1 == Wraps(t.value, t.defaultValue, Steps(t, c))
    decreases c
  {
    if c >= t.clocksLeft {
      var p := t.clocksPerTick;
      var x := c - t.clocksLeft;
      var t' := t.(value := Increment(t.value, t.defaultValue), clocksLeft := p);
      RunClosedForm(t', x);
      if x < p {
        DivUnique(x, p, 0, x);
      } else {
        DivShift(x, p);
      }
      assert Steps(t, c) == 1 + Steps(t', x);
    }
  }

  /** Taking one period off the clocks takes one off the quotient and keeps the remainder. */
  lemma DivShift(x: int, p: int)
    requires p > 0 && x >= p
    ensures x / p == (x - p) / p + 1 && x % p == (x - p) % p
  {
    DivUnique(x, p, (x - p) / p + 1, (x - p) % p);
  }

  /** Without passing 0xFF, `n` steps add `n`. */
  lemma {:induction false} AdvanceCounts(v: u8, d: u8, n: nat)
    requires v + n <= 0xFF
    ensures Advance(v, d, n) == v + n && !Wraps(v, d, n)
    decreases n
  {
    if n > 0 {
      AdvanceCounts(v + 1, d, n - 1);
    }
  }

  /** A step from 0xFF reloads the default value and reports the overflow. */
  lemma ReloadOnOverflow(t: TimerState, c: nat)
    requires Ticking(t) && t.value == 0xFF
    requires t.clocksLeft <= c < t.clocksLeft + t.clocksPerTick
    ensures Run(t, c).0.value == t.defaultValue && Run(t, c).1
  {
    RunClosedForm(t, c);
    DivUnique(c - t.clocksLeft, t.clocksPerTick, 0, c - t.clocksLeft);
  }

  /** The state of a `TimerController`. */
  datatype Regs = Regs(tac: u8, div: TimerState, tima: TimerState, timaRunning: bool)

  predicate ValidRegs(m: Regs)
  {
    Ticking(m.div) && Ticking(m.tima)
  }

  /** `TimerController::new`: DIV at 16384 Hz, TIMA stopped at 4096 Hz. */
  function NewRegs(clockFreq: nat): (m: Regs)
    requires clockFreq >= MAX_FREQ
    ensures ValidRegs(m) && !m.timaRunning && m.div.value == 0 && m.tima.value == 0 && m.tima.defaultValue == 0
  {
    Regs(0, NewTimer(clockFreq, DIV_FREQ, 0), NewTimer(clockFreq, TAC_FREQS[0], 0), false)
  }

  /**
   * `TimerController::tick`: DIV always runs; TIMA runs only when enabled,
   * and its overflow raises the Timer interrupt.
   */
  function TickRegs(m: Regs, clocks: nat): (r: (Regs, seq<Interrupts.Interrupt>))
    requires ValidRegs(m)
    ensures ValidRegs(r.0) && r.0.tac == m.tac && r.0.timaRunning == m.timaRunning
    ensures r.1 == (if m.timaRunning && Wraps(m.tima.value, m.tima.defaultValue, Steps(m.tima, clocks)) then [Interrupts.Timer] else [])
    ensures r.0.div.value == Advance(m.div.value, m.div.defaultValue, Steps(m.div, clocks))
    ensures !m.timaRunning ==> r.0.tima == m.tima
  {
    RunClosedForm(m.div, clocks);
    RunClosedForm(m.tima, clocks);
    var div := Run(m.div, clocks).0;
    if m.timaRunning then
      var tima := Run(m.tima, clocks);
      (m.(div := div, tima := tima.0), if tima.1 then [Interrupts.Timer] else [])
    else
      (m.(div := div), [])
  }

  predicate IsTimerReg(addr: u16)
  {
    DIV <= addr <= TAC
  }

  /** `get8`: DIV, TIMA, TMA (TIMA's reload value) or TAC; `None` where the source panics. */
  function GetReg(m: Regs, addr: u16): (r: Option<u8>)
    ensures r.Some? <==> IsTimerReg(addr)
  {
    if addr == DIV then Some(m.div.value)
    else if addr == TIMA then Some(m.tima.value)
    else if addr == TMA then Some(m.tima.defaultValue)
    else if addr == TAC then Some(m.tac)
    else None
  }

  /**
   * `set8`: a DIV write clears the divider whatever the byte; TIMA and TMA
   * are stored; a TAC write starts or stops TIMA by bit 2 and restarts it at
   * the frequency selected by the low two bits, keeping TMA.
   */
  function SetReg(clockFreq: nat, m: Regs, addr: u16, byte: u8): (r: Option<Regs>)
    requires clockFreq >= MAX_FREQ && ValidRegs(m)
    ensures r.Some? <==> IsTimerReg(addr)
    ensures r.Some? ==> ValidRegs(r.value)
    ensures addr == DIV ==> r == Some(m.(div := m.div.(value := 0)))
    ensures addr == TIMA || addr == TMA ==> r.value.tima.clocksLeft == m.tima.clocksLeft
    ensures addr == TIMA || addr == TMA ==> GetReg(r.value, addr) == Some(byte)
    ensures addr == TAC ==> GetReg(r.value, TAC) == Some(byte) && GetReg(r.value, TMA) == GetReg(m, TMA)
    ensures addr == TAC ==> r.value.timaRunning == (Bit(byte, 2) == 1)
    ensures addr == TAC ==> r.value.tima.clocksPerTick == clockFreq / TAC_FREQS[byte % 4] && r.value.tima.value == 0
  {
    if addr == DIV then Some(m.(div := m.div.(value := 0)))
    else if addr == TIMA then Some(m.(tima := m.tima.(value := byte)))
    else if addr == TMA then Some(m.(tima := m.tima.(defaultValue := byte)))
    else if addr == TAC then
      Some(m.(tac := byte, timaRunning := Bit(byte, 2) == 1,
              tima := NewTimer(clockFreq, TAC_FREQS[byte % 4], m.tima.defaultValue)))
    else None
  }

  /** A period of 64 clocks, the divider's at a 1 MHz CPU clock. */
  const DIV_64: TimerState := TimerState(64, 64, 0, 0)

  /** DIV steps once per 64 clocks: 383 clocks give 5 and one more gives 6. */
  lemma DivCountsPeriods()
    ensures Run(DIV_64, 64 * 5 + 63).0 == DIV_64.(value := 5, clocksLeft := 1)
    ensures Run(Run(DIV_64, 64 * 5 + 63).0, 1).0.value == 6
  {
    RunClosedForm(DIV_64, 64 * 5 + 63);
    AdvanceCounts(0, 0, 5);
    var t := DIV_64.(value := 5, clocksLeft := 1);
    RunClosedForm(t, 1);
    AdvanceCounts(5, 0, 1);
  }

  /** DIV wraps from 255 to 0 and counts on. */
  lemma DivWraps()
    ensures Run(DIV_64, 64 * 255 + 63).0 == DIV_64.(value := 255, clocksLeft := 1)
    ensures Run(DIV_64.(value := 255, clocksLeft := 1), 2).0 == DIV_64.(value := 0, clocksLeft := 63)
    ensures Run(DIV_64.(value := 0, clocksLeft := 63), 63).0.value == 1
  {
    RunClosedForm(DIV_64, 64 * 255 + 63);
    AdvanceCounts(0, 0, 255);
    RunClosedForm(DIV_64.(value := 255, clocksLeft := 1), 2);
    RunClosedForm(DIV_64.(value := 0, clocksLeft := 63), 63);
    AdvanceCounts(0, 0, 1);
  }

  /** Clearing DIV keeps the clocks already counted towards the next step. */
  lemma DivResetKeepsPhase()
    ensures Run(DIV_64, 64 * 5 + 4).0 == DIV_64.(value := 5, clocksLeft := 60)
    ensures Run(DIV_64.(value := 0, clocksLeft := 60), 61).0.value == 1
  {
    RunClosedForm(DIV_64, 64 * 5 + 4);
    AdvanceCounts(0, 0, 5);
    RunClosedForm(DIV_64.(value := 0, clocksLeft := 60), 61);
    AdvanceCounts(0, 0, 1);
  }

  class Timer {
    const clocksPerTick: nat
    var clocksLeft: nat
    var value: u8
    var defaultValue: u8

    function Model(): TimerState
      reads this
    {
      TimerState(clocksPerTick, clocksLeft, value, defaultValue)
    }

    constructor (clockFreq: nat, freq: nat, defaultValue: u8)
      requires 0 < freq <= clockFreq
      ensures Model() == NewTimer(clockFreq, freq, defaultValue)
    {
      clocksPerTick := clockFreq / freq;
      clocksLeft := clockFreq / freq;
      value := 0;
      this.defaultValue := defaultValue;
    }

    /** `tick`: the loop over the clocks to consume; the result is whether the value stepped from 0xFF. */
    method Tick(clocks: nat) returns (overflow: bool)
      requires Ticking(Model())
      modifies this
      ensures (Model(), overflow) == Run(old(Model()), clocks)
    {
      var toTick: nat := clocks;
      overflow := false;
      while toTick > 0
        invariant Ticking(Model())
        invariant Run(old(Model()), clocks) == (Run(Model(), toTick).0, overflow || Run(Model(), toTick).1)
        decreases toTick
      {
        if clocksLeft <= toTick {
          toTick := toTick - clocksLeft;
          overflow := overflow || value == 0xFF;
          value := if value == 0xFF then defaultValue else value + 1;
          clocksLeft := clocksPerTick;
        } else {
          clocksLeft := clocksLeft - toTick;
          toTick := 0;
        }
      }
    }

    method Set(v: u8)
      modifies this
      ensures Model() == old(Model()).(value := v)
    {
      value := v;
    }
  }

  class TimerController {
    const clockFreq: nat
    var tac: u8
    const divTicker: Timer
    var timaTicker: Timer
    var timaRunning: bool

    ghost predicate Valid()
      reads this, divTicker, timaTicker
    {
      clockFreq >= MAX_FREQ && divTicker != timaTicker && ValidRegs(Model())
    }

    function Model(): Regs
      reads this, divTicker, timaTicker
    {
      Regs(tac, divTicker.Model(), timaTicker.Model(), timaRunning)
    }

    constructor (clockFreq: nat)
      requires clockFreq >= MAX_FREQ
      ensures Valid() && this.clockFreq == clockFreq && Model() == NewRegs(clockFreq)
    {
      this.clockFreq := clockFreq;
      tac := 0;
      divTicker := new Timer(clockFreq, DIV_FREQ, 0);
      timaTicker := new Timer(clockFreq, TAC_FREQS[0], 0);
      timaRunning := false;
    }

    /** `tick`; the interrupts it raises are returned in the order the source fires them. */
    method Tick(clocks: nat) returns (fired: seq<Interrupts.Interrupt>)
      requires Valid()
      modifies divTicker, timaTicker
      ensures Valid() && (Model(), fired) == TickRegs(old(Model()), clocks)
    {
      var _ := divTicker.Tick(clocks);
      fired := [];
      if timaRunning {
        var overflow := timaTicker.Tick(clocks);
        if overflow {
          fired := [Interrupts.Timer];
        }
      }
    }

    function Get8(addr: u16): (r: Option<u8>)
      reads this, divTicker, timaTicker
      ensures r == GetReg(Model(), addr)
    {
      if addr == DIV then Some(divTicker.value)
      else if addr == TIMA then Some(timaTicker.value)
      else if addr == TMA then Some(timaTicker.defaultValue)
      else if addr == TAC then Some(tac)
      else None
    }

    /** `set8`; `ok` is false, and nothing changes, where the source panics. */
    method Set8(addr: u16, byte: u8) returns (ok: bool)
      requires Valid()
      modifies this, divTicker, timaTicker
      ensures Valid()
      ensures ok <==> IsTimerReg(addr)
      ensures ok ==> SetReg(clockFreq, old(Model()), addr, byte) == Some(Model())
      ensures !ok ==> Model() == old(Model())
    {
      if addr == DIV {
        divTicker.Set(0);
      } else if addr == TIMA {
        timaTicker.Set(byte);
      } else if addr == TMA {
        timaTicker.defaultValue := byte;
      } else if addr == TAC {
        tac := byte;
        timaRunning := (byte / 4) % 2 == 1;
        BitShr(byte, 2, 0);
        timaTicker := new Timer(clockFreq, TAC_FREQS[byte % 4], timaTicker.defaultValue);
      } else {
        return false;
      }
      ok := true;
    }
  }
}
