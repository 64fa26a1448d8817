/**
 * The length counter of a sound channel (src/sound/length_counter.rs):
 * while enabled, each length clock of the frame sequencer counts the
 * length down, and the count reaching 0 tells the channel to switch off.
 */
module LengthCounters {
  import opened Bits

  /** `LengthCounterAction`: what the channel must do after a counter operation. */
  datatype Action = Disable | Nop

  datatype Counter = Counter(enabled: bool, length: u16, max: u16)

  /**
   * `tick`: nothing while disabled or at 0; otherwise one less, and
   * `Disable` exactly when that reaches 0.  The counter itself stays
   * enabled: switching the channel off is the caller's business.
   */
  function CounterTick(c: Counter): (r: (Counter, Action))
    ensures r.0.enabled == c.enabled && r.0.max == c.max && r.0.length <= c.length
    ensures !c.enabled || c.length == 0 ==> r == (c, Nop)
    ensures c.enabled && c.length > 0 ==> r.0.length == c.length - 1
    ensures r.1 == Disable <==> c.enabled && c.length == 1
    ensures r.1 == Disable ==> r.0.length == 0
  {
    if !c.enabled || c.length == 0 then (c, Nop)
    else
      var length := c.length - 1;
      (c.(length := length), if length == 0 then Disable else Nop)
  }

  /**
   * `set_enabled(enabled, next_is_length_counter)`: turning the counter on
   * when the next frame-sequencer step will not clock it counts one step at
   * once; if that empties it, the counter stays off and says `Disable`.
   */
  function CounterSetEnabled(c: Counter, enabled: bool, nextIsLengthCounter: bool): (r: (Counter, Action))
    ensures r.0.max == c.max && r.0.length <= c.length
    ensures r.1 == Disable <==> !c.enabled && enabled && c.length == 1 && !nextIsLengthCounter
    ensures r.1 == Disable ==> !r.0.enabled && r.0.length == 0
    ensures r.1 == Nop ==> r.0.enabled == enabled
    ensures !(!c.enabled && enabled && c.length > 0 && !nextIsLengthCounter) ==> r.0.length == c.length
  {
    if !c.enabled && enabled && c.length > 0 && !nextIsLengthCounter then
      var length := c.length - 1;
      if length == 0 then (c.(enabled := false, length := length), Disable)
      else (c.(enabled := enabled, length := length), Nop)
    else (c.(enabled := enabled), Nop)
  }

  /**
   * `set_length(l)`: the counter holds `max - l`, a 16-bit difference (it
   * wraps when `l` exceeds `max`).
   */
  function CounterSetLength(c: Counter, l: u8): (r: Counter)
    ensures r.enabled == c.enabled && r.max == c.max
    ensures l <= c.max ==> r.length == c.max - l
  {
    c.(length := Wrap16(c.max - l))
  }

  /**
   * `trigger(will_enable)`: an empty counter is reloaded with `max`, and
   * if it is being switched on from off it is enabled and counts one step
   * at once.  A counter that is not empty is left alone.
   */
  function CounterTrigger(c: Counter, willEnable: bool): (r: Counter)
    ensures c.length != 0 ==> r == c
    ensures c.length == 0 && !(willEnable && !c.enabled) ==> r == c.(length := c.max)
    ensures c.length == 0 && willEnable && !c.enabled && c.max > 0 ==> r.enabled && r.length == c.max - 1
    ensures r.max == c.max
  {
    if c.length == 0 then
      var reloaded := c.(length := c.max);
      if willEnable && !c.enabled then reloaded.(enabled := true, length := Wrap16(reloaded.length - 1))
      else reloaded
    else c
  }

  /** `k` ticks in a row, with the actions they return. */
  function Ticks(c: Counter, k: nat): (r: (Counter, seq<Action>))
    ensures |r.1| == k
    decreases k
  {
    if k == 0 then (c, [])
    else
      var (next, a) := CounterTick(c);
      var (last, rest) := Ticks(next, k - 1);
      (last, [a] + rest)
  }

  /**
   * An enabled counter holding `n` runs down in `n` ticks: the first
   * `n - 1` say `Nop` and the `n`-th says `Disable`, after which ticks say
   * `Nop` again.
   */
  lemma {:induction false} CountDown(c: Counter, k: nat)
    requires c.enabled
    ensures Ticks(c, k).0.length == if k <= c.length then c.length - k else 0
    ensures forall i :: 0 <= i < k ==> Ticks(c, k).1[i] == if i + 1 == c.length then Disable else Nop
    decreases k
  {
    if k > 0 {
      var (next, a) := CounterTick(c);
      CountDown(next, k - 1);
      var rest := Ticks(next, k - 1).1;
      assert Ticks(c, k).1 == [a] + rest;
      forall i | 0 <= i < k ensures Ticks(c, k).1[i] == if i + 1 == c.length then Disable else Nop {
        if i > 0 {
          assert Ticks(c, k).1[i] == rest[i - 1];
        }
      }
    }
  }

  /** After `set_length(l)` with `l <= max`, an enabled counter disables its channel on the `(max - l)`-th tick. */
  lemma SetLengthThenCount(c: Counter, l: u8)
    requires c.enabled && 0 < c.max - l
    ensures var n := c.max - l;
      Ticks(CounterSetLength(c, l), n).1[n - 1] == Disable
      && forall i :: 0 <= i < n - 1 ==> Ticks(CounterSetLength(c, l), n).1[i] == Nop
  {
    CountDown(CounterSetLength(c, l), c.max - l);
  }

  class LengthCounter {
    var enabled: bool
    var length: u16
    const max: u16

    function Model(): Counter
      reads this
    {
      Counter(enabled, length, max)
    }

    /** `LengthCounter::new(max)`: disabled and empty. */
    constructor (max: u16)
      ensures Model() == Counter(false, 0, max)
    {
      enabled := false;
      length := 0;
      this.max := max;
    }

    method Tick() returns (a: Action)
      modifies this
      ensures (Model(), a) == CounterTick(old(Model()))
    {
      if !enabled || length == 0 {
        return Nop;
      }
      length := length - 1;
      if length == 0 {
        return Disable;
      }
      a := Nop;
    }

    method SetEnabled(enabled: bool, nextIsLengthCounter: bool) returns (a: Action)
      modifies this
      ensures (Model(), a) == CounterSetEnabled(old(Model()), enabled, nextIsLengthCounter)
    {
      if !this.enabled && enabled && length > 0 && !nextIsLengthCounter {
        length := length - 1;
        this.enabled := enabled;
        if length == 0 {
          this.enabled := false;
          return Disable;
        }
      }
      this.enabled := enabled;
      a := Nop;
    }

    method SetLength(l: u8)
      modifies this
      ensures Model() == CounterSetLength(old(Model()), l)
    {
      length := Wrap16(max - l);
    }

    method Trigger(willEnable: bool)
      modifies this
      ensures Model() == CounterTrigger(old(Model()), willEnable)
    {
      if length == 0 {
        length := max;
        if willEnable && !enabled {
          enabled := true;
          length := Wrap16(length - 1);
        }
      }
    }
  }
}
