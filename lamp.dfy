/** The indicator-lamp record `led_t` and its once-per-tick poll. */
module Lamp {

  /** `uint16_t`. */
  type Uint16 = x: int | 0 <= x < 0x1_0000

  /** The values of `led_behavior_e`. The field itself is a plain C enum, so it
      can hold any other value as well, in particular the 0 of a global that
      was never assigned. */
  const BehaviorOff: int := 1
  const BehaviorOn: int := 2
  const BehaviorTimed: int := 3

  /** The contents of one `led_t`. */
  datatype LedState = LedState(behavior: int, time: Uint16)

  /** What one poll reports (lamp lit or not) and the record it leaves. */
  datatype PollResult = PollResult(lit: bool, next: LedState)

  /** One poll of a lamp: `On` is lit, `Off` is unlit, `Timed` is lit while its
      countdown is positive and takes one off it; every other behaviour, and a
      `Timed` lamp whose countdown is 0, is unlit. */
  function Poll(s: LedState): (r: PollResult)
    ensures r.next.behavior == s.behavior
    ensures r.next.time <= s.time <= r.next.time + 1
    ensures r.next.time < s.time <==> s.behavior == BehaviorTimed && r.lit
  {
    if s.behavior == BehaviorOn then PollResult(true, s)
    else if s.behavior == BehaviorOff then PollResult(false, s)
    else if s.behavior == BehaviorTimed && s.time > 0 then
      PollResult(true, LedState(s.behavior, s.time - 1))
    else PollResult(false, s)
  }

  /** The record after `k` polls with nothing else touching it. */
  function PollTimes(s: LedState, k: nat): LedState
  {
    if k == 0 then s else Poll(PollTimes(s, k - 1)).next
  }

  lemma PollOn(s: LedState)
    requires s.behavior == BehaviorOn
    ensures Poll(s) == PollResult(true, s)
  {
  }

  lemma PollOffOrUnknown(s: LedState)
    requires s.behavior != BehaviorOn && s.behavior != BehaviorTimed
    ensures Poll(s) == PollResult(false, s)
  {
  }

  lemma PollTimedRunning(s: LedState)
    requires s.behavior == BehaviorTimed && s.time > 0
    ensures Poll(s).lit
    ensures Poll(s).next == LedState(BehaviorTimed, s.time - 1)
  {
  }

  lemma PollTimedExpired(s: LedState)
    requires s.behavior == BehaviorTimed && s.time == 0
    ensures Poll(s) == PollResult(false, LedState(BehaviorTimed, 0))
  {
  }

  /** After `k` polls a timed lamp is still `Timed`, its countdown `k` lower
      and stopped at 0. */
  lemma {:induction false} TimedCountdown(s: LedState, k: nat)
    requires s.behavior == BehaviorTimed
    ensures PollTimes(s, k) == LedState(BehaviorTimed, if k < s.time then s.time - k else 0)
  {
    if k > 0 {
      TimedCountdown(s, k - 1);
    }
  }

  /** A timed lamp started at `n` is lit on exactly the first `n` polls. */
  lemma PulseDecay(s: LedState, k: nat)
    requires s.behavior == BehaviorTimed
    ensures Poll(PollTimes(s, k)).lit <==> k < s.time
  {
    TimedCountdown(s, k);
  }

  /** Any lamp that is not `Timed` never changes and reports the same on every
      poll. */
  lemma {:induction false} SteadyLamp(s: LedState, k: nat)
    requires s.behavior != BehaviorTimed
    ensures PollTimes(s, k) == s
    ensures Poll(PollTimes(s, k)).lit <==> s.behavior == BehaviorOn
  {
    if k > 0 {
      SteadyLamp(s, k - 1);
    }
  }

  /** One `led_t` global, updated in place through a pointer. */
  class Led {
    var behavior: int
    var time: Uint16

    /** A global that was never written: both fields 0. */
    constructor ()
      ensures behavior == 0 && time == 0
    {
      behavior := 0;
      time := 0;
    }

    function State(): LedState
      reads this
    {
      LedState(behavior, time)
    }
  }

  /** `led_check_value`: reports whether the lamp is lit on this tick and
      counts a running pulse down by one. */
  method LedCheckValue(led: Led) returns (lit: bool)
    modifies led
    ensures lit == Poll(old(led.State())).lit
    ensures led.State() == Poll(old(led.State())).next
  {
    if led.behavior == BehaviorOn {
      return true;
    } else if led.behavior == BehaviorOff {
      return false;
    } else if led.behavior == BehaviorTimed {
      if led.time > 0 {
        led.time := led.time - 1;
        return true;
      }
    }
    return false;
  }
}
