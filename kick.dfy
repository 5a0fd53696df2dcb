/**
 * The kick (side-chain pump) insert effect: while its mix is above zero, a
 * repeating timer fires once per beat and schedules a duck-and-recover gain
 * envelope on the wet path; setting the mix to zero stops the timer and
 * ramps the gain back to unity.
 *
 * The audio clock (`currentTime`) is the `now` field, advanced explicitly;
 * the repeating timer is the `timerMs` field (its period while running) and
 * each firing is a call of `PumpTick`. Automation calls made on the pump
 * gain are logged in `events`; `PumpLevel` and `StopLevel` give the gain
 * curve the pump and stop schedules describe.
 */
module KickFx {
  import opened Wrappers
  import opened Numeric
  import opened DryWet

  const DefaultBpm: real := 120.0
  const DefaultDepth: real := 0.9
  const DefaultAttackMs: real := 3.0
  const DefaultReleaseMs: real := 260.0
  /** The ramp back to unity when pumping stops takes 30 ms. */
  const StopRampSec: real := 0.03

  /** One automation call on the pump gain. */
  datatype AutoEvent =
    | CancelFrom(time: real)
    | HoldCurrent(time: real)
    | RampTo(value: real, time: real)

  /** `setBpm`'s clamp: 40..240 BPM. */
  function BpmOf(bpm: real): (b: real)
    ensures 40.0 <= b <= 240.0
    ensures 40.0 <= bpm <= 240.0 ==> b == bpm
  {
    Clamp(bpm, 40.0, 240.0)
  }

  /** `setDepth`'s clamp: the duck depth is kept in [0, 0.95]. */
  function DepthOf(depth01: real): (d: real)
    ensures 0.0 <= d <= 0.95
    ensures 0.0 <= depth01 <= 0.95 ==> d == depth01
  {
    Clamp(depth01, 0.0, 0.95)
  }

  /** `setAttackMs`'s clamp: 1..80 ms. */
  function AttackOf(ms: real): (a: real)
    ensures 1.0 <= a <= 80.0
    ensures 1.0 <= ms <= 80.0 ==> a == ms
  {
    Clamp(ms, 1.0, 80.0)
  }

  /** `setReleaseMs`'s clamp: 20..800 ms. */
  function ReleaseOf(ms: real): (r: real)
    ensures 20.0 <= r <= 800.0
    ensures 20.0 <= ms <= 800.0 ==> r == ms
  {
    Clamp(ms, 20.0, 800.0)
  }

  /** The timer period for a tempo: one beat, in milliseconds. */
  function PeriodMs(bpm: real): (p: real)
    requires 40.0 <= bpm <= 240.0
    ensures 250.0 <= p <= 1500.0
    ensures p * bpm == 60000.0
  {
    assert 60000.0 / bpm <= 60000.0 / 40.0;
    assert 60000.0 / 240.0 <= 60000.0 / bpm;
    60000.0 / bpm
  }

  /** The automation one pump schedules at time `now`. */
  function PumpEvents(now: real, depth: real, attackMs: real, releaseMs: real): seq<AutoEvent> {
    [ CancelFrom(now), HoldCurrent(now),
      RampTo(1.0 - depth, now + attackMs / 1000.0),
      RampTo(1.0, now + attackMs / 1000.0 + releaseMs / 1000.0) ]
  }

  /** The automation stopping schedules at time `now`. */
  function StopEvents(now: real): seq<AutoEvent> {
    [CancelFrom(now), HoldCurrent(now), RampTo(1.0, now + StopRampSec)]
  }

  /** A linear ramp from x to y, a fraction f of the way along. */
  function Lerp(x: real, y: real, f: real): (r: real)
    requires 0.0 <= f <= 1.0
    ensures Min(x, y) <= r <= Max(x, y)
    ensures f == 0.0 ==> r == x
    ensures f == 1.0 ==> r == y
  {
    LerpBetween(x, y, f);
    x + (y - x) * f
  }

  lemma MulNonNegative(a: real, b: real)
    requires a >= 0.0 && b >= 0.0
    ensures a * b >= 0.0
  {
  }

  lemma LerpBetween(x: real, y: real, f: real)
    requires 0.0 <= f <= 1.0
    ensures Min(x, y) <= x + (y - x) * f <= Max(x, y)
  {
    if x <= y {
      MulNonNegative(y - x, f);
      MulNonNegative(y - x, 1.0 - f);
      assert (y - x) * (1.0 - f) == (y - x) - (y - x) * f;
    } else {
      MulNonNegative(x - y, f);
      MulNonNegative(x - y, 1.0 - f);
      assert (x - y) * (1.0 - f) == (x - y) - (x - y) * f;
      assert (x - y) * f == -((y - x) * f);
    }
  }

  /**
   * The pump gain `dt` seconds after a pump scheduled with gain `hold` at that
   * moment: a linear ramp down to `duck` over the attack, a linear ramp back
   * up to 1 over the release, then 1.
   */
  function PumpLevel(hold: real, duck: real, attackSec: real, releaseSec: real, dt: real): (g: real)
    requires attackSec > 0.0 && releaseSec > 0.0 && dt >= 0.0
    requires 0.0 <= duck <= 1.0 && 0.0 <= hold <= 1.0
    ensures Min(hold, duck) <= g <= 1.0
    ensures dt == 0.0 ==> g == hold
    ensures dt == attackSec ==> g == duck
    ensures dt >= attackSec + releaseSec ==> g == 1.0
  {
    if dt <= attackSec then Lerp(hold, duck, dt / attackSec)
    else if dt <= attackSec + releaseSec then Lerp(duck, 1.0, (dt - attackSec) / releaseSec)
    else 1.0
  }

  /** The pump gain `dt` seconds after stopping with gain `hold`: a 30 ms ramp back to 1. */
  function StopLevel(hold: real, dt: real): (g: real)
    requires 0.0 <= hold <= 1.0 && dt >= 0.0
    ensures hold <= g <= 1.0
    ensures dt >= StopRampSec ==> g == 1.0
  {
    if dt <= StopRampSec then Lerp(hold, 1.0, dt / StopRampSec) else 1.0
  }

  /**
   * The two ramps a pump schedules are the corners of `PumpLevel`: the gain
   * reaches 1 - depth when the attack ends and 1 when the release ends, and
   * stays at 1 from then on.
   */
  lemma PumpEventsFollowLevel(now: real, hold: real, depth: real, attackMs: real, releaseMs: real, dt: real)
    requires 0.0 <= hold <= 1.0 && 0.0 <= depth <= 0.95
    requires 1.0 <= attackMs <= 80.0 && 20.0 <= releaseMs <= 800.0
    requires dt >= 0.0
    ensures var ev := PumpEvents(now, depth, attackMs, releaseMs);
            var a := attackMs / 1000.0;
            var r := releaseMs / 1000.0;
            && ev[2] == RampTo(PumpLevel(hold, 1.0 - depth, a, r, a), now + a)
            && ev[3] == RampTo(PumpLevel(hold, 1.0 - depth, a, r, a + r), now + a + r)
            && PumpLevel(hold, 1.0 - depth, a, r, a + r + dt) == 1.0
  {
  }

  /**
   * With the default settings each pump ducks the wet path to 0.1 and is back
   * at unity 263 ms later, inside the 500 ms beat at the default 120 BPM; at
   * the fastest tempo and the longest envelope (880 ms against a 250 ms beat)
   * the next pump cancels the recovery part-way.
   */
  lemma PumpTiming()
    ensures 1.0 - DefaultDepth == 0.1
    ensures DefaultAttackMs + DefaultReleaseMs < PeriodMs(DefaultBpm)
    ensures 80.0 + 800.0 > PeriodMs(240.0)
  {
  }

  class KickEffect {
    /** The audio clock. */
    var now: real
    var wet: real
    var dry: real
    var bpm: real
    var depth: real
    var attackMs: real
    var releaseMs: real
    /** The repeating timer: its period while it runs. */
    var timerMs: Option<real>
    /** Every automation call made on the pump gain, oldest first. */
    var events: seq<AutoEvent>

    /** Settings within their setters' ranges, and a running timer at one beat after a pump. */
    ghost predicate Configured()
      reads this
    {
      && Blend(wet, dry)
      && 40.0 <= bpm <= 240.0
      && 0.0 <= depth <= 0.95
      && 1.0 <= attackMs <= 80.0
      && 20.0 <= releaseMs <= 800.0
      && (timerMs.Some? ==> timerMs.value == PeriodMs(bpm) && Settles(events))
    }

    /** The timer runs exactly while the mix is above zero, and the gain always heads back to 1. */
    ghost predicate Valid()
      reads this
    {
      && Configured()
      && (timerMs.Some? <==> wet > 0.0)
      && Settles(events)
    }

    /**
     * The last scheduled automation ramps the gain back to 1: whatever was
     * cancelled, the wet path is never left ducked.
     */
    static predicate Settles(events: seq<AutoEvent>) {
      |events| > 0 && events[|events| - 1].RampTo? && events[|events| - 1].value == 1.0
    }

    /** The constructor: 120 BPM, depth 0.9, 3 ms attack, 260 ms release, fully dry and idle. */
    constructor (now: real)
      ensures Valid() && this.now == now
      ensures bpm == DefaultBpm && depth == DefaultDepth
      ensures attackMs == DefaultAttackMs && releaseMs == DefaultReleaseMs
      ensures wet == 0.0 && dry == 1.0 && timerMs.None?
      ensures events == StopEvents(now)
    {
      this.now := now;
      bpm, depth, attackMs, releaseMs := DefaultBpm, DefaultDepth, DefaultAttackMs, DefaultReleaseMs;
      wet, dry := 0.0, 1.0;
      timerMs := None;
      events := [];
      new;
      SetMix(0.0);
    }

    method AdvanceClock(dt: real)
      requires Valid() && dt >= 0.0
      modifies this`now
      ensures Valid() && now == old(now) + dt
    {
      now := now + dt;
    }

    /** `setMix`: sets the blend, then stops pumping at zero and starts it otherwise. */
    method SetMix(mix01: real)
      requires Configured()
      modifies this`wet, this`dry, this`timerMs, this`events
      ensures Valid()
      ensures wet == WetLevel(mix01) && dry == 1.0 - wet
      ensures wet == 0.0 ==> timerMs.None? && events == old(events) + StopEvents(now)
      ensures wet > 0.0 && old(timerMs).None? ==>
                timerMs == Some(PeriodMs(bpm)) && events == old(events) + PumpEvents(now, depth, attackMs, releaseMs)
      ensures wet > 0.0 && old(timerMs).Some? ==> timerMs == old(timerMs) && events == old(events)
    {
      var m := WetLevel(mix01);
      wet := m;
      dry := 1.0 - m;
      if m == 0.0 {
        StopPumping();
      } else {
        StartPumping();
      }
    }

    /** `setBpm`: clamps the tempo and, if pumping, restarts the timer at the new period. */
    method SetBpm(bpm: real)
      requires Valid()
      modifies this`bpm, this`timerMs, this`events
      ensures Valid()
      ensures this.bpm == BpmOf(bpm)
      ensures old(timerMs).None? ==> timerMs.None? && events == old(events)
      ensures old(timerMs).Some? ==>
                timerMs == Some(PeriodMs(this.bpm))
                && events == old(events) + StopEvents(now) + PumpEvents(now, depth, attackMs, releaseMs)
    {
      this.bpm := Max(40.0, Min(240.0, bpm));
      if timerMs.Some? {
        StopPumping();
        StartPumping();
      }
    }

    /** `setDepth`. */
    method SetDepth(depth01: real)
      requires Valid()
      modifies this`depth
      ensures Valid() && depth == DepthOf(depth01)
    {
      depth := Max(0.0, Min(0.95, depth01));
    }

    /** `setAttackMs`. */
    method SetAttackMs(ms: real)
      requires Valid()
      modifies this`attackMs
      ensures Valid() && attackMs == AttackOf(ms)
    {
      attackMs := Max(1.0, Min(80.0, ms));
    }

    /** `setReleaseMs`. */
    method SetReleaseMs(ms: real)
      requires Valid()
      modifies this`releaseMs
      ensures Valid() && releaseMs == ReleaseOf(ms)
    {
      releaseMs := Max(20.0, Min(800.0, ms));
    }

    /** `startPumping`: does nothing if the timer runs; otherwise starts it at one beat and pumps at once. */
    method StartPumping()
      requires 40.0 <= bpm <= 240.0 && 0.0 <= depth <= 0.95
      requires timerMs.Some? ==> timerMs.value == PeriodMs(bpm) && Settles(events)
      modifies this`timerMs, this`events
      ensures timerMs == Some(PeriodMs(bpm)) && Settles(events)
      ensures old(timerMs).Some? ==> events == old(events)
      ensures old(timerMs).None? ==> events == old(events) + PumpEvents(now, depth, attackMs, releaseMs)
    {
      if timerMs.Some? {
        return;
      }
      timerMs := Some(60000.0 / bpm);
      PumpOnce();
    }

    /** `stopPumping`: clears the timer and ramps the gain from its current value back to 1 over 30 ms. */
    method StopPumping()
      modifies this`timerMs, this`events
      ensures timerMs.None? && Settles(events)
      ensures events == old(events) + StopEvents(now)
    {
      timerMs := None;
      events := events + [CancelFrom(now), HoldCurrent(now), RampTo(1.0, now + 0.03)];
    }

    /** `pumpOnce`: from the current gain, ramp to 1 - depth over the attack, then back to 1 over the release. */
    method PumpOnce()
      modifies this`events
      ensures Settles(events)
      ensures events == old(events) + PumpEvents(now, depth, attackMs, releaseMs)
    {
      var t := now;
      var duckTo := 1.0 - depth;
      var attackSec := attackMs / 1000.0;
      var releaseSec := releaseMs / 1000.0;
      events := events + [CancelFrom(t), HoldCurrent(t)];
      events := events + [RampTo(duckTo, t + attackSec)];
      events := events + [RampTo(1.0, t + attackSec + releaseSec)];
    }

    /** One firing of the repeating timer. */
    method PumpTick()
      requires Valid() && timerMs.Some?
      modifies this`events
      ensures Valid()
      ensures events == old(events) + PumpEvents(now, depth, attackMs, releaseMs)
    {
      PumpOnce();
    }
  }
}
