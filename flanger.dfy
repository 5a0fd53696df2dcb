/**
 * The flanger insert effect: a short delay line whose delay time is swept by
 * a sine LFO around a 4 ms base, with a feedback path from the delay output
 * back into its input, blended with the dry signal.
 */
module FlangerFx {
  import opened Numeric
  import opened DryWet

  /** Capacity of the delay line (the `createDelay` argument), in seconds. */
  const MaxDelaySec: real := 0.05
  /** Intrinsic delay time the LFO sweeps around. */
  const BaseDelaySec: real := 0.004
  const DefaultFeedback: real := 0.75
  const DefaultRateHz: real := 0.35
  const DefaultDepthSec: real := 0.008

  /** `setRate`'s clamp: the LFO frequency is kept in [0.05, 5] Hz. */
  function RateOf(hz: real): (r: real)
    ensures 0.05 <= r <= 5.0
    ensures 0.05 <= hz <= 5.0 ==> r == hz
  {
    Clamp(hz, 0.05, 5.0)
  }

  /** `setDepth`'s clamp: the sweep depth is kept in [1, 12] ms. */
  function DepthOf(sec: real): (d: real)
    ensures 0.001 <= d <= 0.012
    ensures 0.001 <= sec <= 0.012 ==> d == sec
  {
    Clamp(sec, 0.001, 0.012)
  }

  /** `setFeedback`'s clamp: the loop gain is kept in [0, 0.95]. */
  function FeedbackOf(value01: real): (g: real)
    ensures 0.0 <= g <= 0.95
    ensures 0.0 <= value01 <= 0.95 ==> g == value01
  {
    Clamp(value01, 0.0, 0.95)
  }

  /**
   * The delay time the delay node is asked for when the LFO output is `lfo`:
   * the intrinsic value plus the LFO scaled by the depth gain.
   */
  function DelayAt(depthSec: real, lfo: real): real {
    BaseDelaySec + depthSec * lfo
  }

  /**
   * Over a whole sine cycle (LFO output in [-1, 1]) and for every depth the
   * setter allows, the requested delay stays within [base - depth, base + depth]
   * and so never exceeds the 50 ms the delay line holds.
   */
  lemma DelayWithinLine(depthSec: real, lfo: real)
    requires 0.001 <= depthSec <= 0.012 && -1.0 <= lfo <= 1.0
    ensures BaseDelaySec - depthSec <= DelayAt(depthSec, lfo) <= BaseDelaySec + depthSec
    ensures DelayAt(depthSec, lfo) <= 0.016 < MaxDelaySec
  {
    assert depthSec * lfo <= depthSec * 1.0;
    assert depthSec * (-1.0) <= depthSec * lfo;
  }

  /**
   * Any depth above the 4 ms base asks for a negative delay in the LFO's
   * lower half-cycle (the default 8 ms reaches -4 ms); the delay node holds
   * such requests at zero.
   */
  lemma DelayDipsBelowZero(depthSec: real)
    requires depthSec > BaseDelaySec
    ensures DelayAt(depthSec, -1.0) < 0.0
    ensures DelayAt(DefaultDepthSec, -1.0) == -0.004
  {
  }

  /**
   * Total gain of the first `n` passes around the feedback loop
   * (1 + g + g^2 + ... + g^(n-1)).
   */
  function LoopGain(g: real, n: nat): real {
    if n == 0 then 0.0 else 1.0 + g * LoopGain(g, n - 1)
  }

  /**
   * With the feedback gain clamped to at most 0.95, the echoes of an input
   * never add up to more than 20 times the input, however many passes are
   * counted: the loop cannot run away.
   */
  lemma {:induction false} FeedbackBounded(g: real, n: nat)
    requires 0.0 <= g <= 0.95
    ensures 0.0 <= LoopGain(g, n) <= 20.0
    ensures n >= 1 ==> LoopGain(g, n) >= 1.0
  {
    if n > 0 {
      FeedbackBounded(g, n - 1);
      var x := LoopGain(g, n - 1);
      assert g * x <= 0.95 * x;
      assert 0.0 <= g * x;
    }
  }

  /** The echo total only grows with the number of passes counted. */
  lemma {:induction false} LoopGainGrows(g: real, n: nat)
    requires 0.0 <= g <= 0.95
    ensures LoopGain(g, n) <= LoopGain(g, n + 1)
  {
    if n > 0 {
      LoopGainGrows(g, n - 1);
      var a, b, c := LoopGain(g, n - 1), LoopGain(g, n), LoopGain(g, n + 1);
      assert b == 1.0 + g * a;
      assert c == 1.0 + g * b;
      ScaleLeq(a, b, g);
    }
  }

  lemma ScaleLeq(a: real, b: real, g: real)
    requires a <= b && g >= 0.0
    ensures g * a <= g * b
  {
  }

  class FlangerEffect {
    var wet: real
    var dry: real
    var feedback: real
    var lfoHz: real
    var depthSec: real

    ghost predicate Valid()
      reads this
    {
      && Blend(wet, dry)
      && 0.0 <= feedback <= 0.95
      && 0.05 <= lfoHz <= 5.0
      && 0.001 <= depthSec <= 0.012
    }

    /** The constructor: 75% feedback, a 0.35 Hz sweep 8 ms deep, fully dry. */
    constructor ()
      ensures Valid()
      ensures feedback == DefaultFeedback && lfoHz == DefaultRateHz && depthSec == DefaultDepthSec
      ensures wet == 0.0 && dry == 1.0
    {
      feedback := DefaultFeedback;
      wet, dry := 0.0, 1.0;
      lfoHz := DefaultRateHz;
      depthSec := DefaultDepthSec;
      new;
      SetMix(0.0);
    }

    /** `setMix`. */
    method SetMix(mix01: real)
      requires Valid()
      modifies this`wet, this`dry
      ensures Valid()
      ensures wet == WetLevel(mix01) && dry == 1.0 - wet
    {
      var m := WetLevel(mix01);
      wet := m;
      dry := 1.0 - m;
    }

    /** `setRate`. */
    method SetRate(hz: real)
      requires Valid()
      modifies this`lfoHz
      ensures Valid() && lfoHz == RateOf(hz)
    {
      lfoHz := Max(0.05, Min(5.0, hz));
    }

    /** `setDepth`. */
    method SetDepth(sec: real)
      requires Valid()
      modifies this`depthSec
      ensures Valid() && depthSec == DepthOf(sec)
    {
      depthSec := Max(0.001, Min(0.012, sec));
    }

    /** `setFeedback`. */
    method SetFeedback(value01: real)
      requires Valid()
      modifies this`feedback
      ensures Valid() && feedback == FeedbackOf(value01)
    {
      feedback := Max(0.0, Min(0.95, value01));
    }
  }
}
