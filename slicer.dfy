/**
 * The slicer (trance gate) insert effect: the wet path runs through a gain
 * stage whose gain is driven by a square-wave LFO plus a constant bias, so
 * the wet signal is chopped on and off at the LFO rate.
 *
 * The gain a Web Audio parameter applies is its intrinsic value plus the sum
 * of every signal connected into it. The gate's driving signals are the LFO
 * (a square wave of +1 and -1) scaled by 0.5, and a constant 0.5.
 *
 * The gate is described at an LFO phase, counted in cycles since the
 * oscillator started: at a fixed rate `hz` that is `hz * t`, and a rate
 * change only changes how fast the phase advances.
 */
module SlicerFx {
  import opened Numeric
  import opened DryWet

  const LfoDepth: real := 0.5
  const Bias: real := 0.5
  const DefaultRateHz: real := 10.0
  /** The gate's intrinsic gain as the constructor sets it. */
  const GateIntrinsicAsWritten: real := 1.0
  /** The intrinsic gain under which LFO and bias alone make a 0/1 gate. */
  const GateIntrinsic: real := 0.0

  /** The fractional part of x, in [0, 1). */
  function Frac(x: real): (f: real)
    ensures 0.0 <= f < 1.0
  {
    x - x.Floor as real
  }

  /** Whether a phase (in cycles) falls in the first half of its period. */
  predicate FirstHalf(phase: real) {
    Frac(phase) < 0.5
  }

  /** The square oscillator: +1 over the first half of each period, -1 over the second. */
  function Square(phase: real): (v: real)
    ensures v == 1.0 || v == -1.0
    ensures v == 1.0 <==> FirstHalf(phase)
  {
    if FirstHalf(phase) then 1.0 else -1.0
  }

  /** The gate's computed gain at an LFO phase, for a given intrinsic value. */
  function GateAt(intrinsic: real, phase: real): real {
    intrinsic + LfoDepth * Square(phase) + Bias
  }

  /**
   * As written (intrinsic gain 1), the gate swings between 1 and 2: it never
   * silences the wet path, and in the "open" half-period it doubles it.
   */
  lemma GateAsWrittenNeverCloses(phase: real)
    ensures GateAt(GateIntrinsicAsWritten, phase) >= 1.0
    ensures GateAt(GateIntrinsicAsWritten, phase) == (if FirstHalf(phase) then 2.0 else 1.0)
  {
  }

  /**
   * The gain the wet signal passes through at an LFO phase when the gate's
   * intrinsic value is 0: the 0/1 gate the effect is designed as, fully open
   * over the first half of every LFO period and fully shut over the second.
   */
  function Gate(phase: real): (g: real)
    ensures g == 0.0 || g == 1.0
    ensures g == 1.0 <==> FirstHalf(phase)
  {
    GateAt(GateIntrinsic, phase)
  }

  /** `setRate`'s clamp: the chop rate is kept in [0.5, 24] Hz. */
  function RateOf(hz: real): (r: real)
    ensures 0.5 <= r <= 24.0
    ensures 0.5 <= hz <= 24.0 ==> r == hz
  {
    Clamp(hz, 0.5, 24.0)
  }

  class SlicerEffect {
    /** The gate gain stage's intrinsic value, as the constructor sets it. */
    const gateIntrinsic: real
    var wet: real
    var dry: real
    var lfoHz: real

    ghost predicate Valid()
      reads this
    {
      && Blend(wet, dry)
      && 0.5 <= lfoHz <= 24.0
      && gateIntrinsic == GateIntrinsicAsWritten
    }

    /** The constructor: a 10 Hz gate with intrinsic gain 1, fully dry. */
    constructor ()
      ensures Valid()
      ensures gateIntrinsic == GateIntrinsicAsWritten
      ensures lfoHz == DefaultRateHz && wet == 0.0 && dry == 1.0
    {
      gateIntrinsic := GateIntrinsicAsWritten;
      wet, dry := 0.0, 1.0;
      lfoHz := DefaultRateHz;
      new;
      SetMix(0.0);
    }

    /** The gain the gate stage applies at an LFO phase: its intrinsic value plus LFO and bias. */
    function GateGain(phase: real): real
      reads this
    {
      GateAt(gateIntrinsic, phase)
    }

    /** `setMix`. */
    method SetMix(mix01: real)
      requires Valid()
      modifies this`wet, this`dry
      ensures Valid()
      ensures wet == WetLevel(mix01) && dry == 1.0 - wet
    {
      var m := WetLevel(mix01);
      wet := m;
      dry := 1.0 - m;
    }

    /** `setRate`. */
    method SetRate(hz: real)
      requires Valid()
      modifies this`lfoHz
      ensures Valid() && lfoHz == RateOf(hz)
    {
      lfoHz := Max(0.5, Min(24.0, hz));
    }
  }

  /**
   * The effect as built never closes its gate: at every LFO phase the wet
   * path passes through a gain of 2 in the first half of the period and 1 in
   * the second.
   */
  lemma BuiltGateNeverCloses(e: SlicerEffect, phase: real)
    requires e.Valid()
    ensures e.GateGain(phase) >= 1.0
    ensures e.GateGain(phase) == (if FirstHalf(phase) then 2.0 else 1.0)
  {
    GateAsWrittenNeverCloses(phase);
  }
}
