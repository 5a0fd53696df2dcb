/**
 * The dry/wet blend every insert effect shares: `setMix` clamps the mix to
 * [0, 1], sets the wet gain to it and the dry gain to its complement.
 */
module DryWet {
  import opened Numeric

  /** The wet gain `setMix(mix)` applies. */
  function WetLevel(mix: real): (m: real)
    ensures 0.0 <= m <= 1.0
    ensures 0.0 <= mix <= 1.0 ==> m == mix
    ensures mix <= 0.0 ==> m == 0.0
    ensures mix >= 1.0 ==> m == 1.0
  {
    Clamp(mix, 0.0, 1.0)
  }

  /** A blend: wet in [0, 1], dry its complement, so the two always sum to unity gain. */
  predicate Blend(wet: real, dry: real) {
    0.0 <= wet <= 1.0 && dry == 1.0 - wet
  }

  /** A larger mix never gives a smaller wet gain. */
  lemma WetLevelMonotone(a: real, b: real)
    requires a <= b
    ensures WetLevel(a) <= WetLevel(b)
  {
    ClampMonotone(a, b, 0.0, 1.0);
  }
}
