/**
 * The bit-crush insert effect: the wet path drives a wave shaper whose
 * transfer curve quantizes [-1, 1] into `steps` levels per polarity (with a
 * 1.1x push into clipping); the dry/wet blend mixes it with the input.
 */
module CrushFx {
  import opened Numeric
  import opened DryWet

  /** Number of points in the shaper curve. */
  const CurveLength: int := 44100
  const PreGain: real := 2.5
  const PostGain: real := 0.7
  const DefaultSteps: real := 32.0

  /** `setAmount`'s step count: floor of the argument, clamped to 4..128. */
  function ClampSteps(steps: real): (s: int)
    ensures 4 <= s <= 128
    ensures 4.0 <= steps < 129.0 ==> s == steps.Floor
  {
    MaxInt(4, MinInt(128, steps.Floor))
  }

  /** The input value curve point i stands for: i spread evenly over [-1, 1]. */
  function CurveX(i: int): real {
    (i as real / (CurveLength - 1) as real) * 2.0 - 1.0
  }

  /** The quantization level index of point i: x * steps rounded. */
  function LevelIndex(steps: int, i: int): int
    requires steps >= 1
  {
    Round(CurveX(i) * steps as real)
  }

  /** The output for level k: k / steps pushed by 1.1 and clipped to [-1, 1]. */
  function Level(steps: int, k: int): (y: real)
    requires steps >= 1
    ensures -1.0 <= y <= 1.0
  {
    Clamp((k as real / steps as real) * 1.1, -1.0, 1.0)
  }

  /** Point i of the curve `makeQuantizeCurve(steps)` builds. */
  function CurveSample(steps: int, i: int): real
    requires steps >= 1
  {
    Level(steps, LevelIndex(steps, i))
  }

  lemma CurveXRange(i: int)
    requires 0 <= i < CurveLength
    ensures -1.0 <= CurveX(i) <= 1.0
  {
  }

  lemma MulMonotone(a: real, b: real, c: real)
    requires a <= b && c >= 0.0
    ensures a * c <= b * c
  {
  }

  lemma DivMonotone(a: real, b: real, c: real)
    requires a <= b && c > 0.0
    ensures a / c <= b / c
  {
  }

  lemma RoundOfInt(k: int)
    ensures Round(k as real) == k
  {
  }

  /** Every point of the curve sits on one of the 2 * steps + 1 levels -steps..steps. */
  lemma {:induction false} LevelIndexRange(steps: int, i: int)
    requires steps >= 1 && 0 <= i < CurveLength
    ensures -steps <= LevelIndex(steps, i) <= steps
  {
    CurveXRange(i);
    var s := steps as real;
    var x := CurveX(i);
    ScaleWithin(x, s);
    RoundMonotone(-s, x * s);
    RoundMonotone(x * s, s);
    RoundOfInt(-steps);
    RoundOfInt(steps);
  }

  lemma ScaleWithin(x: real, s: real)
    requires -1.0 <= x <= 1.0 && s >= 0.0
    ensures -s <= x * s <= s
  {
    MulMonotone(-1.0, x, s);
    MulMonotone(x, 1.0, s);
  }

  /** The levels -steps..k as a set. */
  function LevelsUpTo(steps: int, k: int): set<real>
    requires steps >= 1
    decreases k + steps
  {
    if k < -steps then {} else LevelsUpTo(steps, k - 1) + {Level(steps, k)}
  }

  lemma {:induction false} LevelsUpToSize(steps: int, k: int)
    requires steps >= 1
    ensures |LevelsUpTo(steps, k)| <= MaxInt(0, k + steps + 1)
    ensures forall j :: -steps <= j <= k ==> Level(steps, j) in LevelsUpTo(steps, k)
    decreases k + steps
  {
    if k >= -steps {
      LevelsUpToSize(steps, k - 1);
    }
  }

  /**
   * A curve built for `steps` takes at most 2 * steps + 1 distinct values
   * (nine at steps = 4): quantization coarsens any input ramp.
   */
  lemma {:induction false} CurveDistinctLevels(steps: int)
    requires steps >= 1
    ensures (set i | 0 <= i < CurveLength :: CurveSample(steps, i)) <= LevelsUpTo(steps, steps)
    ensures |LevelsUpTo(steps, steps)| <= 2 * steps + 1
  {
    LevelsUpToSize(steps, steps);
    forall i | 0 <= i < CurveLength
      ensures CurveSample(steps, i) in LevelsUpTo(steps, steps)
    {
      LevelIndexRange(steps, i);
    }
  }

  /** The curve never decreases along its length. */
  lemma {:induction false} CurveMonotone(steps: int, i: int, j: int)
    requires steps >= 1 && i <= j
    ensures CurveSample(steps, i) <= CurveSample(steps, j)
  {
    var s := steps as real;
    assert CurveX(i) <= CurveX(j);
    MulMonotone(CurveX(i), CurveX(j), s);
    RoundMonotone(CurveX(i) * s, CurveX(j) * s);
    var ki := LevelIndex(steps, i);
    var kj := LevelIndex(steps, j);
    assert ki == Round(CurveX(i) * s);
    assert kj == Round(CurveX(j) * s);
    assert ki <= kj;
    DivMonotone(ki as real, kj as real, s);
    ClampMonotone((ki as real / s) * 1.1, (kj as real / s) * 1.1, -1.0, 1.0);
  }

  /** The curve runs from -1 at its first point to +1 at its last. */
  lemma CurveEnds(steps: int)
    requires steps >= 1
    ensures CurveSample(steps, 0) == -1.0
    ensures CurveSample(steps, CurveLength - 1) == 1.0
  {
    var s := steps as real;
    assert CurveX(0) == -1.0;
    assert CurveX(CurveLength - 1) == 1.0;
    RoundOfInt(-steps);
    RoundOfInt(steps);
    assert LevelIndex(steps, 0) == -steps;
    assert LevelIndex(steps, CurveLength - 1) == steps;
    assert (-steps) as real / s == -1.0;
    assert steps as real / s == 1.0;
  }

  lemma OddProduct(a: int, b: int)
    requires a % 2 == 1 && b % 2 == 1
    ensures (a * b) % 2 == 1
  {
    var p := a / 2;
    var q := b / 2;
    assert a == 2 * p + 1 && b == 2 * q + 1;
    assert a * b == 2 * (2 * p * q + p + q) + 1;
  }

  lemma EvenDouble(h: int)
    ensures (2 * h) % 2 == 0
  {
  }

  /** y is not half-way between two integers. */
  predicate OffHalfWay(y: real) {
    (y + 0.5).Floor as real != y + 0.5
  }

  /** Rounding commutes with negation away from the half-way points. */
  lemma RoundNegate(y: real)
    requires OffHalfWay(y)
    ensures Round(-y) == -Round(y)
  {
    var f := (y + 0.5).Floor;
    assert (-f) as real < -y + 0.5 < (-f + 1) as real;
  }

  /** No curve point lands exactly half-way between two levels (the point spacing has an odd denominator). */
  lemma {:induction false} NoHalfWayPoint(steps: int, i: int)
    requires steps >= 1
    ensures OffHalfWay(CurveX(i) * steps as real)
  {
    var m := CurveLength - 1;
    var y := CurveX(i) * steps as real;
    var k := (y + 0.5).Floor;
    var h := (2 * i - m) * steps;
    var e := 2 * h;
    assert CurveX(i) == (2 * i - m) as real / m as real;
    assert 2.0 * y * m as real == e as real;
    OddProduct(2 * k - 1, m);
    EvenDouble(h);
    assert ((2 * k - 1) * m) as real != e as real;
  }

  lemma CurveXMirror(i: int)
    ensures CurveX(CurveLength - 1 - i) == -CurveX(i)
  {
  }

  /** The level table is odd: level -k is level k negated. */
  lemma LevelNegate(steps: int, k: int)
    requires steps >= 1
    ensures Level(steps, -k) == -Level(steps, k)
  {
    var s := steps as real;
    assert ((-k) as real / s) * 1.1 == -((k as real / s) * 1.1);
  }

  /** The curve is odd: the point mirrored about the centre has the negated value. */
  lemma {:induction false} CurveOddSymmetric(steps: int, i: int)
    requires steps >= 1
    ensures CurveSample(steps, CurveLength - 1 - i) == -CurveSample(steps, i)
  {
    var y := CurveX(i) * steps as real;
    NoHalfWayPoint(steps, i);
    RoundNegate(y);
    CurveXMirror(i);
    assert CurveX(CurveLength - 1 - i) * steps as real == -y;
    LevelNegate(steps, LevelIndex(steps, i));
  }

  /** `makeQuantizeCurve`: a new array holding the quantization curve for `steps`. */
  method MakeQuantizeCurve(steps: int) returns (curve: array<real>)
    requires steps >= 1
    ensures curve.Length == CurveLength
    ensures forall i :: 0 <= i < CurveLength ==> curve[i] == CurveSample(steps, i)
  {
    curve := new real[CurveLength];
    for i := 0 to CurveLength
      invariant forall j :: 0 <= j < i ==> curve[j] == CurveSample(steps, j)
    {
      var x := (i as real / (CurveLength - 1) as real) * 2.0 - 1.0;
      var y := Round(x * steps as real) as real / steps as real;
      assert x == CurveX(i);
      assert Round(x * steps as real) == LevelIndex(steps, i);
      curve[i] := Clamp(y * 1.1, -1.0, 1.0);
    }
  }

  class CrushEffect {
    const preGain: real
    const postGain: real
    var wet: real
    var dry: real
    /** The step count of the curve currently installed in the shaper. */
    var steps: int
    var curve: array<real>

    ghost predicate Valid()
      reads this, curve
    {
      && Blend(wet, dry)
      && 4 <= steps <= 128
      && curve.Length == CurveLength
      && (forall i :: 0 <= i < CurveLength ==> curve[i] == CurveSample(steps, i))
    }

    /** The constructor: gains 2.5 and 0.7 around the shaper, a 32-step curve, fully dry. */
    constructor ()
      ensures Valid()
      ensures preGain == PreGain && postGain == PostGain
      ensures steps == 32 && wet == 0.0 && dry == 1.0
    {
      preGain := PreGain;
      postGain := PostGain;
      var s := ClampSteps(DefaultSteps);
      var c := MakeQuantizeCurve(s);
      steps := s;
      curve := c;
      wet, dry := 0.0, 1.0;
      new;
      SetMix(0.0);
    }

    /** `setMix`. */
    method SetMix(mix01: real)
      requires Valid()
      modifies this`wet, this`dry
      ensures Valid()
      ensures wet == WetLevel(mix01) && dry == 1.0 - wet
    {
      var m := WetLevel(mix01);
      wet := m;
      dry := 1.0 - m;
    }

    /** `setAmount`: installs a freshly built curve for the clamped step count. */
    method SetAmount(steps: real)
      requires Valid()
      modifies this`steps, this`curve
      ensures Valid()
      ensures this.steps == ClampSteps(steps)
    {
      var s := ClampSteps(steps);
      var c := MakeQuantizeCurve(s);
      this.steps := s;
      curve := c;
    }
  }
}
