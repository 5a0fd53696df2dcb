/**
 * The crossfader: two gain stages, one per deck, set from a single fader
 * position in [-1, 1] through an equal-power (cosine/sine) law.
 */
module MixerModel {
  import opened Numeric

  /** `Math.PI` as the double the browser uses. */
  const Pi: real := 3.141592653589793
  const HalfPi: real := Pi * 0.5

  /** `Math.cos` and `Math.sin`, supplied by the platform. */
  datatype Trig = Trig(cos: real -> real, sin: real -> real)

  /**
   * What the mixer relies on from cosine and sine on the quarter turn [0, Pi/2]:
   * their values at both ends, that they lie in [0, 1], that the squares add to
   * one, and that sine is cosine read from the other end.
   */
  ghost predicate EqualPowerLaw(t: Trig) {
    && t.cos(0.0) == 1.0 && t.sin(0.0) == 0.0
    && t.cos(HalfPi) == 0.0 && t.sin(HalfPi) == 1.0
    && (forall a :: 0.0 <= a <= HalfPi ==> 0.0 <= t.cos(a) <= 1.0 && 0.0 <= t.sin(a) <= 1.0)
    && (forall a :: 0.0 <= a <= HalfPi ==> t.cos(a) * t.cos(a) + t.sin(a) * t.sin(a) == 1.0)
    && (forall a :: 0.0 <= a <= HalfPi ==> t.sin(a) == t.cos(HalfPi - a))
  }

  /** The fader angle: the position clamped into [-1, 1], mapped to [0, 1], times Pi/2. */
  function FaderAngle(value: real): (a: real)
    ensures 0.0 <= a <= HalfPi
  {
    var x := Clamp(value, -1.0, 1.0);
    var t := (x + 1.0) / 2.0;
    t * Pi * 0.5
  }

  /** Deck 1 gain (cosine) and deck 2 gain (sine) for a fader position. */
  function Gains(value: real, trig: Trig): (real, real)
  {
    var a := FaderAngle(value);
    (trig.cos(a), trig.sin(a))
  }

  /** Constant power: for every fader position the squared gains add to one, each in [0, 1]. */
  lemma ConstantPower(value: real, trig: Trig)
    requires EqualPowerLaw(trig)
    ensures var (g1, g2) := Gains(value, trig);
            g1 * g1 + g2 * g2 == 1.0 && 0.0 <= g1 <= 1.0 && 0.0 <= g2 <= 1.0
  {
  }

  /** Hard left plays only deck 1, hard right only deck 2; positions beyond the ends act as the ends. */
  lemma FaderEnds(value: real, trig: Trig)
    requires EqualPowerLaw(trig)
    ensures value <= -1.0 ==> Gains(value, trig) == (1.0, 0.0)
    ensures value >= 1.0 ==> Gains(value, trig) == (0.0, 1.0)
  {
  }

  /** At the centre both decks get the same gain, whose square is one half (the gain is sqrt(2)/2). */
  lemma FaderCentre(trig: Trig)
    requires EqualPowerLaw(trig)
    ensures Gains(0.0, trig).0 == Gains(0.0, trig).1
    ensures Gains(0.0, trig).0 * Gains(0.0, trig).0 == 0.5
  {
    var a := FaderAngle(0.0);
    assert a == HalfPi - a;
  }

  /** Mirroring the fader swaps the two gains. */
  lemma FaderMirror(value: real, trig: Trig)
    requires EqualPowerLaw(trig)
    ensures Gains(-value, trig).0 == Gains(value, trig).1
    ensures Gains(-value, trig).1 == Gains(value, trig).0
  {
    var a := FaderAngle(value);
    assert FaderAngle(-value) == HalfPi - a;
    assert HalfPi - (HalfPi - a) == a;
  }

  class Mixer {
    /** The platform's cosine and sine. */
    const trig: Trig
    var deck1Gain: real
    var deck2Gain: real

    ghost predicate Valid()
      reads this
    {
      && EqualPowerLaw(trig)
      && deck1Gain * deck1Gain + deck2Gain * deck2Gain == 1.0
      && 0.0 <= deck1Gain <= 1.0 && 0.0 <= deck2Gain <= 1.0
    }

    /** The constructor centres the fader. */
    constructor (trig: Trig)
      requires EqualPowerLaw(trig)
      ensures Valid() && this.trig == trig
      ensures deck1Gain == deck2Gain && deck1Gain * deck1Gain == 0.5
    {
      this.trig := trig;
      new;
      SetCrossfader(0.0);
      FaderCentre(trig);
    }

    /** `setCrossfader`: both gains are set from the clamped fader position. */
    method SetCrossfader(value: real)
      requires EqualPowerLaw(trig)
      modifies this
      ensures Valid()
      ensures (deck1Gain, deck2Gain) == Gains(value, trig)
    {
      var x := Clamp(value, -1.0, 1.0);
      var t := (x + 1.0) / 2.0;
      var angle := t * Pi * 0.5;
      assert angle == FaderAngle(value);
      ConstantPower(value, trig);
      deck1Gain := trig.cos(angle);
      deck2Gain := trig.sin(angle);
    }
  }
}
