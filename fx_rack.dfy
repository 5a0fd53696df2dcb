/**
 * The effect rack: one instance of each insert effect, chained
 * crush -> flanger -> slicer -> kick, all starting dry, each switched fully
 * on or off by type.
 */
module FxRack {
  import CrushFx
  import FlangerFx
  import SlicerFx
  import KickFx

  datatype FxType = Crush | Flanger | Slicer | Kick

  /** The order the input passes through the effects. */
  const Chain: seq<FxType> := [Crush, Flanger, Slicer, Kick]

  /** Every effect sits in the chain exactly once. */
  lemma ChainHoldsEachOnce(t: FxType)
    ensures multiset(Chain)[t] == 1
  {
  }

  /** `setEnabled`'s mix: 1 when enabled, 0 when not. */
  function EnabledMix(enabled: bool): (m: real)
    ensures m == 1.0 || m == 0.0
    ensures m == 1.0 <==> enabled
  {
    if enabled then 1.0 else 0.0
  }

  class Rack {
    const crush: CrushFx.CrushEffect
    const flanger: FlangerFx.FlangerEffect
    const slicer: SlicerFx.SlicerEffect
    const kick: KickFx.KickEffect

    ghost predicate Valid()
      reads this, crush, crush.curve, flanger, slicer, kick
    {
      crush.Valid() && flanger.Valid() && slicer.Valid() && kick.Valid()
    }

    /** The constructor builds the four effects and sets the first three to dry. */
    constructor (now: real)
      ensures Valid()
      ensures fresh(crush) && fresh(flanger) && fresh(slicer) && fresh(kick)
      ensures crush.wet == 0.0 && flanger.wet == 0.0 && slicer.wet == 0.0 && kick.wet == 0.0
      ensures kick.timerMs.None?
    {
      var c := new CrushFx.CrushEffect();
      var f := new FlangerFx.FlangerEffect();
      var s := new SlicerFx.SlicerEffect();
      var k := new KickFx.KickEffect(now);
      c.SetMix(0.0);
      f.SetMix(0.0);
      s.SetMix(0.0);
      crush, flanger, slicer, kick := c, f, s, k;
    }

    /**
     * `setEnabled`: sets the named effect's mix to 1 or 0 and leaves the
     * others alone; the kick starts or stops pumping accordingly.
     */
    method SetEnabled(t: FxType, enabled: bool)
      requires Valid()
      modifies crush`wet, crush`dry, flanger`wet, flanger`dry, slicer`wet, slicer`dry
      modifies kick`wet, kick`dry, kick`timerMs, kick`events
      ensures Valid()
      ensures t == Crush ==> crush.wet == EnabledMix(enabled)
      ensures t == Flanger ==> flanger.wet == EnabledMix(enabled)
      ensures t == Slicer ==> slicer.wet == EnabledMix(enabled)
      ensures t == Kick ==> kick.wet == EnabledMix(enabled) && (kick.timerMs.Some? <==> enabled)
      ensures t != Crush ==> unchanged(crush)
      ensures t != Flanger ==> unchanged(flanger)
      ensures t != Slicer ==> unchanged(slicer)
      ensures t != Kick ==> unchanged(kick)
    {
      var m := if enabled then 1.0 else 0.0;
      if t == Crush { crush.SetMix(m); }
      if t == Flanger { flanger.SetMix(m); }
      if t == Slicer { slicer.SetMix(m); }
      if t == Kick { kick.SetMix(m); }
    }
  }
}
