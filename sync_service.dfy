/**
 * One-shot beat sync: the slave deck jumps by the (bounded) distance between
 * the two decks' next grid beats and ramps its playback rate towards the
 * tempo ratio, bounded to +/-2%.
 */
module SyncService {
  import opened Numeric
  import opened BeatGridModel
  import opened BeatAnalyzer
  import opened DeckModel

  const MaxJumpSec := 0.35
  const MinRate := 0.98
  const MaxRate := 1.02
  const RateRampSec := 1.2

  /** The distance from the slave's next beat to the master's next beat, each on its own grid. */
  function BeatDelta(masterPos: real, slavePos: real, master: BeatAnalysis, slave: BeatAnalysis): real
    requires master.bpm != 0.0 && slave.bpm != 0.0
  {
    NextBeatSec(CreateBeatGrid(master.bpm, master.anchorSec), masterPos)
      - NextBeatSec(CreateBeatGrid(slave.bpm, slave.anchorSec), slavePos)
  }

  /** The seek offset applied to the slave: the beat delta bounded to +/-0.35 s. */
  function Jump(delta: real): (j: real)
    ensures -MaxJumpSec <= j <= MaxJumpSec
    ensures -MaxJumpSec <= delta <= MaxJumpSec ==> j == delta
    ensures delta > MaxJumpSec ==> j == MaxJumpSec
    ensures delta < -MaxJumpSec ==> j == -MaxJumpSec
  {
    Clamp(delta, -MaxJumpSec, MaxJumpSec)
  }

  /** The rate the slave ramps to: master over slave tempo (slave floored at 1e-6), bounded to [0.98, 1.02]. */
  function TargetRate(masterBpm: real, slaveBpm: real): (r: real)
    ensures MinRate <= r <= MaxRate
  {
    Clamp(masterBpm / Max(0.000001, slaveBpm), MinRate, MaxRate)
  }

  /** Swapping master and slave negates the jump. */
  lemma JumpAntisymmetric(mPos: real, sPos: real, m: BeatAnalysis, s: BeatAnalysis)
    requires m.bpm != 0.0 && s.bpm != 0.0
    ensures Jump(BeatDelta(sPos, mPos, s, m)) == -Jump(BeatDelta(mPos, sPos, m, s))
  {
  }

  /** Two decks on the same grid at the same position need no jump and no tempo change. */
  lemma SyncOfIdenticalDecks(pos: real, a: BeatAnalysis)
    requires a.bpm >= 0.000001
    ensures Jump(BeatDelta(pos, pos, a, a)) == 0.0
    ensures TargetRate(a.bpm, a.bpm) == 1.0
  {
    assert a.bpm / Max(0.000001, a.bpm) == 1.0;
  }

  /** On grids of equal tempo and anchor, the delta is a whole number of beats. */
  lemma {:induction false} SameGridDeltaIsWholeBeats(mPos: real, sPos: real, a: BeatAnalysis)
    requires a.bpm > 0.0
    ensures var g := CreateBeatGrid(a.bpm, a.anchorSec);
            BeatDelta(mPos, sPos, a, a)
              == (NextBeatIndex(g, mPos) - NextBeatIndex(g, sPos)) as real * (60.0 / a.bpm)
  {
    var g := CreateBeatGrid(a.bpm, a.anchorSec);
    var km := NextBeatIndex(g, mPos);
    var ks := NextBeatIndex(g, sPos);
    assert Beat(g, km) - Beat(g, ks) == (km - ks) as real * g.beatIntervalSec;
  }

  /** The rate target only grows with the master tempo. */
  lemma TargetRateMonotone(m1: real, m2: real, slaveBpm: real)
    requires m1 <= m2
    ensures TargetRate(m1, slaveBpm) <= TargetRate(m2, slaveBpm)
  {
    var d := Max(0.000001, slaveBpm);
    assert m1 / d <= m2 / d;
    ClampMonotone(m1 / d, m2 / d, MinRate, MaxRate);
  }

  /** 140 over 100 BPM is clamped to +2%; 128 over 130 BPM (ratio 64/65) is inside the band and kept. */
  lemma TargetRateExamples()
    ensures TargetRate(140.0, 100.0) == 1.02
    ensures TargetRate(128.0, 130.0) == 64.0 / 65.0
    ensures TargetRate(100.0, 140.0) == 0.98
  {
  }

  /** `syncSlaveToMaster`. */
  method SyncSlaveToMaster(master: Deck, slave: Deck, masterAnalysis: BeatAnalysis, slaveAnalysis: BeatAnalysis)
    requires master.Valid() && slave.Valid()
    requires masterAnalysis.bpm != 0.0 && slaveAnalysis.bpm != 0.0
    modifies slave`isPlaying, slave`startedAt, slave`offsetSec, slave`source, slave`nextSourceId, slave`rateRamps
    ensures slave.Valid()
    ensures old(master.buffer).None? || old(slave.buffer).None? ==> unchanged(slave)
    ensures slave.buffer == old(slave.buffer) && slave.isPlaying == old(slave.isPlaying)
    ensures old(master.buffer).None? || old(slave.buffer).None? ==>
              slave.Cursor() == old(slave.Cursor()) && slave.rateRamps == old(slave.rateRamps)
    ensures old(master.buffer).Some? && old(slave.buffer).Some? ==>
              && slave.Position()
                   == Clamp(old(slave.Position())
                              + Jump(BeatDelta(old(master.Position()), old(slave.Position()),
                                               masterAnalysis, slaveAnalysis)),
                            0.0, slave.DurationSec())
              && slave.rateRamps
                   == old(slave.rateRamps) + [RateRamp(TargetRate(masterAnalysis.bpm, slaveAnalysis.bpm), RateRampSec)]
  {
    var mState := master.GetState();
    var sState := slave.GetState();
    if master.buffer.None? || slave.buffer.None? {
      return;
    }
    var mGrid := CreateBeatGrid(masterAnalysis.bpm, masterAnalysis.anchorSec);
    var sGrid := CreateBeatGrid(slaveAnalysis.bpm, slaveAnalysis.anchorSec);
    var masterNextBeat := NextBeatSec(mGrid, mState.positionSec);
    var slaveNextBeat := NextBeatSec(sGrid, sState.positionSec);
    var delta := masterNextBeat - slaveNextBeat;
    var clampedDelta := Clamp(delta, -MaxJumpSec, MaxJumpSec);
    slave.Seek(sState.positionSec + clampedDelta);
    var rawRate := masterAnalysis.bpm / Max(0.000001, slaveAnalysis.bpm);
    var targetRate := Clamp(rawRate, MinRate, MaxRate);
    slave.RampPlaybackRate(targetRate, RateRampSec);
  }
}
