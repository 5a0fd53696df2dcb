/**
 * One deck of the console: a loaded buffer and its reversed copy, the
 * play/stop/seek cursor, two cue slots, tone controls, and the two scratch
 * modes (a sustained hold and a finite burst) that play short grains.
 *
 * The audio context's clock is the field `now`; interval timers are the
 * `hold` and `burst` fields together with the `HoldTick` and `BurstTick`
 * methods that stand for one firing; the playing source node is an id, and
 * its asynchronous `onended` callback is the `SourceEnded` event.
 */
module DeckModel {
  import opened Wrappers
  import opened Numeric
  import opened AudioData

  type DeckId = i: int | i == 1 || i == 2 witness 1
  type CueIndex = i: int | i == 1 || i == 2 witness 1
  /** Scratch direction: +1 reads the buffer forwards, -1 the reversed copy. */
  type Dir = d: int | d == 1 || d == -1 witness 1

  /** The playback cursor `{isPlaying, startedAt, offsetSec}`. */
  datatype Transport = Transport(isPlaying: bool, startedAt: real, offsetSec: real)

  /** `getPositionSec` for a loaded buffer of duration `dur`. */
  function PositionAt(t: Transport, now: real, dur: real): (p: real)
    requires dur >= 0.0
    ensures 0.0 <= p <= dur
    ensures !t.isPlaying && 0.0 <= t.offsetSec <= dur ==> p == t.offsetSec
    ensures t.isPlaying && t.startedAt == now && 0.0 <= t.offsetSec <= dur ==> p == t.offsetSec
  {
    if !t.isPlaying then Clamp(t.offsetSec, 0.0, dur)
    else Clamp(t.offsetSec + (now - t.startedAt), 0.0, dur)
  }

  /** `startSourceAt`: a fresh source starts at the current clock from the clamped offset. */
  function StartAt(offset: real, now: real, dur: real): Transport {
    Transport(true, now, Clamp(offset, 0.0, dur))
  }

  /** `play` with a buffer loaded. */
  function PlayT(t: Transport, now: real, dur: real): Transport {
    if t.isPlaying then t else StartAt(t.offsetSec, now, dur)
  }

  /** `stop(hardReset)` with a buffer loaded. */
  function StopT(t: Transport, hardReset: bool, now: real, dur: real): Transport
    requires dur >= 0.0
  {
    var saved := if t.isPlaying then PositionAt(t, now, dur) else t.offsetSec;
    Transport(false, t.startedAt, if hardReset then 0.0 else saved)
  }

  /** `seek(sec)` with a buffer loaded: restart when playing, move the offset when stopped. */
  function SeekT(t: Transport, sec: real, now: real, dur: real): Transport {
    var target := Clamp(sec, 0.0, dur);
    if !t.isPlaying then t.(offsetSec := target) else StartAt(target, now, dur)
  }

  /** After a seek the deck is in the same play state and exactly at the clamped target. */
  lemma SeekLandsOnTarget(t: Transport, sec: real, now: real, dur: real)
    requires dur >= 0.0
    ensures SeekT(t, sec, now, dur).isPlaying == t.isPlaying
    ensures PositionAt(SeekT(t, sec, now, dur), now, dur) == Clamp(sec, 0.0, dur)
  {
  }

  /** Seeking twice to the same place is the same as seeking once. */
  lemma SeekIdempotent(t: Transport, sec: real, now: real, dur: real)
    requires dur >= 0.0
    ensures SeekT(SeekT(t, sec, now, dur), sec, now, dur) == SeekT(t, sec, now, dur)
  {
  }

  /** Pause (`stop(false)`) then `play` resumes playing from the paused position. */
  lemma PauseResumeKeepsPosition(t: Transport, now: real, dur: real)
    requires dur >= 0.0 && 0.0 <= t.offsetSec <= dur
    ensures PlayT(StopT(t, false, now, dur), now, dur).isPlaying
    ensures PositionAt(PlayT(StopT(t, false, now, dur), now, dur), now, dur) == PositionAt(t, now, dur)
  {
  }

  /** `stop(true)` leaves the deck stopped at position 0. */
  lemma HardStopRewinds(t: Transport, now: real, dur: real)
    requires dur >= 0.0
    ensures !StopT(t, true, now, dur).isPlaying
    ensures PositionAt(StopT(t, true, now, dur), now, dur) == 0.0
  {
  }

  /** A grain played by `playGrain`: which buffer, when, from which offset, for how long. */
  datatype Grain = Grain(dir: Dir, reversed: bool, at: real, offset: real, length: real, fadeSec: real)

  /** The optional arguments of `startScratchHold` and `scratchBurst`. */
  datatype ScratchOptions = ScratchOptions(bursts: Option<real>, grainMs: Option<real>,
                                           jumpMs: Option<real>, intensity: Option<real>)

  /** A running scratch-hold interval timer and what its closure captured. */
  datatype HoldTimer = HoldTimer(grainSec: real, fadeSec: real, maxOffset: real, periodMs: real)

  /** A running scratch-burst interval timer: its tick counter `fired` and what it captured. */
  datatype BurstTimer = BurstTimer(fired: nat, bursts: real, base: real, wasPlaying: bool,
                                   grainSec: real, fadeSec: real, maxOffset: real, periodMs: real)

  /** A call of the playback-rate ramp the sync service asks for. */
  datatype RateRamp = RateRamp(targetRate: real, seconds: real)

  /** `getState`'s result (its `playbackRate` is never filled by the deck and is left out). */
  datatype DeckState = DeckState(isPlaying: bool, durationSec: real, positionSec: real,
                                 cues: map<CueIndex, real>)

  /** Fade length of a grain: `Math.min(0.015, grainSec * 0.3)`. */
  function FadeSec(grainSec: real): (f: real)
    ensures f <= 0.015 && f <= grainSec * 0.3
  {
    Min(0.015, grainSec * 0.3)
  }

  /** Where a forward grain starts in the original buffer. */
  function ForwardGrainOffset(pos: real, grainSec: real, dur: real): real {
    Clamp(pos, 0.0, dur - grainSec)
  }

  /** Where a reverse grain starts in the reversed copy (mirrored position). */
  function ReverseGrainOffset(pos: real, grainSec: real, revDur: real, dur: real): real {
    Clamp(dur - pos - grainSec, 0.0, revDur - grainSec)
  }

  /**
   * For a position where a whole grain fits, the reverse grain covers exactly
   * the stretch of audio the forward grain covers, played backwards: its
   * start in the reversed copy is the forward grain's end mirrored.
   */
  lemma GrainsMirror(pos: real, grainSec: real, dur: real)
    requires grainSec >= 0.0 && 0.0 <= pos <= dur - grainSec
    ensures ForwardGrainOffset(pos, grainSec, dur) == pos
    ensures ReverseGrainOffset(pos, grainSec, dur, dur)
            == dur - (ForwardGrainOffset(pos, grainSec, dur) + grainSec)
  {
  }

  /** Both grain offsets always lie inside the buffer and leave room for the grain when it fits. */
  lemma GrainOffsetsInRange(pos: real, grainSec: real, dur: real)
    ensures 0.0 <= ForwardGrainOffset(pos, grainSec, dur)
    ensures 0.0 <= ReverseGrainOffset(pos, grainSec, dur, dur)
    ensures grainSec <= dur ==> ForwardGrainOffset(pos, grainSec, dur) + grainSec <= dur
    ensures grainSec <= dur ==> ReverseGrainOffset(pos, grainSec, dur, dur) + grainSec <= dur
  {
  }

  /** The grain `playGrain(dir, posSec, grainSec, fadeSec)` starts at clock `now` in a buffer of duration `dur`. */
  function GrainAt(dir: Dir, posSec: real, grainSec: real, fadeSec: real, now: real, dur: real): (g: Grain)
    ensures g.dir == dir && g.reversed == (dir == -1) && g.at == now && g.length == grainSec
    ensures g.offset >= 0.0 && (grainSec <= dur ==> g.offset + grainSec <= dur)
  {
    if dir == 1 then Grain(1, false, now, ForwardGrainOffset(posSec, grainSec, dur), grainSec, fadeSec)
    else Grain(-1, true, now, ReverseGrainOffset(posSec, grainSec, dur, dur), grainSec, fadeSec)
  }

  /** The position a scratch-hold tick aims at: base plus or minus the swing, kept inside the buffer. */
  function HoldTarget(base: real, dir: Dir, maxOffset: real, grainSec: real, dur: real): (r: real)
    ensures grainSec <= dur ==> 0.0 <= r <= dur - grainSec
    ensures grainSec > dur ==> r == 0.0
  {
    Clamp(base + dir as real * maxOffset, 0.0, dur - grainSec)
  }

  /** Direction of the burst grain with tick number `fired`: even ticks forward, odd ticks reverse. */
  function BurstDir(fired: nat): Dir {
    if fired % 2 == 0 then 1 else -1
  }

  /** The position a scratch-burst tick aims at: base plus or minus the swing, never negative. */
  function BurstTarget(b: BurstTimer): (r: real)
    ensures r >= 0.0
    ensures r == b.base + BurstDir(b.fired) as real * b.maxOffset || r == 0.0
  {
    Max(0.0, b.base + BurstDir(b.fired) as real * b.maxOffset)
  }

  /** How many grains a burst plays before it stops: `max(1, ceil(bursts))`. */
  function BurstLength(bursts: real): (n: nat)
    ensures n >= 1 && n as real >= bursts
    ensures bursts > 1.0 ==> (n - 1) as real < bursts
  {
    if bursts <= 1.0 then 1 else Ceil(bursts)
  }

  /** The burst's stop test `i >= bursts` first holds on tick number `BurstLength(bursts)`. */
  lemma BurstStopsAtLength(bursts: real, fired: nat)
    ensures ((fired + 1) as real >= bursts) <==> fired + 1 >= BurstLength(bursts)
  {
  }

  /** The cutoff of the deck's lowpass: `80 * pow(20000 / 80, v)` for the clamped knob value. */
  function FilterCutoff(value01: real, pow: (real, real) -> real): real {
    80.0 * pow(20000.0 / 80.0, Clamp(value01, 0.0, 1.0))
  }

  /** What the filter sweep needs of `Math.pow` with base 250. */
  ghost predicate PowLaw(pow: (real, real) -> real) {
    && pow(250.0, 0.0) == 1.0
    && pow(250.0, 1.0) == 250.0
    && forall a, b :: 0.0 <= a <= b <= 1.0 ==> pow(250.0, a) <= pow(250.0, b)
  }

  /** The knob sweeps the cutoff from 80 Hz to 20 kHz, monotonically. */
  lemma FilterCutoffRange(value01: real, other: real, pow: (real, real) -> real)
    requires PowLaw(pow)
    ensures 80.0 <= FilterCutoff(value01, pow) <= 20000.0
    ensures value01 <= 0.0 ==> FilterCutoff(value01, pow) == 80.0
    ensures value01 >= 1.0 ==> FilterCutoff(value01, pow) == 20000.0
    ensures value01 <= other ==> FilterCutoff(value01, pow) <= FilterCutoff(other, pow)
  {
    var v := Clamp(value01, 0.0, 1.0);
    assert pow(250.0, 0.0) <= pow(250.0, v) <= pow(250.0, 1.0);
    if value01 <= other {
      ClampMonotone(value01, other, 0.0, 1.0);
      assert pow(250.0, v) <= pow(250.0, Clamp(other, 0.0, 1.0));
    }
  }

  class Deck {
    const id: DeckId
    var now: real

    var buffer: Option<AudioBuffer>
    var reverseBuffer: Option<AudioBuffer>
    var source: Option<nat>
    var nextSourceId: nat

    var isPlaying: bool
    var startedAt: real
    var offsetSec: real

    var cues: map<CueIndex, real>

    var hold: Option<HoldTimer>
    var holdWasPlaying: bool
    var holdBasePos: real
    var holdDir: Dir

    var burst: Option<BurstTimer>
    var grains: seq<Grain>

    var bassGainDb: real
    var midGainDb: real
    var filterHz: real
    var faderGain: real

    var rateRamps: seq<RateRamp>

    ghost predicate Valid()
      reads this
    {
      && (buffer.Some? <==> reverseBuffer.Some?)
      && (buffer.Some? ==> WellFormed(buffer.value) && reverseBuffer.value == Reversed(buffer.value))
      && (isPlaying <==> source.Some?)
      && (isPlaying ==> buffer.Some?)
      && (source.Some? ==> source.value < nextSourceId)
      && 0.0 <= offsetSec <= DurationSec()
      && (forall k :: k in cues ==> 0.0 <= cues[k] <= DurationSec())
      && (hold.Some? ==> buffer.Some?)
      && (burst.Some? ==> buffer.Some?)
    }

    constructor (id: DeckId, now: real)
      ensures Valid()
      ensures this.id == id && this.now == now
      ensures buffer.None? && !isPlaying && offsetSec == 0.0 && cues == map[]
      ensures hold.None? && burst.None? && grains == [] && rateRamps == []
      ensures bassGainDb == 0.0 && midGainDb == 0.0 && filterHz == 20000.0 && faderGain == 0.9
    {
      this.id := id;
      this.now := now;
      buffer, reverseBuffer, source, nextSourceId := None, None, None, 0;
      isPlaying, startedAt, offsetSec := false, 0.0, 0.0;
      cues := map[];
      hold, holdWasPlaying, holdBasePos, holdDir := None, false, 0.0, 1;
      burst, grains := None, [];
      bassGainDb, midGainDb, filterHz, faderGain := 0.0, 0.0, 20000.0, 0.9;
      rateRamps := [];
    }

    /** `getDurationSec`: the buffer's duration, 0 with none loaded. */
    function DurationSec(): (d: real)
      reads this
      ensures d >= 0.0
    {
      if buffer.Some? && buffer.value.sampleRate > 0.0 then Duration(buffer.value) else 0.0
    }

    function Cursor(): Transport
      reads this
    {
      Transport(isPlaying, startedAt, offsetSec)
    }

    /** `getPositionSec`: 0 with no buffer, otherwise the (live) cursor clamped into the track. */
    function Position(): (p: real)
      reads this
      ensures 0.0 <= p <= DurationSec()
      ensures buffer.None? ==> p == 0.0
    {
      if buffer.None? then 0.0 else PositionAt(Cursor(), now, DurationSec())
    }

    /** `getState`: the snapshot the UI polls. */
    function GetState(): (s: DeckState)
      reads this
      requires Valid()
      ensures s.isPlaying == isPlaying && s.cues == cues
      ensures 0.0 <= s.positionSec <= s.durationSec
      ensures buffer.None? ==> s.durationSec == 0.0 && s.positionSec == 0.0 && !s.isPlaying
    {
      DeckState(isPlaying, DurationSec(), Position(), cues)
    }

    /** The audio clock moves forward. */
    method AdvanceClock(dt: real)
      requires Valid() && dt >= 0.0
      modifies this`now
      ensures Valid() && now == old(now) + dt
    {
      now := now + dt;
    }

    /** `makeReversedBuffer`: a new buffer of the same shape with every channel written back to front. */
    method MakeReversedBuffer(b: AudioBuffer) returns (rev: AudioBuffer)
      requires WellFormed(b)
      ensures rev == Reversed(b)
    {
      var chans: seq<seq<real>> := [];
      var ch := 0;
      while ch < |b.channels|
        invariant 0 <= ch <= |b.channels|
        invariant |chans| == ch
        invariant forall c :: 0 <= c < ch ==> chans[c] == ReverseSamples(b.channels[c])
      {
        var src := b.channels[ch];
        var dst := new real[b.length];
        var i, j := 0, |src| - 1;
        while i < |src|
          invariant 0 <= i <= |src| && j == |src| - 1 - i
          invariant forall k :: 0 <= k < i ==> dst[k] == src[|src| - 1 - k]
        {
          dst[i] := src[j];
          i, j := i + 1, j - 1;
        }
        assert dst[..] == ReverseSamples(src);
        chans := chans + [dst[..]];
        ch := ch + 1;
      }
      rev := AudioBuffer(chans, b.length, b.sampleRate);
      assert chans == Reversed(b).channels;
    }

    /** `startSourceAt`: a new source (the next id) starts now from the clamped offset. */
    method StartSourceAt(offset: real)
      requires buffer.Some?
      modifies this`isPlaying, this`startedAt, this`offsetSec, this`source, this`nextSourceId
      ensures Cursor() == StartAt(offset, now, DurationSec())
      ensures source == Some(old(nextSourceId)) && nextSourceId == old(nextSourceId) + 1
    {
      startedAt := now;
      offsetSec := Clamp(offset, 0.0, DurationSec());
      source := Some(nextSourceId);
      nextSourceId := nextSourceId + 1;
      isPlaying := true;
    }

    /** `stopSource`: forget the current source, so that its late `onended` is ignored. */
    method StopSource()
      modifies this`source
      ensures source.None?
    {
      source := None;
    }

    /** `onended` of source `src`: only the current source rewinds and stops the deck. */
    method SourceEnded(src: nat)
      requires Valid()
      modifies this`isPlaying, this`source, this`offsetSec
      ensures Valid()
      ensures old(source) == Some(src) ==> !isPlaying && source.None? && offsetSec == 0.0
      ensures old(source) != Some(src) ==>
                isPlaying == old(isPlaying) && source == old(source) && offsetSec == old(offsetSec)
    {
      if source == Some(src) {
        isPlaying := false;
        source := None;
        offsetSec := 0.0;
      }
    }

    /** `play`: nothing without a buffer or when already playing; otherwise start from the offset. */
    method Play()
      requires Valid()
      modifies this`isPlaying, this`startedAt, this`offsetSec, this`source, this`nextSourceId
      ensures Valid()
      ensures buffer.None? || old(isPlaying) ==>
                Cursor() == old(Cursor()) && source == old(source) && nextSourceId == old(nextSourceId)
      ensures buffer.Some? ==> Cursor() == PlayT(old(Cursor()), now, DurationSec())
      ensures buffer.Some? && !old(isPlaying) ==>
                source == Some(old(nextSourceId)) && nextSourceId == old(nextSourceId) + 1
    {
      if buffer.None? { return; }
      if isPlaying { return; }
      StartSourceAt(offsetSec);
    }

    /** `stop(hardReset)`: save the live position, drop the source; a hard reset rewinds to 0. */
    method Stop(hardReset: bool)
      requires Valid()
      modifies this`isPlaying, this`offsetSec, this`source
      ensures Valid()
      ensures buffer.None? ==> Cursor() == old(Cursor()) && source == old(source)
      ensures buffer.Some? ==> Cursor() == StopT(old(Cursor()), hardReset, now, DurationSec())
      ensures buffer.Some? ==> source.None?
    {
      if buffer.None? { return; }
      if isPlaying {
        var pos := Position();
        offsetSec := pos;
      }
      StopSource();
      isPlaying := false;
      if hardReset {
        offsetSec := 0.0;
      }
    }

    /** `toggle`: stop keeping the position when playing, otherwise play. */
    method Toggle()
      requires Valid()
      modifies this`isPlaying, this`startedAt, this`offsetSec, this`source, this`nextSourceId
      ensures Valid()
      ensures buffer.Some? ==> isPlaying == !old(isPlaying)
      ensures buffer.Some? && old(isPlaying) ==> Cursor() == StopT(old(Cursor()), false, now, DurationSec())
      ensures buffer.Some? && !old(isPlaying) ==> Cursor() == PlayT(old(Cursor()), now, DurationSec())
      ensures buffer.None? ==>
                Cursor() == old(Cursor()) && source == old(source) && nextSourceId == old(nextSourceId)
    {
      if isPlaying {
        Stop(false);
      } else {
        Play();
      }
    }

    /** `seek(sec)`: clamp; when stopped move the offset, when playing restart the source there. */
    method Seek(sec: real)
      requires Valid()
      modifies this`isPlaying, this`startedAt, this`offsetSec, this`source, this`nextSourceId
      ensures Valid()
      ensures buffer.None? ==>
                Cursor() == old(Cursor()) && source == old(source) && nextSourceId == old(nextSourceId)
      ensures buffer.Some? ==> Cursor() == SeekT(old(Cursor()), sec, now, DurationSec())
      ensures buffer.Some? ==> isPlaying == old(isPlaying) && Position() == Clamp(sec, 0.0, DurationSec())
      ensures buffer.Some? && old(isPlaying) ==>
                source == Some(old(nextSourceId)) && nextSourceId == old(nextSourceId) + 1
      ensures buffer.Some? && !old(isPlaying) ==>
                source == old(source) && nextSourceId == old(nextSourceId)
    {
      if buffer.None? { return; }
      var target := Clamp(sec, 0.0, DurationSec());
      if !isPlaying {
        offsetSec := target;
        return;
      }
      StopSource();
      StartSourceAt(target);
    }

    /** `setCue(index)`: remember the current position in the slot. */
    method SetCue(index: CueIndex)
      requires Valid()
      modifies this`cues
      ensures Valid()
      ensures cues == old(cues)[index := Position()]
    {
      var pos := Position();
      cues := cues[index := pos];
    }

    /** `jumpCue(index)`: an unset slot is ignored; a set one is a seek to the stored position. */
    method JumpCue(index: CueIndex)
      requires Valid()
      modifies this`isPlaying, this`startedAt, this`offsetSec, this`source, this`nextSourceId
      ensures Valid()
      ensures index !in cues || buffer.None? ==>
                Cursor() == old(Cursor()) && source == old(source) && nextSourceId == old(nextSourceId)
      ensures index in cues && buffer.Some? ==>
                Cursor() == SeekT(old(Cursor()), cues[index], now, DurationSec())
                && isPlaying == old(isPlaying)
                && Position() == cues[index]
    {
      if index !in cues { return; }
      Seek(cues[index]);
    }

    /** `setFader`: the fader gain is the value clamped to [0, 1]. */
    method SetFader(value01: real)
      modifies this`faderGain
      ensures faderGain == Clamp(value01, 0.0, 1.0)
    {
      faderGain := Clamp(value01, 0.0, 1.0);
    }

    /** `setBassGainDb`: stored as given, no clamp. */
    method SetBassGainDb(db: real)
      modifies this`bassGainDb
      ensures bassGainDb == db
    {
      bassGainDb := db;
    }

    /** `setMidGainDb`: stored as given, no clamp. */
    method SetMidGainDb(db: real)
      modifies this`midGainDb
      ensures midGainDb == db
    {
      midGainDb := db;
    }

    /** `setFilterValue`: the lowpass cutoff follows the exponential 80 Hz .. 20 kHz sweep. */
    method SetFilterValue(value01: real, pow: (real, real) -> real)
      modifies this`filterHz
      ensures filterHz == FilterCutoff(value01, pow)
      ensures PowLaw(pow) ==> 80.0 <= filterHz <= 20000.0
    {
      var v := Clamp(value01, 0.0, 1.0);
      var minHz, maxHz := 80.0, 20000.0;
      filterHz := minHz * pow(maxHz / minHz, v);
      if PowLaw(pow) { FilterCutoffRange(value01, value01, pow); }
    }

    /** `playGrain`: forward grains read the buffer, reverse grains the reversed copy at the mirrored offset. */
    method PlayGrain(dir: Dir, posSec: real, grainSec: real, fadeSec: real)
      requires Valid()
      modifies this`grains
      ensures buffer.None? ==> grains == old(grains)
      ensures buffer.Some? ==> grains == old(grains) + [GrainAt(dir, posSec, grainSec, fadeSec, now, DurationSec())]
    {
      if buffer.None? || reverseBuffer.None? { return; }
      var dur := Duration(buffer.value);
      if dir == 1 {
        var offset := Max(0.0, Min(dur - grainSec, posSec));
        grains := grains + [Grain(1, false, now, offset, grainSec, fadeSec)];
      } else {
        var revOffset := Max(0.0, Min(Duration(reverseBuffer.value) - grainSec, dur - posSec - grainSec));
        grains := grains + [Grain(-1, true, now, revOffset, grainSec, fadeSec)];
      }
    }

    /**
     * `startScratchHold`: ignored with no buffer or while a hold runs; otherwise
     * remember whether the deck played and where it was, stop it in place, and
     * start the hold timer.
     */
    method StartScratchHold(opts: ScratchOptions)
      requires Valid()
      modifies this`hold, this`holdWasPlaying, this`holdBasePos, this`holdDir,
               this`isPlaying, this`offsetSec, this`source
      ensures Valid()
      ensures old(buffer.None? || hold.Some?) ==>
                hold == old(hold) && holdWasPlaying == old(holdWasPlaying) && holdBasePos == old(holdBasePos)
                && holdDir == old(holdDir) && Cursor() == old(Cursor()) && source == old(source)
      ensures old(buffer.Some? && hold.None?) ==>
                && holdWasPlaying == old(isPlaying) && holdBasePos == old(Position()) && holdDir == 1
                && !isPlaying && source.None? && Position() == holdBasePos
                && hold == Some(HoldTimer(opts.grainMs.GetOr(45.0) / 1000.0,
                                          FadeSec(opts.grainMs.GetOr(45.0) / 1000.0),
                                          0.12 * opts.intensity.GetOr(1.0), opts.jumpMs.GetOr(22.0)))
    {
      if buffer.None? || reverseBuffer.None? { return; }
      if hold.Some? { return; }
      var grainMs := opts.grainMs.GetOr(45.0);
      var jumpMs := opts.jumpMs.GetOr(22.0);
      var intensity := opts.intensity.GetOr(1.0);

      holdWasPlaying := isPlaying;
      holdBasePos := Position();
      holdDir := 1;
      if holdWasPlaying { Stop(false); }

      var grainSec := grainMs / 1000.0;
      var fadeSec := Min(0.015, grainSec * 0.3);
      var maxOffset := 0.12 * intensity;
      hold := Some(HoldTimer(grainSec, fadeSec, maxOffset, jumpMs));
    }

    /** One firing of the hold timer: a grain at base plus or minus the swing, then the direction flips. */
    method HoldTick()
      requires Valid()
      modifies this`grains, this`holdDir
      ensures Valid()
      ensures hold.None? ==> grains == old(grains) && holdDir == old(holdDir)
      ensures hold.Some? ==>
                && holdDir as int == -(old(holdDir) as int)
                && grains == old(grains) + [GrainAt(old(holdDir), HoldTarget(holdBasePos, old(holdDir),
                                  hold.value.maxOffset, hold.value.grainSec, DurationSec()),
                                  hold.value.grainSec, hold.value.fadeSec, now, DurationSec())]
    {
      if hold.None? { return; }
      if buffer.None? || reverseBuffer.None? { return; }
      var h := hold.value;
      var target := Max(0.0, Min(Duration(buffer.value) - h.grainSec, holdBasePos + holdDir as real * h.maxOffset));
      assert target == HoldTarget(holdBasePos, holdDir, h.maxOffset, h.grainSec, DurationSec());
      PlayGrain(holdDir, target, h.grainSec, h.fadeSec);
      assert grains == old(grains) + [GrainAt(holdDir, target, h.grainSec, h.fadeSec, now, DurationSec())];
      holdDir := if holdDir == 1 then -1 else 1;
    }

    /** The return step shared by both scratch modes: seek back to `base`, then play if `resume`. */
    method ReturnTo(base: real, resume: bool)
      requires Valid() && buffer.Some?
      modifies this`isPlaying, this`startedAt, this`offsetSec, this`source, this`nextSourceId
      ensures Valid()
      ensures Cursor() == (var back := SeekT(old(Cursor()), base, now, DurationSec());
                           if resume then PlayT(back, now, DurationSec()) else back)
      ensures Position() == Clamp(base, 0.0, DurationSec())
      ensures resume ==> isPlaying
    {
      Seek(base);
      if resume {
        Play();
      }
    }

    /**
     * `stopScratchHold`: clear the timer, seek back to the remembered base
     * whenever a buffer is loaded (even with no hold running), play again only
     * if the deck had been playing, then forget that it had.
     */
    method StopScratchHold()
      requires Valid()
      modifies this`hold, this`holdWasPlaying,
               this`isPlaying, this`startedAt, this`offsetSec, this`source, this`nextSourceId
      ensures Valid()
      ensures hold.None? && !holdWasPlaying
      ensures buffer.None? ==> Cursor() == old(Cursor())
      ensures buffer.Some? ==>
                Cursor() == (var back := SeekT(old(Cursor()), holdBasePos, now, DurationSec());
                             if old(holdWasPlaying) then PlayT(back, now, DurationSec()) else back)
      ensures buffer.Some? ==> Position() == Clamp(holdBasePos, 0.0, DurationSec())
      ensures buffer.Some? && old(holdWasPlaying) ==> isPlaying
    {
      hold := None;
      if buffer.Some? {
        ReturnTo(holdBasePos, holdWasPlaying);
      } else if holdWasPlaying {
        Play();
      }
      holdWasPlaying := false;
    }

    /**
     * `scratchBurst`: with a buffer loaded, remember play state and position,
     * stop in place, and (re)start the burst timer; a running burst is replaced.
     */
    method ScratchBurst(opts: ScratchOptions)
      requires Valid()
      modifies this`burst, this`isPlaying, this`offsetSec, this`source
      ensures Valid()
      ensures old(buffer.None?) ==> burst == old(burst) && Cursor() == old(Cursor()) && source == old(source)
      ensures old(buffer.Some?) ==>
                && !isPlaying && source.None? && Position() == old(Position())
                && var grainSec := opts.grainMs.GetOr(45.0) / 1000.0;
                   burst == Some(BurstTimer(0, opts.bursts.GetOr(18.0), old(Position()), old(isPlaying),
                                            grainSec, FadeSec(grainSec), 10.0 * opts.intensity.GetOr(1.0),
                                            opts.jumpMs.GetOr(22.0)))
    {
      if buffer.None? || reverseBuffer.None? { return; }
      var bursts := opts.bursts.GetOr(18.0);
      var grainMs := opts.grainMs.GetOr(45.0);
      var jumpMs := opts.jumpMs.GetOr(22.0);
      var intensity := opts.intensity.GetOr(1.0);

      var wasPlaying := isPlaying;
      var base := Position();
      if wasPlaying { Stop(false); }

      burst := None;

      var grainSec := grainMs / 1000.0;
      var fadeSec := Min(0.015, grainSec * 0.3);
      var maxOffset := 10.0 * intensity;
      burst := Some(BurstTimer(0, bursts, base, wasPlaying, grainSec, fadeSec, maxOffset, jumpMs));
    }

    /**
     * One firing of the burst timer: a grain in the alternating direction; on
     * the last tick the timer stops, the deck seeks back to the base and plays
     * again if it had been playing.
     */
    method BurstTick()
      requires Valid()
      modifies this`grains, this`burst,
               this`isPlaying, this`startedAt, this`offsetSec, this`source, this`nextSourceId
      ensures Valid()
      ensures old(burst).None? ==>
                grains == old(grains) && burst.None? && Cursor() == old(Cursor()) && source == old(source)
      ensures old(burst).Some? ==>
                var b := old(burst).value;
                && grains == old(grains) + [GrainAt(BurstDir(b.fired), BurstTarget(b), b.grainSec, b.fadeSec, now, DurationSec())]
                && (burst.None? <==> b.fired + 1 >= BurstLength(b.bursts))
                && (burst.Some? ==> burst == Some(b.(fired := b.fired + 1)) && Cursor() == old(Cursor()))
                && (burst.None? ==>
                      Cursor() == (var back := SeekT(old(Cursor()), b.base, now, DurationSec());
                                   if b.wasPlaying then PlayT(back, now, DurationSec()) else back))
    {
      if burst.None? { return; }
      var b := burst.value;
      var dir: Dir := if b.fired % 2 == 0 then 1 else -1;
      var target := Max(0.0, b.base + dir as real * b.maxOffset);
      assert dir == BurstDir(b.fired) && target == BurstTarget(b);
      PlayGrain(dir, target, b.grainSec, b.fadeSec);
      assert grains == old(grains) + [GrainAt(BurstDir(b.fired), BurstTarget(b), b.grainSec, b.fadeSec, now, DurationSec())];
      ghost var back := Cursor();
      assert back == old(Cursor());
      var fired := b.fired + 1;
      BurstStopsAtLength(b.bursts, b.fired);
      if fired as real >= b.bursts {
        burst := None;
        ReturnTo(b.base, b.wasPlaying);
      } else {
        burst := Some(b.(fired := fired));
      }
    }

    /**
     * `load`: end any scratch hold, hard-stop, install the buffer at offset 0,
     * clear both cues and build the reversed copy. A running burst is not
     * cancelled.
     */
    method Load(b: AudioBuffer)
      requires Valid() && WellFormed(b)
      modifies this`buffer, this`reverseBuffer, this`cues, this`hold, this`holdWasPlaying,
               this`isPlaying, this`startedAt, this`offsetSec, this`source, this`nextSourceId
      ensures Valid()
      ensures buffer == Some(b) && reverseBuffer == Some(Reversed(b))
      ensures !isPlaying && source.None? && offsetSec == 0.0 && Position() == 0.0
      ensures cues == map[] && hold.None? && !holdWasPlaying
      ensures burst == old(burst)
    {
      StopScratchHold();
      Stop(true);
      var rev := MakeReversedBuffer(b);
      buffer := Some(b);
      offsetSec := 0.0;
      cues := map[];
      reverseBuffer := Some(rev);
    }

    /** The playback-rate ramp the sync service calls (Deck.ts itself defines no such method). */
    method RampPlaybackRate(targetRate: real, seconds: real)
      modifies this`rateRamps
      ensures rateRamps == old(rateRamps) + [RateRamp(targetRate, seconds)]
    {
      rateRamps := rateRamps + [RateRamp(targetRate, seconds)];
    }
  }

  /**
   * A hold gesture on a playing deck, with any number of timer ticks and clock
   * advances in between, ends playing again at the position it started from.
   */
  method HoldGestureRestores(d: Deck, dts: seq<real>)
    requires d.Valid() && d.buffer.Some? && d.isPlaying && d.hold.None?
    requires forall k :: 0 <= k < |dts| ==> dts[k] >= 0.0
    modifies d
    ensures d.Valid() && d.isPlaying && d.Position() == old(d.Position())
  {
    var base := d.Position();
    d.StartScratchHold(ScratchOptions(None, None, None, None));
    assert d.holdWasPlaying && d.holdBasePos == base;
    var k := 0;
    while k < |dts|
      invariant 0 <= k <= |dts|
      invariant d.Valid() && d.buffer.Some? && d.holdWasPlaying && d.holdBasePos == base
      invariant base <= d.DurationSec() && d.DurationSec() == old(d.DurationSec())
    {
      d.HoldTick();
      d.AdvanceClock(dts[k]);
      k := k + 1;
    }
    d.StopScratchHold();
  }
}
