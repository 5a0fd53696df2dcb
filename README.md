# Keydrop DJ — a Dafny model of the audio core

Keydrop DJ is a browser DJ console with a small Java back end. This project
models the parts of it that hold the logic, and proves what they promise:

- **The deck** (`deck.dfy`, module `DeckModel`) is a class with the fields of
  the TypeScript `Deck`. It holds the loaded buffer and its reversed copy, the
  play/stop/seek cursor (`isPlaying`, `startedAt`, `offsetSec`), two cue slots
  and the tone controls. It also has both scratch modes, which play short grains
  forwards or backwards. The audio clock is the field `now`. Each interval
  timer is an optional field plus a method that stands for one firing
  (`HoldTick`, `BurstTick`). The source node's asynchronous `onended` is the
  event method `SourceEnded`.
- **Beat analysis** (`beat_analyzer.dfy`, `bpm_estimator.dfy`):
  - the mono downmix, the 200 Hz envelope and the moving average;
  - the percentile threshold and greedy local-peak picking;
  - the tempo estimate from peak gaps, with octave folding, rounding into
    bins and the first most frequent bin.
- **The beat grid and the sync service** (`beat_grid.dfy`,
  `sync_service.dfy`): the nearest and next beat of a grid, and the jump of
  at most 0.35 s and the playback rate clamped to [0.98, 1.02] that syncing
  applies to the slave deck.
- **The mixer** (`mixer.dfy`): the equal-power crossfader.
- **The effect rack and its four effects** (`fx_rack.dfy`, `crush.dfy`,
  `flanger.dfy`, `slicer.dfy`, `kick.dfy`, `fx_mix.dfy`):
  - the wet/dry mix;
  - the bit-crush quantisation curve;
  - the flanger's delay modulation and feedback loop;
  - the slicer's square-wave gate;
  - the kick pump's scheduled gain ramps.
- **The waveform overview** (`build_peaks.dfy`): per-bucket peaks,
  normalised so the tallest bar is 1.
- **The control store and the keyboard controller** (`dj_store.dfy`,
  `input_manager.dfy`): the two reducers of the store, the key map, key-code
  normalisation, and HOLD/TRIGGER dispatch once per animation frame.
- **Two server helpers** (`recording_controller.dfy`): the download file
  name in the Content-Disposition header, and the token taken from the
  Authorization header.

Shared pieces:

- `numeric.dfy` holds `Option`/`Result` and the clamp and rounding helpers.
- `audio_buffer.dfy` holds the decoded audio buffer.
- `text.dfy` holds prefix and occurrence tests on strings.

All numbers are exact reals. Web Audio node parameters are stored values, and
scheduled ramps are logged as events.

Behaviour the proofs bring out:

- The flanger's delay is `0.004 + depth * lfo`, with the LFO in [-1, 1]. Any
  depth above the 4 ms base takes the delay below zero for part of every LFO
  cycle. That includes the default depth of 8 ms, which reaches −4 ms
  (`FlangerFx.DelayDipsBelowZero`); the delay line cannot go below zero.
  The delay never exceeds the line's 50 ms maximum (`FlangerFx.DelayWithinLine`).
- The feedback is at most 0.95, so the gain of the feedback loop, summed over
  any number of round trips, is at most 20 (`FlangerFx.FeedbackBounded`).
- The kick pump's longest attack plus release (880 ms) exceeds its shortest
  period (250 ms at 240 BPM), so a pump can start before the previous one has
  recovered (`KickFx.PumpTiming`).
- For a master at 128 BPM and a slave at 130 BPM the sync service asks for
  a rate of 128 / 130 = 64/65 ≈ 0.985. That is inside [0.98, 1.02], so no
  clamp applies (`SyncService.TargetRateExamples`).
- Java's `replace("Bearer ", "")` removes every occurrence, not only a
  leading scheme. A header that carries a bare token with no scheme is passed
  on unchanged (`RecordingController.BareTokenPassesThrough`).

## Model

All client paths are under `client/src/`. The server file is
`server/src/main/java/com/keydrop/server/controller/RecordingController.java`.

| member | source | states |
|---|---|---|
| Numeric.Abs | client/src/audio/beat/BeatAnalyzer.ts:24 | `Math.abs` is non-negative and is x or −x |
| Numeric.Clamp | client/src/audio/beat/SyncService.ts:5 | the clamp lies in [lo, hi], keeps values already inside, and sends values outside to the nearer bound |
| Numeric.Round | client/src/audio/fx/effects/Crush.ts:67 | `Math.round(x)` is the integer within half a unit of x, with halves rounded up |
| Numeric.Ceil | client/src/audio/deck/Deck.ts:331-332 | the least integer at or above x |
| Numeric.FloorMonotone | client/src/audio/track/buildPeaks.ts:10 | helper for RoundMonotone: `Math.floor` is monotone |
| Numeric.RoundMonotone | client/src/audio/fx/effects/Crush.ts:67 | `Math.round` is monotone |
| Numeric.ClampMonotone | client/src/audio/beat/SyncService.ts:5 | clamping is monotone in the value |
| Numeric.ClampIdempotent | client/src/audio/beat/SyncService.ts:5 | clamping twice is clamping once |
| AudioData.Duration | client/src/audio/deck/Deck.ts:76-78 | a buffer's duration is non-negative and equals its length divided by its sample rate |
| AudioData.Reversed | client/src/audio/deck/Deck.ts:192-203 | the reversed copy `createReversedBuffer` builds, channel by channel; ReversedAt states its shape and samples and ReversedTwice that it is its own inverse |
| AudioData.ReversedAt | client/src/audio/deck/Deck.ts:192-203 | the reversed copy has the same shape and duration, and sample i of each channel is sample length−1−i of the original |
| AudioData.ReversedTwice | client/src/audio/deck/Deck.ts:192-203 | reversing twice gives back the original buffer |
| DeckModel.PositionAt | client/src/audio/deck/Deck.ts:80-87 | the position always lies in [0, duration]; a stopped deck reports its offset; a deck that has just started reports the offset it started from |
| DeckModel.StartAt | client/src/audio/deck/Deck.ts:89-111 | `startSourceAt`'s effect on the transport: playing from the current clock at the offset clamped to [0, duration]; PlayT and SeekT build on it, and the Deck.StartSourceAt row states it for the object |
| DeckModel.PlayT | client/src/audio/deck/Deck.ts:205-209 | `play` with a buffer: a playing deck is untouched, a stopped one restarts from its offset; PauseResumeKeepsPosition states that stop then play resumes at the stopped position |
| DeckModel.StopT | client/src/audio/deck/Deck.ts:211-226 | `stop(hardReset)` with a buffer: the deck stops at the position it had reached, or at 0 on a hard reset; stated by PauseResumeKeepsPosition and HardStopRewinds |
| DeckModel.SeekT | client/src/audio/deck/Deck.ts:234-246 | `seek(sec)` with a buffer: restart at the clamped target when playing, move the offset when stopped; stated by SeekLandsOnTarget and SeekIdempotent |
| DeckModel.SeekLandsOnTarget | client/src/audio/deck/Deck.ts:234-246 | a seek keeps the play state and puts the position exactly at the target clamped to [0, duration] |
| DeckModel.SeekIdempotent | client/src/audio/deck/Deck.ts:234-246 | seeking twice to the same place equals seeking once |
| DeckModel.PauseResumeKeepsPosition | client/src/audio/deck/Deck.ts:205-231 | `stop(false)` then `play` leaves the deck playing at the position it had |
| DeckModel.HardStopRewinds | client/src/audio/deck/Deck.ts:211-226 | `stop(true)` leaves the deck stopped at position 0 |
| DeckModel.FadeSec | client/src/audio/deck/Deck.ts:148-149 | a grain's fade is at most 15 ms and at most 30 % of the grain |
| DeckModel.GrainsMirror | client/src/audio/deck/Deck.ts:353-373 | where a whole grain fits, the forward grain starts at the position, and the reverse grain starts at the mirror of the forward grain's end, so both cover the same audio |
| DeckModel.ForwardGrainOffset | client/src/audio/deck/Deck.ts:357 | where a forward grain starts: the position clamped to [0, duration − grain]; GrainOffsetsInRange states the grain fits in the buffer and GrainsMirror that it starts at the position when that fits |
| DeckModel.ReverseGrainOffset | client/src/audio/deck/Deck.ts:369-373 | where a reverse grain starts in the reversed copy: the mirrored position, clamped; GrainOffsetsInRange states the grain fits and GrainsMirror that it covers the same stretch of audio as the forward grain |
| DeckModel.BurstDir | client/src/audio/deck/Deck.ts:325 | the burst grain's direction, forward on even ticks and reverse on odd ones; BurstTarget and the Deck.BurstTick row state the target it gives |
| DeckModel.GrainOffsetsInRange | client/src/audio/deck/Deck.ts:357-373 | both grain offsets are non-negative, and a grain that fits ends inside the buffer |
| DeckModel.GrainAt | client/src/audio/deck/Deck.ts:344-383 | a grain plays the reversed copy exactly when dir is −1; it starts now, lasts the grain length, and starts at an offset inside the buffer |
| DeckModel.HoldTarget | client/src/audio/deck/Deck.ts:156-159 | a hold tick aims inside [0, duration − grain] when the grain fits, and at 0 otherwise |
| DeckModel.BurstTarget | client/src/audio/deck/Deck.ts:325-327 | a burst tick aims at base ± swing, or at 0 when that is negative |
| DeckModel.BurstLength | client/src/audio/deck/Deck.ts:323-332 | a burst plays at least one grain, and the count is the least whole number at or above `bursts` |
| DeckModel.BurstStopsAtLength | client/src/audio/deck/Deck.ts:331-332 | the stop test `i >= bursts` first holds on tick number `BurstLength(bursts)` |
| DeckModel.FilterCutoff | client/src/audio/deck/Deck.ts:274-280 | the lowpass cutoff `80 · 250^v` for the knob value clamped to [0, 1]; FilterCutoffRange states it lies in [80 Hz, 20 kHz], hits both ends and is monotone in the knob |
| DeckModel.FilterCutoffRange | client/src/audio/deck/Deck.ts:274-280 | the lowpass cutoff lies in [80 Hz, 20 kHz], is 80 Hz at 0 and 20 kHz at 1, and rises with the knob |
| DeckModel.Deck.constructor | client/src/audio/deck/Deck.ts:31-61 | a new deck is empty and stopped at 0, bass and mid gain are 0 dB, the cutoff is 20 kHz and the fader is 0.9 |
| DeckModel.Deck.DurationSec | client/src/audio/deck/Deck.ts:76-78 | the duration is non-negative |
| DeckModel.Deck.Position | client/src/audio/deck/Deck.ts:80-87 | the position lies in [0, duration] and is 0 with no buffer |
| DeckModel.Deck.GetState | client/src/audio/deck/Deck.ts:282-291 | the snapshot copies play state and cues, and its position lies within its duration (both 0 with no buffer) |
| DeckModel.Deck.AdvanceClock | client/src/audio/deck/Deck.ts:85 | the audio clock moves forward and the deck stays valid |
| DeckModel.Deck.MakeReversedBuffer | client/src/audio/deck/Deck.ts:192-203 | the nested loop builds exactly the reversed buffer |
| DeckModel.Deck.StartSourceAt | client/src/audio/deck/Deck.ts:89-111 | a new source (the next id) plays from the clamped offset, starting now |
| DeckModel.Deck.StopSource | client/src/audio/deck/Deck.ts:113-121 | the current source is forgotten |
| DeckModel.Deck.SourceEnded | client/src/audio/deck/Deck.ts:100-107 | only the current source's end stops the deck and rewinds it to 0; a stale source's end changes nothing |
| DeckModel.Deck.Play | client/src/audio/deck/Deck.ts:205-209 | with no buffer, or when already playing, nothing changes; otherwise the deck plays from its offset |
| DeckModel.Deck.Stop | client/src/audio/deck/Deck.ts:211-226 | with a buffer, the live position is saved and the source dropped; a hard reset rewinds to 0 |
| DeckModel.Deck.Toggle | client/src/audio/deck/Deck.ts:228-231 | with a buffer, the play state flips: a pause keeps the position, a play resumes from it; without one the transport, the current source and the next source id stay as they were |
| DeckModel.Deck.Seek | client/src/audio/deck/Deck.ts:234-246 | the play state is kept and the position becomes the clamped target; a playing deck restarts its source there |
| DeckModel.Deck.SetCue | client/src/audio/deck/Deck.ts:249-252 | the slot holds the current position and the other slot is unchanged |
| DeckModel.Deck.JumpCue | client/src/audio/deck/Deck.ts:254-258 | an unset slot, or a deck with no buffer, changes nothing; a set slot on a loaded deck seeks to the stored position and keeps the play state |
| DeckModel.Deck.SetFader | client/src/audio/deck/Deck.ts:261-264 | the fader gain is the value clamped to [0, 1] |
| DeckModel.Deck.SetBassGainDb | client/src/audio/deck/Deck.ts:266-268 | the bass gain is stored as given |
| DeckModel.Deck.SetMidGainDb | client/src/audio/deck/Deck.ts:270-272 | the mid gain is stored as given |
| DeckModel.Deck.SetFilterValue | client/src/audio/deck/Deck.ts:274-280 | the cutoff follows the exponential sweep and lies in [80 Hz, 20 kHz] |
| DeckModel.Deck.PlayGrain | client/src/audio/deck/Deck.ts:344-383 | with a buffer, exactly one grain is added to the log; without one, nothing happens |
| DeckModel.Deck.StartScratchHold | client/src/audio/deck/Deck.ts:127-166 | the call is ignored with no buffer or while a hold runs; otherwise the deck remembers its play state and position, stops in place and starts the hold timer with the option defaults |
| DeckModel.Deck.HoldTick | client/src/audio/deck/Deck.ts:152-165 | one grain at base ± swing, kept inside the buffer; then the direction flips |
| DeckModel.Deck.ReturnTo | client/src/audio/deck/Deck.ts:174-186 | the deck seeks back to the base, clamped, and plays again when asked to |
| DeckModel.Deck.StopScratchHold | client/src/audio/deck/Deck.ts:168-189 | the timer is cleared and the deck is back at the remembered position, playing again if it had been playing |
| DeckModel.Deck.ScratchBurst | client/src/audio/deck/Deck.ts:294-324 | with a buffer, the deck stops in place and a new burst timer replaces any running one |
| DeckModel.Deck.BurstTick | client/src/audio/deck/Deck.ts:324-341 | one grain in the alternating direction; the timer stops exactly on the last tick, which seeks back to the base and resumes play if the deck had been playing |
| DeckModel.Deck.Load | client/src/audio/deck/Deck.ts:67-74 | the buffer and its reversed copy are installed; the deck is stopped at 0 with both cues cleared and no hold running |
| DeckModel.Deck.RampPlaybackRate | client/src/audio/beat/SyncService.ts:36 | the ramp request is recorded as given |
| DeckModel.HoldGestureRestores | client/src/audio/deck/Deck.ts:127-189 | a hold gesture on a playing deck, with any ticks and clock steps in between, ends playing at the position it started from |
| BeatAnalyzer.Mono | client/src/audio/beat/BeatAnalyzer.ts:48-59 | the downmix has one sample per frame of the buffer |
| BeatAnalyzer.MixSum | client/src/audio/beat/BeatAnalyzer.ts:53-57 | the downmix of one sample over the first k channels, each scaled by 1/channels; MixSumUniform states that identical channels mix back to that channel's sample |
| BeatAnalyzer.MixSumUniform | client/src/audio/beat/BeatAnalyzer.ts:53-57 | when all channels are equal, k accumulated channels give k/ch of the sample |
| BeatAnalyzer.MonoOfIdenticalChannels | client/src/audio/beat/BeatAnalyzer.ts:48-59 | downmixing identical channels gives back the channel |
| BeatAnalyzer.ToMono | client/src/audio/beat/BeatAnalyzer.ts:48-59 | the accumulation loop computes the downmix |
| BeatAnalyzer.Hop | client/src/audio/beat/BeatAnalyzer.ts:19 | the hop is at least 1 and is the floor of sampleRate/200 when that is at least 1 |
| BeatAnalyzer.FrameCount | client/src/audio/beat/BeatAnalyzer.ts:21 | the number of frames the envelope loop visits; FrameCountBounds states frame k exists exactly when it starts below n, FrameCountExact pins the count |
| BeatAnalyzer.SumAbs | client/src/audio/beat/BeatAnalyzer.ts:22-24 | the absolute sum of a frame is non-negative |
| BeatAnalyzer.FrameCountBounds | client/src/audio/beat/BeatAnalyzer.ts:21 | frame k exists exactly when it starts inside the signal |
| BeatAnalyzer.FrameLevel | client/src/audio/beat/BeatAnalyzer.ts:22-25 | a frame's mean absolute level is non-negative |
| BeatAnalyzer.Envelope | client/src/audio/beat/BeatAnalyzer.ts:20-26 | one non-negative level per frame |
| BeatAnalyzer.SumAbsAtMost | client/src/audio/beat/BeatAnalyzer.ts:22-24 | samples bounded by b give a sum of at most (hi − lo)·b |
| BeatAnalyzer.EnvelopeOfBoundedSignal | client/src/audio/beat/BeatAnalyzer.ts:20-26 | a signal in [−1, 1] has an envelope in [0, 1] |
| BeatAnalyzer.FrameCountExact | client/src/audio/beat/BeatAnalyzer.ts:21 | the first frame start at or past n is the frame count |
| BeatAnalyzer.SumFrame | client/src/audio/beat/BeatAnalyzer.ts:22-24 | the inner loop computes the frame's absolute sum |
| BeatAnalyzer.ComputeEnvelope | client/src/audio/beat/BeatAnalyzer.ts:20-26 | the envelope loop computes the envelope |
| BeatAnalyzer.SumRangeDropFirst | client/src/audio/beat/BeatAnalyzer.ts:66-68 | dropping x[i−w] from the running sum leaves the sum of the window |
| BeatAnalyzer.Window | client/src/audio/beat/BeatAnalyzer.ts:63 | the window `Math.max(1, win | 0)` for a whole-number window; MovingAverage is proved to average over it |
| BeatAnalyzer.MovingAverageOf | client/src/audio/beat/BeatAnalyzer.ts:62-72 | the average has the input's length |
| BeatAnalyzer.SumRangeBounds | client/src/audio/beat/BeatAnalyzer.ts:62-72 | bounds on the entries bound the window sum |
| BeatAnalyzer.MovingAverageWithinBounds | client/src/audio/beat/BeatAnalyzer.ts:62-72 | the average stays within any bounds of its input; a constant signal is unchanged |
| BeatAnalyzer.MovingAverage | client/src/audio/beat/BeatAnalyzer.ts:62-72 | the running-sum loop computes the average of the last min(w, i+1) inputs |
| BeatAnalyzer.Insert | client/src/audio/beat/BeatAnalyzer.ts:86 | insertion keeps the sequence sorted and adds exactly the element |
| BeatAnalyzer.SortAsc | client/src/audio/beat/BeatAnalyzer.ts:86 | the sort is sorted and a permutation of its input |
| BeatAnalyzer.PercentileIndex | client/src/audio/beat/BeatAnalyzer.ts:74-77 | the index is inside the sequence and is floor(p·(n−1)) for p in [0, 1] |
| BeatAnalyzer.Percentile | client/src/audio/beat/BeatAnalyzer.ts:74-77 | the percentile is an element; in a sorted input everything before it is at or below it and everything after at or above it |
| BeatAnalyzer.Threshold | client/src/audio/beat/BeatAnalyzer.ts:86-87 | the peak threshold: the percentile of the sorted envelope; PeakIndicesArePeaks and FindLocalPeaks state the picks are at or above it |
| BeatAnalyzer.ShadowedExtend | client/src/audio/beat/BeatAnalyzer.ts:92-100 | a candidate shadowed by the picks stays shadowed when a pick is added |
| BeatAnalyzer.SkipStep | client/src/audio/beat/BeatAnalyzer.ts:92-100 | skipping a non-candidate, or a candidate too close to the last pick, keeps the greedy invariant |
| BeatAnalyzer.AcceptStep | client/src/audio/beat/BeatAnalyzer.ts:92-100 | picking a candidate far enough from the last pick keeps the greedy invariant |
| BeatAnalyzer.AcceptKeepsCandidates | client/src/audio/beat/BeatAnalyzer.ts:93-96 | after a pick every picked index is still a candidate |
| BeatAnalyzer.AcceptKeepsSpacing | client/src/audio/beat/BeatAnalyzer.ts:95-97 | a pick at least minDistance after the last keeps the picks increasing and spaced |
| BeatAnalyzer.AcceptKeepsShadows | client/src/audio/beat/BeatAnalyzer.ts:92-100 | after a pick every candidate left out below the next index is still shadowed by a pick |
| BeatAnalyzer.PickStep | client/src/audio/beat/BeatAnalyzer.ts:92-100 | one step of the scan, pick or skip, extends the greedy invariant by one index |
| BeatAnalyzer.GreedyPicksBelow | client/src/audio/beat/BeatAnalyzer.ts:92-100 | after scanning up to i, the picks are the greedy choice among indices below i |
| BeatAnalyzer.GreedyPicksPeaks | client/src/audio/beat/BeatAnalyzer.ts:92-101 | after the whole interior is scanned, the picks are the greedy choice of peaks |
| BeatAnalyzer.PeakIndices | client/src/audio/beat/BeatAnalyzer.ts:79-101 | the indices `findLocalPeaks` returns: none below three points, otherwise the greedy scan's picks; PeakIndicesArePeaks states they ascend at least the minimum distance apart, each is an interior point at or above the threshold that rises from the left and does not fall to the right, and every such point left out lies within the minimum distance after a pick, and FindLocalPeaks is proved to compute them |
| BeatAnalyzer.PeakIndicesArePeaks | client/src/audio/beat/BeatAnalyzer.ts:79-101 | the indices `findLocalPeaks` returns are none below three points and otherwise the greedy choice |
| BeatAnalyzer.FindLocalPeaks | client/src/audio/beat/BeatAnalyzer.ts:79-101 | none below three points; otherwise exactly the greedy picks: increasing candidates at least minDistance apart, every skipped candidate too close to an earlier pick |
| BeatAnalyzer.ScanPeaks | client/src/audio/beat/BeatAnalyzer.ts:89-101 | the scan with its `last` marker computes exactly the step-by-step greedy choice |
| BeatAnalyzer.PeakTimesSpaced | client/src/audio/beat/BeatAnalyzer.ts:32-37 | picked peaks in seconds are at least minDistance·hop/sampleRate apart |
| BeatAnalyzer.PeakTimes | client/src/audio/beat/BeatAnalyzer.ts:37 | one time per peak index, k·hop/sampleRate |
| BeatAnalyzer.SmoothedEnvelope | client/src/audio/beat/BeatAnalyzer.ts:13-29 | downmix, envelope and smoothing compute the moving average of the envelope of the downmix |
| BeatAnalyzer.Smoothed | client/src/audio/beat/BeatAnalyzer.ts:13-29 | the smoothed envelope `analyze` picks peaks from; SmoothedEnvelope is proved to compute it |
| BeatAnalyzer.AnalyzedPeakTimes | client/src/audio/beat/BeatAnalyzer.ts:29-37 | the peak times `analyze` passes to the tempo estimate; AnalyzedPeaksSpaced states they are the peaks of the smoothed envelope, in seconds, spaced by at least the minimum distance, and Analyze is proved to estimate from them |
| BeatAnalyzer.AnalyzedPeaksSpaced | client/src/audio/beat/BeatAnalyzer.ts:29-37 | the reported peaks are the greedy peaks of the smoothed envelope, and neighbouring peak times are at least minDistance·hop/sampleRate apart |
| BeatAnalyzer.Analyze | client/src/audio/beat/BeatAnalyzer.ts:12-46 | the peak times are the greedy peaks of the smoothed envelope of the downmix, in seconds; the estimate is the estimator's for them; the anchor is the first peak, or 0 |
| BpmEstimator.FoldUp | client/src/audio/beat/BpmEstimator.ts:36 | doubling stops at or above min and below 2·min, and leaves a tempo at or above min alone |
| BpmEstimator.FoldDown | client/src/audio/beat/BpmEstimator.ts:37 | halving stops in (0, max] above max/2, and leaves a tempo at or below max alone |
| BpmEstimator.FoldUpFixed | client/src/audio/beat/BpmEstimator.ts:36 | a tempo at or above min is not doubled |
| BpmEstimator.FoldDownFixed | client/src/audio/beat/BpmEstimator.ts:37 | a tempo at or below max is not halved |
| BpmEstimator.Folded | client/src/audio/beat/BpmEstimator.ts:34-38 | the value `foldToRange` returns: doubled until at least min, then halved until at most max; FoldedInBand states it lies in an octave-wide band and leaves in-band tempos alone, and FoldToRange's loops are proved to compute it |
| BpmEstimator.FoldedInBand | client/src/audio/beat/BpmEstimator.ts:34-38 | with a band of at least an octave, every positive tempo folds into it and tempos in it stay put |
| BpmEstimator.PlausibleGap | client/src/audio/beat/BpmEstimator.ts:7 | the gap filter `0.08 < d < 1.2`; KeptGaps states every kept gap passes it, and CollectGaps is proved to compute KeptGaps |
| BpmEstimator.FoldToRange | client/src/audio/beat/BpmEstimator.ts:34-38 | the two loops compute the fold, which is at most max, and at least min for a band of an octave or more |
| BpmEstimator.KeptGaps | client/src/audio/beat/BpmEstimator.ts:4-8 | fewer gaps than peaks, each strictly between 80 ms and 1.2 s |
| BpmEstimator.Candidate | client/src/audio/beat/BpmEstimator.ts:11-13 | every candidate tempo lies in [80, 180] |
| BpmEstimator.BinKeys | client/src/audio/beat/BpmEstimator.ts:15-19 | one whole-BPM key per candidate, in [80, 180] |
| BpmEstimator.Count | client/src/audio/beat/BpmEstimator.ts:15-19 | a count is at most the length and is 0 for absent values |
| BpmEstimator.CountPositive | client/src/audio/beat/BpmEstimator.ts:15-19 | a present value has a count of at least 1 |
| BpmEstimator.Dedup | client/src/audio/beat/BpmEstimator.ts:15-19 | the key order of the `bins` Map: the distinct bin keys in order of first insertion; DedupSound states it holds exactly the keys, each once, and BuildBins is proved to produce it |
| BpmEstimator.DedupSound | client/src/audio/beat/BpmEstimator.ts:15-19 | the map's keys are exactly the values, each once |
| BpmEstimator.DedupSnoc | client/src/audio/beat/BpmEstimator.ts:15-19 | a new key goes last; a known key keeps the order |
| BpmEstimator.CountSnoc | client/src/audio/beat/BpmEstimator.ts:15-19 | appending a value adds one to its count only |
| BpmEstimator.IsBestBin | client/src/audio/beat/BpmEstimator.ts:21-28 | the bin the `bins.entries()` loop keeps: a largest count, and the first such in key order because only a strictly larger count replaces it; BestBinUnique states that choice is unique, BestBinCount its bounds, and BestBin is proved to find it |
| BpmEstimator.BestBinUnique | client/src/audio/beat/BpmEstimator.ts:21-28 | the strict `>` tie-break makes the winning bin unique |
| BpmEstimator.BestBinCount | client/src/audio/beat/BpmEstimator.ts:21-30 | the winning bin is a key whose count is between 1 and the number of candidates |
| BpmEstimator.EstimateOf | client/src/audio/beat/BpmEstimator.ts:1-31 | the estimate `estimateBpmFromPeaks` returns: 120 BPM / 0 with fewer than 6 peaks or fewer than 4 kept gaps, otherwise the first fullest bin in key order and its count over the number of candidates; EstimateBounds states its ranges and EstimateBpmFromPeaks is proved to meet it |
| BpmEstimator.EstimateBounds | client/src/audio/beat/BpmEstimator.ts:1-31 | the tempo is a whole BPM in [80, 180]; the confidence lies in [0, 1] and is 0 exactly for the 120/0 fallback |
| BpmEstimator.CollectGaps | client/src/audio/beat/BpmEstimator.ts:4-8 | the gap loop keeps exactly the plausible gaps, in order |
| BpmEstimator.BuildBins | client/src/audio/beat/BpmEstimator.ts:15-19 | the bins hold every key with its count, in first-seen order |
| BpmEstimator.BestBin | client/src/audio/beat/BpmEstimator.ts:21-28 | the scan returns the first bin with the largest count |
| BpmEstimator.EstimateBpmFromPeaks | client/src/audio/beat/BpmEstimator.ts:1-31 | the result satisfies `EstimateOf`, the independent definition of the estimate (the 120 BPM / 0 fallback with fewer than 6 peaks or fewer than 4 kept gaps, otherwise the first fullest bin and its share), with the tempo in [80, 180] and the confidence in [0, 1] |
| BeatGridModel.CreateBeatGrid | client/src/audio/beat/BeatGrid.ts:3-5 | the interval times the tempo is 60, and the interval is positive for a positive tempo |
| BeatGridModel.NearestBeatSec | client/src/audio/beat/BeatGrid.ts:6-10 | `getNearestBeatSec`: the grid point with the rounded index, t itself for a non-positive interval; NearestWithinHalfBeat states it is within half an interval of t, NextOfGridPoint that a grid point is its own nearest beat |
| BeatGridModel.NextBeatSec | client/src/audio/beat/BeatGrid.ts:12-15 | `getNextBeatSec`: the grid point one past the floored index; NextBeatAfter states it lies in (t, t + interval], NextMinusNearest that it is the nearest beat or one interval after it, NextOfGridPoint that from a grid point it is the following one |
| BeatGridModel.QuotTimes | client/src/audio/beat/BeatGrid.ts:8 | helper for NearestWithinHalfBeat and NextBeatAfter: (y / i) · i = y for i > 0, so the fractional beat index times the interval is the offset from the anchor |
| BeatGridModel.NextBeatIndex | client/src/audio/beat/BeatGrid.ts:13 | the index `Math.floor((t − anchor) / interval) + 1` of the next beat; NextBeatAfter states its grid point lies in (t, t + interval] and SameGridDeltaIsWholeBeats that index differences give the beat delta on one grid |
| BeatGridModel.NearestWithinHalfBeat | client/src/audio/beat/BeatGrid.ts:6-10 | the nearest beat lies within half a beat of t |
| BeatGridModel.NextBeatAfter | client/src/audio/beat/BeatGrid.ts:12-15 | the next beat is strictly after t and at most one beat later |
| BeatGridModel.NextMinusNearest | client/src/audio/beat/BeatGrid.ts:6-15 | the next beat is zero or one beats after the nearest one |
| BeatGridModel.NextOfGridPoint | client/src/audio/beat/BeatGrid.ts:6-15 | on a beat, the nearest beat is that beat and the next beat is the following one |
| SyncService.Jump | client/src/audio/beat/SyncService.ts:25-28 | the jump is the delta clamped to ±0.35 s |
| SyncService.TargetRate | client/src/audio/beat/SyncService.ts:32-34 | the rate lies in [0.98, 1.02] |
| SyncService.BeatDelta | client/src/audio/beat/SyncService.ts:19-25 | the master's next beat minus the slave's next beat, each on its own grid; SameGridDeltaIsWholeBeats states that on one grid it is a whole number of beat intervals, JumpAntisymmetric that swapping the decks negates the bounded jump made from it, SyncOfIdenticalDecks that identical decks jump by 0 |
| SyncService.JumpAntisymmetric | client/src/audio/beat/SyncService.ts:19-28 | swapping master and slave negates the jump |
| SyncService.SyncOfIdenticalDecks | client/src/audio/beat/SyncService.ts:19-34 | syncing a deck to an identical one jumps 0 at rate 1 |
| SyncService.SameGridDeltaIsWholeBeats | client/src/audio/beat/SyncService.ts:19-25 | on a shared grid, the delta is a whole number of beats |
| SyncService.TargetRateMonotone | client/src/audio/beat/SyncService.ts:32-34 | the rate rises with the master tempo |
| SyncService.TargetRateExamples | client/src/audio/beat/SyncService.ts:32-34 | 140/100 gives 1.02, 128/130 gives 64/65, and 100/140 gives 0.98 |
| SyncService.SyncSlaveToMaster | client/src/audio/beat/SyncService.ts:8-37 | the slave is left entirely unchanged unless both decks are loaded; otherwise the slave moves by the clamped jump and one ramp to the clamped rate over 1.2 s is requested, and only its transport, source and rate requests may change |
| MixerModel.FaderAngle | client/src/audio/mixer/Mixer.ts:26-32 | the angle lies in [0, π/2] |
| MixerModel.Gains | client/src/audio/mixer/Mixer.ts:25-37 | deck 1's gain (cosine) and deck 2's (sine) at the fader angle; ConstantPower, FaderEnds, FaderCentre and FaderMirror state equal power, the two ends, the centre and the mirror symmetry |
| MixerModel.ConstantPower | client/src/audio/mixer/Mixer.ts:25-37 | the squared gains sum to 1, and each gain lies in [0, 1] |
| MixerModel.FaderEnds | client/src/audio/mixer/Mixer.ts:28-33 | fully left gives (1, 0); fully right gives (0, 1) |
| MixerModel.FaderCentre | client/src/audio/mixer/Mixer.ts:25-37 | at the centre both gains are equal, each with square 1/2 |
| MixerModel.FaderMirror | client/src/audio/mixer/Mixer.ts:25-37 | mirroring the fader swaps the gains |
| MixerModel.Mixer.constructor | client/src/audio/mixer/Mixer.ts:5-9 | a new mixer starts centred with equal gains |
| MixerModel.Mixer.SetCrossfader | client/src/audio/mixer/Mixer.ts:25-37 | the gains become the equal-power pair for the clamped value |
| DryWet.WetLevel | client/src/audio/fx/effects/Crush.ts:44-49 | the wet gain is the mix clamped to [0, 1] |
| DryWet.WetLevelMonotone | client/src/audio/fx/effects/Crush.ts:44-49 | the wet gain rises with the mix |
| CrushFx.ClampSteps | client/src/audio/fx/effects/Crush.ts:53 | the step count lies in [4, 128] and is the floor of the argument inside that range |
| CrushFx.CurveX | client/src/audio/fx/effects/Crush.ts:65 | the input x of curve point i, `(i / (n − 1)) · 2 − 1`; CurveXRange states it lies in [−1, 1] and CurveXMirror that mirrored points have opposite inputs |
| CrushFx.LevelIndex | client/src/audio/fx/effects/Crush.ts:67 | the rounded level `Math.round(x · steps)` of point i; LevelIndexRange states it lies in [−steps, steps] |
| CrushFx.Level | client/src/audio/fx/effects/Crush.ts:67-69 | a quantised level after the 1.1 boost and the clip lies in [−1, 1] |
| CrushFx.CurveXRange | client/src/audio/fx/effects/Crush.ts:65 | the curve's input abscissa lies in [−1, 1] |
| CrushFx.LevelIndexRange | client/src/audio/fx/effects/Crush.ts:67 | the rounded level index lies in [−steps, steps] |
| CrushFx.LevelsUpToSize | client/src/audio/fx/effects/Crush.ts:67-69 | the levels up to index k number at most k + steps + 1 and include each of them |
| CrushFx.CurveSample | client/src/audio/fx/effects/Crush.ts:64-69 | point i of the quantize curve: the quantized, boosted and clipped level of x = i/44099 · 2 − 1; CurveMonotone, CurveEnds, CurveDistinctLevels and CurveOddSymmetric state its shape |
| CrushFx.CurveDistinctLevels | client/src/audio/fx/effects/Crush.ts:60-72 | the curve takes at most 2·steps + 1 distinct values |
| CrushFx.CurveMonotone | client/src/audio/fx/effects/Crush.ts:60-72 | the curve is non-decreasing |
| CrushFx.CurveEnds | client/src/audio/fx/effects/Crush.ts:64-70 | the curve runs from −1 to 1 |
| CrushFx.RoundNegate | client/src/audio/fx/effects/Crush.ts:67 | away from half-way points, rounding commutes with negation |
| CrushFx.NoHalfWayPoint | client/src/audio/fx/effects/Crush.ts:65-67 | no curve point lies exactly half-way between two levels |
| CrushFx.CurveXMirror | client/src/audio/fx/effects/Crush.ts:65 | the abscissa is odd about the middle of the table |
| CrushFx.LevelNegate | client/src/audio/fx/effects/Crush.ts:67-69 | the levels are odd in their index |
| CrushFx.CurveOddSymmetric | client/src/audio/fx/effects/Crush.ts:60-72 | the curve is odd: sample n−1−i is minus sample i |
| CrushFx.MakeQuantizeCurve | client/src/audio/fx/effects/Crush.ts:60-72 | the loop fills a fresh 44100-entry table with the curve |
| CrushFx.CrushEffect.constructor | client/src/audio/fx/effects/Crush.ts:13-42 | pre and post gains are 2.5 and 0.7, the curve has 32 steps, and the effect starts dry |
| CrushFx.CrushEffect.SetMix | client/src/audio/fx/effects/Crush.ts:44-49 | wet is the clamped mix and dry is 1 − wet |
| CrushFx.CrushEffect.SetAmount | client/src/audio/fx/effects/Crush.ts:52-58 | the curve is rebuilt for the clamped step count |
| FlangerFx.RateOf | client/src/audio/fx/effects/Flanger.ts:60-62 | the LFO rate is the argument clamped to [0.05, 5] Hz |
| FlangerFx.DepthOf | client/src/audio/fx/effects/Flanger.ts:65-67 | the depth is the argument clamped to [1, 12] ms |
| FlangerFx.FeedbackOf | client/src/audio/fx/effects/Flanger.ts:69-71 | the feedback is the argument clamped to [0, 0.95] |
| FlangerFx.DelayAt | client/src/audio/fx/effects/Flanger.ts:20-37 | the delay time the delay node is asked for: 4 ms plus the LFO scaled by the depth gain; DelayWithinLine states it stays inside the line for depths up to 12 ms, DelayDipsBelowZero that a depth above 4 ms, the default 8 ms included, asks for a negative delay |
| FlangerFx.LoopGain | client/src/audio/fx/effects/Flanger.ts:49-51 | the total gain of the first n passes around the feedback loop; FeedbackBounded states it stays within [0, 20] and is at least 1 from one pass on, and LoopGainGrows that it grows with n |
| FlangerFx.DelayWithinLine | client/src/audio/fx/effects/Flanger.ts:18-37 | the modulated delay stays within base ± depth, and below the 50 ms line |
| FlangerFx.DelayDipsBelowZero | client/src/audio/fx/effects/Flanger.ts:20-37 | a depth above the 4 ms base asks for a negative delay at the LFO's trough; the default asks for −4 ms |
| FlangerFx.FeedbackBounded | client/src/audio/fx/effects/Flanger.ts:49-51 | with feedback at most 0.95, the loop gain over n trips lies in [0, 20], and is at least 1 once n ≥ 1 |
| FlangerFx.LoopGainGrows | client/src/audio/fx/effects/Flanger.ts:49-51 | every further trip adds a non-negative amount of gain |
| FlangerFx.FlangerEffect.constructor | client/src/audio/fx/effects/Flanger.ts:14-52 | feedback 0.75, rate 0.35 Hz, depth 8 ms, starting dry |
| FlangerFx.FlangerEffect.SetMix | client/src/audio/fx/effects/Flanger.ts:54-58 | wet is the clamped mix and dry is 1 − wet |
| FlangerFx.FlangerEffect.SetRate | client/src/audio/fx/effects/Flanger.ts:60-62 | the LFO rate is clamped |
| FlangerFx.FlangerEffect.SetDepth | client/src/audio/fx/effects/Flanger.ts:65-67 | the depth is clamped |
| FlangerFx.FlangerEffect.SetFeedback | client/src/audio/fx/effects/Flanger.ts:69-71 | the feedback is clamped |
| SlicerFx.Frac | client/src/audio/fx/effects/Slicer.ts:26-28 | the LFO phase lies in [0, 1) |
| SlicerFx.Square | client/src/audio/fx/effects/Slicer.ts:26-28 | the square wave is +1 in the first half of each period and −1 in the second |
| SlicerFx.GateAt | client/src/audio/fx/effects/Slicer.ts:18-38 | the gate's computed gain at an LFO phase for a given intrinsic value; GateAsWrittenNeverCloses states it never falls below 1 with the intrinsic 1, Gate that it is a 0/1 gate with intrinsic 0 |
| SlicerFx.GateAsWrittenNeverCloses | client/src/audio/fx/effects/Slicer.ts:18-38 | with the gate's own gain left at 1, the gate swings between 2 and 1 and never reaches 0 |
| SlicerFx.Gate | client/src/audio/fx/effects/Slicer.ts:25-38 | with the gate's own gain at 0, the gate is 1 in the first half of each period and 0 in the second |
| SlicerFx.SlicerEffect.GateGain | client/src/audio/fx/effects/Slicer.ts:18-41 | the gain of the gate stage at an LFO phase: its own gain plus the square LFO and the bias; BuiltGateNeverCloses states it is 2 in the LFO's first half and 1 in the second for a valid effect |
| SlicerFx.RateOf | client/src/audio/fx/effects/Slicer.ts:59-61 | the rate is the argument clamped to [0.5, 24] Hz |
| SlicerFx.SlicerEffect.constructor | client/src/audio/fx/effects/Slicer.ts:14-51 | the gate's own gain is 1 as written, the rate 10 Hz, starting dry |
| SlicerFx.SlicerEffect.SetMix | client/src/audio/fx/effects/Slicer.ts:53-57 | wet is the clamped mix and dry is 1 − wet |
| SlicerFx.SlicerEffect.SetRate | client/src/audio/fx/effects/Slicer.ts:59-61 | the rate is clamped |
| SlicerFx.BuiltGateNeverCloses | client/src/audio/fx/effects/Slicer.ts:18-41 | the effect as built passes the wet path through a gain of 2 or 1 at every LFO phase, never 0 |
| KickFx.BpmOf | client/src/audio/fx/effects/Kick.ts:51 | the tempo is clamped to [40, 240] |
| KickFx.DepthOf | client/src/audio/fx/effects/Kick.ts:58 | the depth is clamped to [0, 0.95] |
| KickFx.AttackOf | client/src/audio/fx/effects/Kick.ts:61 | the attack is clamped to [1, 80] ms |
| KickFx.ReleaseOf | client/src/audio/fx/effects/Kick.ts:64 | the release is clamped to [20, 800] ms |
| KickFx.PeriodMs | client/src/audio/fx/effects/Kick.ts:70 | the pump period is one beat, between 250 and 1500 ms |
| KickFx.Lerp | client/src/audio/fx/effects/Kick.ts:96-97 | a linear ramp stays between its ends and meets them at 0 and 1 |
| KickFx.LerpBetween | client/src/audio/fx/effects/Kick.ts:96-97 | the interpolation formula stays between its ends |
| KickFx.PumpLevel | client/src/audio/fx/effects/Kick.ts:86-98 | the pumped gain starts at the held value, reaches 1 − depth after the attack, is back at 1 after attack + release, and never leaves [min(held, duck), 1] |
| KickFx.StopLevel | client/src/audio/fx/effects/Kick.ts:75-84 | after stopping, the gain ramps from the held value to 1 within 30 ms |
| KickFx.PumpEventsFollowLevel | client/src/audio/fx/effects/Kick.ts:86-98 | the four scheduled events are the cancel, the hold, and the two ramps whose targets and times `PumpLevel` follows |
| KickFx.PumpTiming | client/src/audio/fx/effects/Kick.ts:13-16 | the default duck is to 0.1 and the default pump ends within a beat at 120 BPM; at the extreme settings a pump outlasts the period |
| KickFx.PumpEvents | client/src/audio/fx/effects/Kick.ts:86-98 | the automation one pump schedules: cancel, hold the current gain, ramp to 1 − depth after the attack, ramp back to 1 after the release; PumpEventsFollowLevel states the gain these events give at any later time |
| KickFx.StopEvents | client/src/audio/fx/effects/Kick.ts:80-83 | the automation stopping schedules: cancel, hold the current gain, ramp to 1 over 30 ms; StopLevel states the gain it gives, and StopPumping is proved to issue it |
| KickFx.KickEffect.constructor | client/src/audio/fx/effects/Kick.ts:18-39 | the default settings, dry, no timer, and the stop ramp that `setMix(0)` schedules |
| KickFx.KickEffect.AdvanceClock | client/src/audio/fx/effects/Kick.ts:87 | the audio clock moves forward |
| KickFx.KickEffect.SetMix | client/src/audio/fx/effects/Kick.ts:41-48 | wet is the clamped mix and dry is 1 − wet; a zero mix stops pumping and a positive mix starts it |
| KickFx.KickEffect.SetBpm | client/src/audio/fx/effects/Kick.ts:50-56 | the tempo is clamped; a running pump restarts at the new period |
| KickFx.KickEffect.SetDepth | client/src/audio/fx/effects/Kick.ts:57-59 | the depth is clamped |
| KickFx.KickEffect.SetAttackMs | client/src/audio/fx/effects/Kick.ts:60-62 | the attack is clamped |
| KickFx.KickEffect.SetReleaseMs | client/src/audio/fx/effects/Kick.ts:63-65 | the release is clamped |
| KickFx.KickEffect.StartPumping | client/src/audio/fx/effects/Kick.ts:67-73 | a running timer is kept; otherwise a timer at one beat starts and one pump is scheduled at once |
| KickFx.KickEffect.StopPumping | client/src/audio/fx/effects/Kick.ts:75-84 | the timer is cleared and the gain is ramped back to 1 |
| KickFx.KickEffect.PumpOnce | client/src/audio/fx/effects/Kick.ts:86-98 | the pump's four events are appended and the gain ends at 1 |
| KickFx.KickEffect.PumpTick | client/src/audio/fx/effects/Kick.ts:71 | one timer firing schedules one pump |
| FxRack.ChainHoldsEachOnce | client/src/audio/fx/FXRack.ts:26-31 | the chain passes through each effect exactly once |
| FxRack.EnabledMix | client/src/audio/fx/FXRack.ts:42 | the mix is 1 exactly when enabled, otherwise 0 |
| FxRack.Rack.constructor | client/src/audio/fx/FXRack.ts:17-38 | four fresh effects, all dry, with the kick not pumping |
| FxRack.Rack.SetEnabled | client/src/audio/fx/FXRack.ts:41-48 | only the named effect changes, and only its wet/dry levels (plus, for the kick, its pump timer and automation): its mix becomes 1 or 0, and the kick pumps exactly when enabled |
| WaveformPeaks.Step | client/src/audio/track/buildPeaks.ts:5 | the bucket width is non-negative |
| WaveformPeaks.BucketStart | client/src/audio/track/buildPeaks.ts:10 | a bucket starts at a non-negative sample |
| WaveformPeaks.BucketEnd | client/src/audio/track/buildPeaks.ts:11 | a bucket holds at least one sample |
| WaveformPeaks.BucketsCover | client/src/audio/track/buildPeaks.ts:5-11 | the buckets start at 0, leave no gap between neighbours, and the start past the last is the channel length |
| WaveformPeaks.MaxAbs | client/src/audio/track/buildPeaks.ts:13-17 | the bucket maximum is non-negative and bounds every absolute sample in it |
| WaveformPeaks.BucketPeak | client/src/audio/track/buildPeaks.ts:10-17 | a bucket's peak is non-negative |
| WaveformPeaks.RawPeaks | client/src/audio/track/buildPeaks.ts:9-21 | one peak per bar |
| WaveformPeaks.SeqMax | client/src/audio/track/buildPeaks.ts:7-20 | the global maximum is non-negative and bounds every peak |
| WaveformPeaks.SeqMaxIndex | client/src/audio/track/buildPeaks.ts:20 | a positive maximum is attained by some bar |
| WaveformPeaks.Normalise | client/src/audio/track/buildPeaks.ts:24-26 | every bar is divided by the maximum |
| WaveformPeaks.SeqMaxSnoc | client/src/audio/track/buildPeaks.ts:20 | the running maximum after one more bar is the larger of the two |
| WaveformPeaks.MaxAbsSnoc | client/src/audio/track/buildPeaks.ts:14-17 | the running bucket maximum after one more sample is the larger of the two |
| WaveformPeaks.NormaliseByMax | client/src/audio/track/buildPeaks.ts:23-26 | dividing by the positive maximum puts every bar in [0, 1], with the tallest at 1 |
| WaveformPeaks.Peaks | client/src/audio/track/buildPeaks.ts:1-28 | what `buildPeaks` returns: the bucket peaks, divided by the largest when it is positive; PeaksNormalised states one value per bar in [0, 1] with the largest 1, PeaksOfSilence that a silent channel gives zeros, and BuildPeaks is proved to compute it |
| WaveformPeaks.PeaksNormalised | client/src/audio/track/buildPeaks.ts:1-28 | for a track that is not silent, the bars lie in [0, 1] and one is exactly 1 |
| WaveformPeaks.PeaksOfSilence | client/src/audio/track/buildPeaks.ts:24-28 | when every bucket is silent, every bar is 0 |
| WaveformPeaks.MaxAbsAtMost | client/src/audio/track/buildPeaks.ts:13-17 | a bound on the samples bounds the bucket maximum |
| WaveformPeaks.SeqMaxAtMost | client/src/audio/track/buildPeaks.ts:20 | a bound on the bars bounds their maximum |
| WaveformPeaks.SilentChannel | client/src/audio/track/buildPeaks.ts:1-28 | a channel of zeros gives silent buckets |
| WaveformPeaks.ScanBucket | client/src/audio/track/buildPeaks.ts:13-17 | the inner loop computes the bucket maximum |
| WaveformPeaks.DivideAll | client/src/audio/track/buildPeaks.ts:24-26 | the normalisation loop divides every entry in place |
| WaveformPeaks.BucketValue | client/src/audio/track/buildPeaks.ts:10-18 | the bucket scan computes the bucket's peak, clipped to the channel |
| WaveformPeaks.RawBuckets | client/src/audio/track/buildPeaks.ts:7-21 | the first pass fills a fresh array with the raw bucket peaks and returns their maximum |
| WaveformPeaks.BuildPeaks | client/src/audio/track/buildPeaks.ts:1-28 | a fresh array with one entry per bar, holding the normalised peaks |
| DJStore.StoreClamp | client/src/store/useDJStore.ts:6 | with ordered bounds, the store's clamp lies in them, keeps values inside, and agrees with the client's other clamp |
| DJStore.WithKnob | client/src/store/useDJStore.ts:53-58 | the named knob takes the value; the other knobs and the play flag are kept |
| DJStore.DeckInRangeKnobs | client/src/store/useDJStore.ts:9-15 | a deck is in range exactly when each of its four knobs is in [0, 1] |
| DJStore.InitialState | client/src/store/useDJStore.ts:32-35 | the store's initial state; InitialInRange states every value starts inside its clamped range |
| DJStore.InitialInRange | client/src/store/useDJStore.ts:32-35 | the initial state is in range, with both decks stopped |
| DJStore.UpdateValue | client/src/store/useDJStore.ts:38-62 | the `updateValue` reducer; UpdateBpm, UpdateCrossFader, UpdateDeckKnob and UpdateWithoutDeck state each of its four branches and UpdateKeepsRange that it keeps every value in its range |
| DJStore.SetPlayState | client/src/store/useDJStore.ts:64-70 | the `setPlayState` reducer; PlayStateOnlyFlag states it changes only that deck's play flag |
| DJStore.UpdateBpm | client/src/store/useDJStore.ts:41-43 | a tempo update moves only the tempo, to the sum clamped to [60, 200], whatever deck is named |
| DJStore.UpdateCrossFader | client/src/store/useDJStore.ts:44-46 | a crossfader update moves only the crossfader, to the sum clamped to [−1, 1] |
| DJStore.UpdateDeckKnob | client/src/store/useDJStore.ts:49-59 | a knob update changes only that knob of that deck, to the sum clamped to [0, 1] |
| DJStore.UpdateWithoutDeck | client/src/store/useDJStore.ts:61 | a knob update that names no deck changes nothing |
| DJStore.UpdateKeepsRange | client/src/store/useDJStore.ts:38-62 | updates keep every value in range |
| DJStore.PlayStateOnlyFlag | client/src/store/useDJStore.ts:64-70 | only the chosen deck's play flag changes |
| InputManager.KeyMapWellShaped | client/src/hooks/useInputmanager.ts:16-59 | every entry has a type; deck entries have no target or a deck knob held; global targets are the crossfader (held) or the tempo (triggered) |
| InputManager.UpperChar | client/src/hooks/useInputmanager.ts:86 | upper-casing leaves no lower-case ASCII letter and changes nothing else |
| InputManager.Upper | client/src/hooks/useInputmanager.ts:86 | the upper-cased code has the same length and is upper-cased character by character |
| InputManager.IndexOf | client/src/hooks/useInputmanager.ts:87 | the result is the first occurrence at or after `from`, or none exists |
| InputManager.ReplaceFirst | client/src/hooks/useInputmanager.ts:87-88 | `String.replace` with a string pattern, which replaces the first occurrence only; StripPrefix states it strips a leading match |
| InputManager.StripPrefix | client/src/hooks/useInputmanager.ts:87-88 | replacing a leading prefix by nothing strips it |
| InputManager.NormalizeKeyCode | client/src/hooks/useInputmanager.ts:85-91 | `normalizeKeyCode`; NormalizeKeyCodeCases states its four cases and Letter-, Digit- and NamedCodesReachKeyMap that browser codes reach the key map's keys |
| InputManager.NormalizeKeyCodeCases | client/src/hooks/useInputmanager.ts:85-91 | a leading "KEY" or "DIGIT" is dropped, "SEMICOLON" becomes ";", and any other code is only upper-cased |
| InputManager.LetterCodesReachKeyMap | client/src/hooks/useInputmanager.ts:84-87 | "KeyG" and "KeyQ" become mapped keys "G" and "Q" |
| InputManager.DigitCodesReachKeyMap | client/src/hooks/useInputmanager.ts:84-88 | "Digit1" and "Digit9" become mapped keys "1" and "9" |
| InputManager.NamedCodesReachKeyMap | client/src/hooks/useInputmanager.ts:84-91 | "Semicolon", "ShiftLeft" and "ArrowUp" become mapped keys |
| InputManager.DigitValue | client/src/hooks/useInputmanager.ts:142 | a digit's value is at most 9 |
| InputManager.DigitRun | client/src/hooks/useInputmanager.ts:142 | the run is the longest prefix of digits |
| InputManager.ParseInt | client/src/hooks/useInputmanager.ts:142 | parsing fails exactly when the text does not start with a digit, and otherwise gives a non-negative value |
| InputManager.CueIndices | client/src/hooks/useInputmanager.ts:141-143 | "CUE1" and "CUE2" yield cue indices 1 and 2 |
| InputManager.HoldDelta | client/src/hooks/useInputmanager.ts:127 | the step is +0.01 exactly for UP or RIGHT, otherwise −0.01 |
| InputManager.HoldEffect | client/src/hooks/useInputmanager.ts:125-136 | `processHoldAction`; HoldDeckKnob and HoldCrossFader state its two branches and EffectsKeepRange that it keeps the store in range |
| InputManager.TriggerEffect | client/src/hooks/useInputmanager.ts:139-165 | `executeTriggerAction`; TriggerPlay, TriggerBpm, TriggerCue, TriggerSync and TriggerNoOps state its branches and EffectsKeepRange that it keeps the store in range |
| InputManager.Frame | client/src/hooks/useInputmanager.ts:113-122 | one pass of `updateLoop` over the held keys; FrameOfTriggersOnly states that trigger-only keys change nothing and FrameKeepsRange that a pass keeps the store in range |
| InputManager.HoldDeckKnob | client/src/hooks/useInputmanager.ts:125-131 | a held deck-knob key adjusts the engine once and moves only that knob in the store, clamped |
| InputManager.HoldCrossFader | client/src/hooks/useInputmanager.ts:132-135 | a held crossfader key adjusts the mixer once and moves only the crossfader, clamped |
| InputManager.FrameOfTriggersOnly | client/src/hooks/useInputmanager.ts:113-122 | a frame with only trigger keys down changes nothing |
| InputManager.EffectsKeepRange | client/src/hooks/useInputmanager.ts:125-165 | hold and trigger actions keep the store in range |
| InputManager.FrameKeepsRange | client/src/hooks/useInputmanager.ts:113-122 | a whole frame keeps the store in range |
| InputManager.RemoveKey | client/src/hooks/useInputmanager.ts:108-111 | releasing a key removes exactly that key and keeps the keys distinct |
| InputManager.Controller.constructor | client/src/hooks/useInputmanager.ts:76-81 | no keys are down and no calls have been made |
| InputManager.Controller.HandleKeyDown | client/src/hooks/useInputmanager.ts:93-106 | keys typed into an input field, unmapped keys and repeats are ignored; a new mapped key is added, and a trigger key acts once |
| InputManager.Controller.HandleKeyUp | client/src/hooks/useInputmanager.ts:108-111 | the released key leaves the set |
| InputManager.Controller.UpdateLoop | client/src/hooks/useInputmanager.ts:113-122 | one frame applies every held key's action, in insertion order |
| InputManager.Controller.ProcessHoldAction | client/src/hooks/useInputmanager.ts:125-136 | the hold action's calls and store updates |
| InputManager.TriggerPlay | client/src/hooks/useInputmanager.ts:145-151 | a PLAY key makes one toggle call on its deck and flips only that deck's play flag in the store |
| InputManager.TriggerBpm | client/src/hooks/useInputmanager.ts:161-164 | a tempo key steps the tempo by +1 for UP and −1 otherwise, clamped to [60, 200], and calls nothing |
| InputManager.CueCommand | client/src/hooks/useInputmanager.ts:141-144 | a CUE1 or CUE2 deck command makes exactly one jump call, to cue 1 or cue 2, and leaves the store alone |
| InputManager.TriggerCue | client/src/hooks/useInputmanager.ts:141-144 | every cue key of the key map makes exactly one jump call on its deck, to cue 1 or cue 2 |
| InputManager.TriggerSync | client/src/hooks/useInputmanager.ts:153-155 | the space bar makes one sync call and leaves the store alone |
| InputManager.IgnoredCommand | client/src/hooks/useInputmanager.ts:139-164 | a command that is no cue, play, sync or tempo step changes nothing |
| InputManager.TriggerNoOps | client/src/hooks/useInputmanager.ts:139-165 | the upload keys and the effect keys change nothing when triggered |
| InputManager.Controller.ExecuteTriggerAction | client/src/hooks/useInputmanager.ts:139-165 | the trigger action's calls and store updates, keeping the store in range |
| RecordingController.Sanitize | server/src/main/java/com/keydrop/server/controller/RecordingController.java:60 | same length; CR, LF and `"` become `_` and every other character is kept |
| RecordingController.IsBlank | server/src/main/java/com/keydrop/server/controller/RecordingController.java:58 | `String.isBlank`: every character is whitespace; SanitizeKeepsNonBlank states that sanitising keeps a name non-blank, and SafeFileNameNeverBlank that the name used in the header is never blank |
| RecordingController.SafeFileName | server/src/main/java/com/keydrop/server/controller/RecordingController.java:57-61 | a missing or blank name gives "recording"; otherwise the name keeps its length and safe characters; no CR, LF or `"` remains |
| RecordingController.SanitizeKeepsNonBlank | server/src/main/java/com/keydrop/server/controller/RecordingController.java:58-60 | sanitising a non-blank name leaves it non-blank |
| RecordingController.SafeFileNameNeverBlank | server/src/main/java/com/keydrop/server/controller/RecordingController.java:57-61 | the safe name is never blank |
| RecordingController.SafeFileNameIdempotent | server/src/main/java/com/keydrop/server/controller/RecordingController.java:57-61 | sanitising a safe name changes nothing |
| RecordingController.ContentDisposition | server/src/main/java/com/keydrop/server/controller/RecordingController.java:53 | the Content-Disposition value of `download`: `attachment; filename="` + safe name + `"`; HeaderQuotesOnlyTheName states it has no line break and quotes only the safe name |
| RecordingController.HeaderQuotesOnlyTheName | server/src/main/java/com/keydrop/server/controller/RecordingController.java:53 | the header value has no line break; its only quotes enclose the name; between them lies the safe name |
| RecordingController.TrimStart | server/src/main/java/com/keydrop/server/controller/RecordingController.java:67 | a suffix of the input, with only characters up to U+0020 dropped and none left at its front |
| RecordingController.TrimEnd | server/src/main/java/com/keydrop/server/controller/RecordingController.java:67 | a prefix of the input, with only characters up to U+0020 dropped and none left at its back |
| RecordingController.Trim | server/src/main/java/com/keydrop/server/controller/RecordingController.java:67 | neither end of the trimmed string is a character up to U+0020 |
| RecordingController.TrimClean | server/src/main/java/com/keydrop/server/controller/RecordingController.java:67 | a string with clean ends is its own trim |
| RecordingController.TrimIdempotent | server/src/main/java/com/keydrop/server/controller/RecordingController.java:67 | trimming twice is trimming once |
| RecordingController.RemoveAll | server/src/main/java/com/keydrop/server/controller/RecordingController.java:67 | removing occurrences never lengthens the string |
| RecordingController.RemoveAllAbsent | server/src/main/java/com/keydrop/server/controller/RecordingController.java:67 | a string without the pattern is unchanged |
| RecordingController.ResolveToken | server/src/main/java/com/keydrop/server/controller/RecordingController.java:63-68 | an error exactly for a missing or blank header; otherwise a token no longer than the header, with clean ends |
| RecordingController.BearerTokenRoundTrip | server/src/main/java/com/keydrop/server/controller/RecordingController.java:63-68 | "Bearer " + t yields exactly t, for a clean token t that holds no "Bearer " of its own |
| RecordingController.BareTokenPassesThrough | server/src/main/java/com/keydrop/server/controller/RecordingController.java:63-68 | a clean header with no scheme is passed on as the token |

## Left out

- **Audio rendering.** The model does not render audio: biquad filtering,
  delay lines, oscillators, applying the wave shaper, and sample-accurate
  gain ramps are Web Audio internals. Node parameters are stored values.
  Scheduled automation is a log of events.
- **Graph wiring.** The `connect` calls and the `output` and `input` getters
  are not modelled. This covers `Mixer.connectDeck1`/`connectDeck2`/`connectTo`,
  `Deck.getBuffer` and the rack's input and output gains. The chain order is
  modelled as `FxRack.Chain`.
- **Timers and callbacks.** `setInterval`, `requestAnimationFrame` and the
  `onended` callback are not modelled as such. Each firing is an explicit
  method call (`HoldTick`, `BurstTick`, `PumpTick`, `UpdateLoop`,
  `SourceEnded`), and the audio clock is a field advanced by `AdvanceClock`.
  Real-time interleaving is not modelled.
- **Floating point.** Float32 and IEEE rounding are left out; every number is
  an exact real.
- **Transcendental functions.** `Math.cos`/`Math.sin` (Mixer.ts) and
  `Math.pow` (the deck filter) are not computed. They are passed in as
  function parameters, together with the laws the proofs need (endpoints,
  range, Pythagoras, complementarity, and monotonicity of the power).
- SlicerFx.SlicerEffect.GateGain: the gate is stated at an LFO phase (cycles
  since the oscillator started), not at a clock time. How the oscillator
  accumulates phase across `setRate` changes is not modelled.
- DeckModel.Deck.RampPlaybackRate: Deck.ts defines no `rampPlaybackRate`,
  although the sync service calls it. The test page passes real `Deck`
  objects (testPage.tsx:80-81, :145), so as written the call at
  SyncService.ts:36 fails: TypeScript rejects it, or at run time it throws a
  TypeError after the slave's seek has already happened. The model records
  the request only; the recorded ramp is what was asked for, not an effect
  on playback.
- DeckModel.Deck.GetState: the deck never fills the `playbackRate` field of
  its state type, so the snapshot leaves it out.
- BeatGridModel.CreateBeatGrid: requires a non-zero tempo. A zero tempo gives
  an infinite interval in JavaScript, which reals cannot express.
- SyncService.SyncSlaveToMaster: requires non-zero tempos for the same
  reason.
- BpmEstimator.FoldToRange: requires a positive tempo. For zero or a negative
  tempo the source's doubling loop never ends.
- BeatAnalyzer.MovingAverage: takes a whole-number window. The `win | 0`
  truncation of a fractional window is not modelled, and the only caller
  passes 5.
- BeatAnalyzer.ScanPeaks: starts `last` at "no pick yet" rather than
  at −Infinity. The two agree for every index.
- WaveformPeaks.BuildPeaks: takes the bar count as a natural number.
  JavaScript would reject a negative or fractional length when allocating
  the array.
- InputManager.UpperChar: upper-cases ASCII letters only. Browser key codes
  are ASCII; full Unicode case mapping is left out.
- InputManager.ParseInt: reads a leading run of digits only. `parseInt`'s
  whitespace skipping, sign and radix prefixes are left out, since the only
  inputs are "1" and "2".
- **React and browser effects.** The input manager's `useEffect`
  registration and cleanup, `preventDefault`, and the `console.log` of the
  UPLOAD action are left out. Whether the event target is an input field is
  a boolean parameter.
- RecordingController.ResolveToken: stops at the token. The call into
  `JwtProvider.getUserIdFromAccessToken` belongs to a class outside this
  model. The `list`, `get`, `upload` and `download` endpoints are framework
  wiring, apart from the header value that `ContentDisposition` models.
- **The rest of the repository.** The React UI, the API clients, the live
  broadcast, the track loader, the audio-engine singleton and the other
  server services are not part of this model.

## Findings

| source | as written | input that shows it | evidently intended | confidence | as-written member | corrected member |
|---|---|---|---|---|---|---|
| client/src/audio/fx/effects/Slicer.ts:19 | The gate's own gain is set to 1. The square LFO (±0.5) and the 0.5 bias are connected to the same parameter, and Web Audio adds connected inputs to the parameter's own value. | Any LFO phase: the gain is 2 in the first half of each period and 1 in the second. | A 0/1 gate, as the comment at line 25 says. That needs the gain's own value to be 0. | not executed | SlicerFx.GateAsWrittenNeverCloses | SlicerFx.Gate |

The `SlicerFx.SlicerEffect` class keeps the gate as written (own gain 1), and
`SlicerFx.BuiltGateNeverCloses` carries the finding over to the effect the
constructor builds. `SlicerFx.Gate` states the intended 0/1 gate on its own.
