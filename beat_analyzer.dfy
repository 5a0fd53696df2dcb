/**
 * Offline beat analysis of a decoded track: mono downmix, a 200 Hz
 * amplitude envelope, a five-point moving average, greedy local-peak
 * picking above the 85th percentile, and tempo estimation from the peaks.
 */
module BeatAnalyzer {
  import opened Wrappers
  import opened Numeric
  import opened AudioData
  import opened BpmEstimator

  /** The result of `analyze`. */
  datatype BeatAnalysis = BeatAnalysis(bpm: real, confidence: real, peaksSec: seq<real>, anchorSec: real)

  const SmoothingWindow := 5
  const PeakMinDistance := 6
  const PeakThresholdPercentile := 0.85

  // ---------------------------------------------------------------------------
  // Mono downmix

  /** The running downmix of sample i after the first k channels, each scaled by 1/channels. */
  function MixSum(b: AudioBuffer, k: nat, i: nat): real
    requires WellFormed(b) && k <= |b.channels| && i < b.length
  {
    if k == 0 then 0.0
    else MixSum(b, k - 1, i) + b.channels[k - 1][i] / |b.channels| as real
  }

  /** The mono signal `toMono` produces: a copy of a single channel, otherwise the channel mean. */
  function Mono(b: AudioBuffer): (m: seq<real>)
    requires WellFormed(b)
    ensures |m| == b.length
  {
    if |b.channels| == 1 then b.channels[0]
    else seq(b.length, i requires 0 <= i < b.length => MixSum(b, |b.channels|, i))
  }

  lemma {:induction false} MixSumUniform(b: AudioBuffer, k: nat, i: nat)
    requires WellFormed(b) && k <= |b.channels| && i < b.length
    requires forall c :: 0 <= c < |b.channels| ==> b.channels[c] == b.channels[0]
    ensures MixSum(b, k, i) == k as real * (b.channels[0][i] / |b.channels| as real)
  {
    if k > 0 {
      MixSumUniform(b, k - 1, i);
    }
  }

  /** Downmixing channels that all carry the same signal gives back that signal. */
  lemma {:induction false} MonoOfIdenticalChannels(b: AudioBuffer)
    requires WellFormed(b)
    requires forall c :: 0 <= c < |b.channels| ==> b.channels[c] == b.channels[0]
    ensures Mono(b) == b.channels[0]
  {
    if |b.channels| > 1 {
      var n := |b.channels|;
      forall i | 0 <= i < b.length
        ensures Mono(b)[i] == b.channels[0][i]
      {
        MixSumUniform(b, n, i);
        assert n as real * (b.channels[0][i] / n as real) == b.channels[0][i];
      }
    }
  }

  /** `toMono`: accumulates every channel divided by the channel count into a zeroed array. */
  method ToMono(b: AudioBuffer) returns (mono: seq<real>)
    requires WellFormed(b)
    ensures mono == Mono(b)
  {
    var ch := |b.channels|;
    var len := b.length;
    if ch == 1 {
      return b.channels[0];
    }
    var out := new real[len](_ => 0.0);
    var c := 0;
    while c < ch
      invariant 0 <= c <= ch
      invariant forall i :: 0 <= i < len ==> out[i] == MixSum(b, c, i)
    {
      var data := b.channels[c];
      var i := 0;
      while i < len
        invariant 0 <= i <= len
        invariant forall j :: 0 <= j < i ==> out[j] == MixSum(b, c + 1, j)
        invariant forall j :: i <= j < len ==> out[j] == MixSum(b, c, j)
      {
        out[i] := out[i] + data[i] / ch as real;
        i := i + 1;
      }
      c := c + 1;
    }
    mono := out[..];
  }

  // ---------------------------------------------------------------------------
  // Envelope

  /** Samples per envelope frame: a 200 Hz envelope, at least one sample per frame. */
  function Hop(sampleRate: real): (h: int)
    ensures h >= 1
    ensures sampleRate >= 200.0 ==> h as real <= sampleRate / 200.0 < (h + 1) as real
  {
    MaxInt(1, (sampleRate / 200.0).Floor)
  }

  /** The sum of |s[j]| for lo <= j < hi. */
  function SumAbs(s: seq<real>, lo: int, hi: int): (r: real)
    requires 0 <= lo <= hi <= |s|
    ensures r >= 0.0
    decreases hi - lo
  {
    if lo == hi then 0.0 else SumAbs(s, lo, hi - 1) + Abs(s[hi - 1])
  }

  /** The number of frames: one per start index 0, hop, 2*hop, ... below n. */
  function FrameCount(n: nat, hop: int): nat
    requires hop >= 1
  {
    (n + hop - 1) / hop
  }

  lemma MulMonotone(a: int, b: int, c: int)
    requires a <= b && c >= 0
    ensures a * c <= b * c
  {
  }

  /** Frame k starts inside the signal exactly when k is below the frame count. */
  lemma FrameCountBounds(n: nat, hop: int, k: nat)
    requires hop >= 1
    ensures k < FrameCount(n, hop) <==> k * hop < n
  {
    var m := n + hop - 1;
    var q := m / hop;
    assert q * hop <= m < q * hop + hop;
    if k < q {
      MulMonotone(k + 1, q, hop);
    } else {
      MulMonotone(q, k, hop);
    }
  }

  /** The mean absolute amplitude of frame k. */
  function FrameLevel(s: seq<real>, hop: int, k: nat): (r: real)
    requires hop >= 1 && k < FrameCount(|s|, hop)
    ensures r >= 0.0
  {
    FrameCountBounds(|s|, hop, k);
    var lo := k * hop;
    var hi := MinInt(|s|, lo + hop);
    SumAbs(s, lo, hi) / (hi - lo) as real
  }

  /** The envelope: one mean-absolute level per frame. */
  function Envelope(s: seq<real>, hop: int): (e: seq<real>)
    requires hop >= 1
    ensures |e| == FrameCount(|s|, hop)
    ensures forall k :: 0 <= k < |e| ==> e[k] >= 0.0
  {
    seq(FrameCount(|s|, hop), k requires 0 <= k < FrameCount(|s|, hop) => FrameLevel(s, hop, k))
  }

  lemma {:induction false} SumAbsAtMost(s: seq<real>, lo: int, hi: int, bound: real)
    requires 0 <= lo <= hi <= |s|
    requires forall j :: lo <= j < hi ==> Abs(s[j]) <= bound
    ensures SumAbs(s, lo, hi) <= (hi - lo) as real * bound
    decreases hi - lo
  {
    if lo < hi {
      SumAbsAtMost(s, lo, hi - 1, bound);
      assert (hi - lo) as real * bound == (hi - 1 - lo) as real * bound + bound;
    }
  }

  /** A signal within [-1, 1] has an envelope within [0, 1]. */
  lemma {:induction false} EnvelopeOfBoundedSignal(s: seq<real>, hop: int)
    requires hop >= 1
    requires forall j :: 0 <= j < |s| ==> -1.0 <= s[j] <= 1.0
    ensures forall k :: 0 <= k < |Envelope(s, hop)| ==> 0.0 <= Envelope(s, hop)[k] <= 1.0
  {
    forall k | 0 <= k < FrameCount(|s|, hop)
      ensures FrameLevel(s, hop, k) <= 1.0
    {
      FrameLevelAtMostOne(s, hop, k);
    }
  }

  lemma FrameLevelAtMostOne(s: seq<real>, hop: int, k: nat)
    requires hop >= 1 && k < FrameCount(|s|, hop)
    requires forall j :: 0 <= j < |s| ==> -1.0 <= s[j] <= 1.0
    ensures FrameLevel(s, hop, k) <= 1.0
  {
    FrameCountBounds(|s|, hop, k);
    var lo := k * hop;
    var hi := MinInt(|s|, lo + hop);
    SumAbsAtMost(s, lo, hi, 1.0);
    MeanAtMostOne(SumAbs(s, lo, hi), hi - lo);
  }

  lemma MeanAtMostOne(sum: real, n: int)
    requires n >= 1 && sum <= n as real * 1.0
    ensures sum / n as real <= 1.0
  {
  }

  /** The frame index after k starts one hop later. */
  lemma NextFrameStart(k: int, hop: int)
    ensures (k + 1) * hop == k * hop + hop
  {
  }

  /** When frame k is the first to start at or past n, there are exactly k frames. */
  lemma FrameCountExact(n: nat, hop: int, k: nat)
    requires hop >= 1 && n <= k * hop < n + hop
    ensures FrameCount(n, hop) == k
  {
    FrameCountBounds(n, hop, k);
    if k > 0 {
      NextFrameStart(k - 1, hop);
      FrameCountBounds(n, hop, k - 1);
    }
  }

  /** The inner loop of the envelope: the absolute sum of one frame. */
  method SumFrame(mono: seq<real>, lo: int, hi: int) returns (sum: real)
    requires 0 <= lo <= hi <= |mono|
    ensures sum == SumAbs(mono, lo, hi)
  {
    sum := 0.0;
    var j := lo;
    while j < hi
      invariant lo <= j <= hi
      invariant sum == SumAbs(mono, lo, j)
    {
      sum := sum + Abs(mono[j]);
      j := j + 1;
    }
  }

  /** The envelope loop of `analyze`. */
  method ComputeEnvelope(mono: seq<real>, hop: int) returns (env: seq<real>)
    requires hop >= 1
    ensures env == Envelope(mono, hop)
  {
    env := [];
    var i := 0;
    while i < |mono|
      invariant 0 <= i == |env| * hop
      invariant i < |mono| + hop
      invariant forall m :: 0 <= m < |env| ==> m < FrameCount(|mono|, hop) && env[m] == FrameLevel(mono, hop, m)
      decreases |mono| - i
    {
      var k := |env|;
      FrameCountBounds(|mono|, hop, k);
      var end := MinInt(|mono|, i + hop);
      var sum := SumFrame(mono, i, end);
      assert sum / (end - i) as real == FrameLevel(mono, hop, k);
      env := env + [sum / (end - i) as real];
      NextFrameStart(k, hop);
      i := i + hop;
    }
    FrameCountExact(|mono|, hop, |env|);
  }

  // ---------------------------------------------------------------------------
  // Moving average

  /** The sum of x[j] for lo <= j < hi. */
  function SumRange(x: seq<real>, lo: int, hi: int): real
    requires 0 <= lo <= hi <= |x|
    decreases hi - lo
  {
    if lo == hi then 0.0 else SumRange(x, lo, hi - 1) + x[hi - 1]
  }

  lemma {:induction false} SumRangeDropFirst(x: seq<real>, lo: int, hi: int)
    requires 0 <= lo < hi <= |x|
    ensures SumRange(x, lo + 1, hi) == SumRange(x, lo, hi) - x[lo]
    decreases hi - lo
  {
    if lo + 1 < hi {
      SumRangeDropFirst(x, lo, hi - 1);
    }
  }

  /** `Math.max(1, win | 0)` for a window that is already a whole number. */
  function Window(win: int): int {
    MaxInt(1, win)
  }

  /** Output i averages the last min(w, i+1) inputs up to and including x[i]. */
  function MovingAverageOf(x: seq<real>, w: int): (out: seq<real>)
    requires w >= 1
    ensures |out| == |x|
  {
    seq(|x|, i requires 0 <= i < |x| =>
      SumRange(x, i + 1 - MinInt(w, i + 1), i + 1) / MinInt(w, i + 1) as real)
  }

  lemma {:induction false} SumRangeBounds(x: seq<real>, a: int, b: int, lo: real, hi: real)
    requires 0 <= a <= b <= |x|
    requires forall j :: a <= j < b ==> lo <= x[j] <= hi
    ensures (b - a) as real * lo <= SumRange(x, a, b) <= (b - a) as real * hi
    decreases b - a
  {
    if a < b {
      SumRangeBounds(x, a, b - 1, lo, hi);
      var n := (b - 1 - a) as real;
      assert (b - a) as real * lo == n * lo + lo;
      assert (b - a) as real * hi == n * hi + hi;
    }
  }

  lemma QuotientBetween(s: real, c: real, lo: real, hi: real)
    requires c > 0.0 && c * lo <= s <= c * hi
    ensures lo <= s / c <= hi
  {
  }

  /** Averaging stays within the bounds of its input; in particular a constant signal is left unchanged. */
  lemma {:induction false} MovingAverageWithinBounds(x: seq<real>, w: int, lo: real, hi: real)
    requires w >= 1
    requires forall j :: 0 <= j < |x| ==> lo <= x[j] <= hi
    ensures forall i :: 0 <= i < |x| ==> lo <= MovingAverageOf(x, w)[i] <= hi
  {
    forall i | 0 <= i < |x|
      ensures lo <= MovingAverageOf(x, w)[i] <= hi
    {
      var c := MinInt(w, i + 1);
      SumRangeBounds(x, i + 1 - c, i + 1, lo, hi);
      QuotientBetween(SumRange(x, i + 1 - c, i + 1), c as real, lo, hi);
    }
  }

  /** `movingAverage`: a running sum that adds x[i] and drops x[i-w]. */
  method MovingAverage(x: seq<real>, win: int) returns (out: seq<real>)
    ensures out == MovingAverageOf(x, Window(win))
  {
    var w := Window(win);
    var arr := new real[|x|];
    var acc := 0.0;
    var i := 0;
    while i < |x|
      invariant 0 <= i <= |x|
      invariant acc == SumRange(x, MaxInt(0, i - w), i)
      invariant forall k :: 0 <= k < i ==> arr[k] == MovingAverageOf(x, w)[k]
    {
      acc := acc + x[i];
      if i >= w {
        SumRangeDropFirst(x, i - w, i + 1);
        acc := acc - x[i - w];
      }
      arr[i] := acc / MinInt(w, i + 1) as real;
      i := i + 1;
    }
    out := arr[..];
  }

  // ---------------------------------------------------------------------------
  // Sorting and percentile

  predicate SortedAsc(s: seq<real>) {
    forall i, j :: 0 <= i < j < |s| ==> s[i] <= s[j]
  }

  function Insert(x: real, s: seq<real>): (r: seq<real>)
    requires SortedAsc(s)
    ensures SortedAsc(r)
    ensures multiset(r) == multiset(s) + multiset{x}
    ensures |r| == |s| + 1
    ensures |s| > 0 ==> r[0] == Min(x, s[0])
  {
    if |s| == 0 then [x]
    else if x <= s[0] then [x] + s
    else
      var t := Insert(x, s[1..]);
      assert s == [s[0]] + s[1..];
      assert s[0] <= t[0];
      [s[0]] + t
  }

  /** The ascending sort `[...x].sort((a, b) => a - b)`: the sorted permutation of x. */
  function SortAsc(s: seq<real>): (r: seq<real>)
    ensures SortedAsc(r)
    ensures multiset(r) == multiset(s)
  {
    if |s| == 0 then []
    else
      assert s == [s[0]] + s[1..];
      Insert(s[0], SortAsc(s[1..]))
  }

  lemma MulAtMost(p: real, m: real)
    requires 0.0 <= p <= 1.0 && m >= 0.0
    ensures 0.0 <= p * m <= m
  {
  }

  /** The index `percentile` reads: floor(p * (n - 1)) clamped into the sequence. */
  function PercentileIndex(n: nat, p: real): (k: nat)
    requires n >= 1
    ensures k < n
    ensures 0.0 <= p <= 1.0 ==> k == (p * (n - 1) as real).Floor
  {
    if 0.0 <= p <= 1.0 then MulAtMost(p, (n - 1) as real); MaxInt(0, MinInt(n - 1, (p * (n - 1) as real).Floor))
    else MaxInt(0, MinInt(n - 1, (p * (n - 1) as real).Floor))
  }

  /** `percentile` of a sorted sequence: an element with the lower part at or below it and the rest at or above it. */
  function Percentile(sorted: seq<real>, p: real): (r: real)
    requires |sorted| >= 1
    ensures r in sorted
    ensures SortedAsc(sorted) ==>
      forall j :: 0 <= j < |sorted| ==>
        (j <= PercentileIndex(|sorted|, p) ==> sorted[j] <= r) && (j >= PercentileIndex(|sorted|, p) ==> r <= sorted[j])
  {
    sorted[PercentileIndex(|sorted|, p)]
  }

  /** The peak threshold of `findLocalPeaks`. */
  function Threshold(x: seq<real>, p: real): real
    requires |x| >= 1
  {
    assert |SortAsc(x)| == |x| by {
      assert |multiset(SortAsc(x))| == |multiset(x)|;
    }
    Percentile(SortAsc(x), p)
  }

  // ---------------------------------------------------------------------------
  // Peak picking

  /** i is an interior point at or above the threshold, rising from the left and not falling to the right. */
  ghost predicate IsCandidate(x: seq<real>, thr: real, i: int) {
    1 <= i < |x| - 1 && x[i] >= thr && x[i] > x[i - 1] && x[i] >= x[i + 1]
  }

  /**
   * The greedy choice: every picked index is a candidate, picks increase and are at
   * least md apart, and a candidate left out lies fewer than md after an earlier pick.
   */
  ghost predicate PicksPeaks(x: seq<real>, thr: real, md: int, peaks: seq<int>) {
    && (forall k :: 0 <= k < |peaks| ==> IsCandidate(x, thr, peaks[k]))
    && (forall k :: 0 < k < |peaks| ==> peaks[k - 1] < peaks[k] && peaks[k] - peaks[k - 1] >= md)
    && (forall i :: IsCandidate(x, thr, i) && i !in peaks ==>
          Shadowed(peaks, md, i))
  }

  /** What `findLocalPeaks` returns: nothing for fewer than three points, otherwise the greedy picks. */
  ghost predicate PeaksOf(x: seq<real>, md: int, p: real, peaks: seq<int>) {
    if |x| < 3 then peaks == [] else PicksPeaks(x, Threshold(x, p), md, peaks)
  }

  /** Candidate i falls fewer than md after one of the picks. */
  ghost predicate Shadowed(peaks: seq<int>, md: int, i: int) {
    exists k :: 0 <= k < |peaks| && peaks[k] < i < peaks[k] + md
  }

  lemma ShadowedExtend(peaks: seq<int>, md: int, i: int, v: int)
    requires Shadowed(peaks, md, i)
    ensures Shadowed(peaks + [v], md, i)
  {
    var k :| 0 <= k < |peaks| && peaks[k] < i < peaks[k] + md;
    assert (peaks + [v])[k] == peaks[k];
  }

  /** The greedy choice restricted to the indices below i: what the scan has established so far. */
  ghost predicate PickedBelow(x: seq<real>, thr: real, md: int, peaks: seq<int>, i: int) {
    && (forall k :: 0 <= k < |peaks| ==> IsCandidate(x, thr, peaks[k]) && peaks[k] < i)
    && (forall k :: 0 < k < |peaks| ==> peaks[k - 1] < peaks[k] && peaks[k] - peaks[k - 1] >= md)
    && (forall j :: 0 <= j < i && IsCandidate(x, thr, j) && j !in peaks ==> Shadowed(peaks, md, j))
  }

  /** Index i is not a candidate, or is shadowed by the last pick: the picks stay as they are. */
  lemma {:induction false} SkipStep(x: seq<real>, thr: real, md: int, peaks: seq<int>, i: int)
    requires PickedBelow(x, thr, md, peaks, i)
    requires !IsCandidate(x, thr, i) || (|peaks| > 0 && i - peaks[|peaks| - 1] < md)
    ensures PickedBelow(x, thr, md, peaks, i + 1)
  {
    if IsCandidate(x, thr, i) && i !in peaks {
      assert peaks[|peaks| - 1] < i < peaks[|peaks| - 1] + md;
      assert Shadowed(peaks, md, i);
    }
  }

  /** Candidate i is far enough from the last pick: it becomes the next pick. */
  lemma AcceptStep(x: seq<real>, thr: real, md: int, peaks: seq<int>, i: int)
    requires PickedBelow(x, thr, md, peaks, i)
    requires IsCandidate(x, thr, i) && (|peaks| == 0 || i - peaks[|peaks| - 1] >= md)
    ensures PickedBelow(x, thr, md, peaks + [i], i + 1)
  {
    AcceptKeepsCandidates(x, thr, peaks, i);
    AcceptKeepsSpacing(md, peaks, i);
    AcceptKeepsShadows(x, thr, md, peaks, i);
  }

  lemma {:induction false} AcceptKeepsCandidates(x: seq<real>, thr: real, peaks: seq<int>, i: int)
    requires forall k :: 0 <= k < |peaks| ==> IsCandidate(x, thr, peaks[k]) && peaks[k] < i
    requires IsCandidate(x, thr, i)
    ensures forall k :: 0 <= k < |peaks + [i]| ==> IsCandidate(x, thr, (peaks + [i])[k]) && (peaks + [i])[k] < i + 1
  {
    var q := peaks + [i];
    forall k | 0 <= k < |q|
      ensures IsCandidate(x, thr, q[k]) && q[k] < i + 1
    {
      if k < |peaks| {
        assert q[k] == peaks[k];
      }
    }
  }

  lemma {:induction false} AcceptKeepsSpacing(md: int, peaks: seq<int>, i: int)
    requires forall k :: 0 < k < |peaks| ==> peaks[k - 1] < peaks[k] && peaks[k] - peaks[k - 1] >= md
    requires |peaks| > 0 ==> peaks[|peaks| - 1] < i
    requires |peaks| == 0 || i - peaks[|peaks| - 1] >= md
    ensures forall k :: 0 < k < |peaks + [i]| ==>
              (peaks + [i])[k - 1] < (peaks + [i])[k] && (peaks + [i])[k] - (peaks + [i])[k - 1] >= md
  {
    var q := peaks + [i];
    forall k | 0 < k < |q|
      ensures q[k - 1] < q[k] && q[k] - q[k - 1] >= md
    {
      if k < |peaks| {
        assert q[k] == peaks[k] && q[k - 1] == peaks[k - 1];
      } else {
        assert q[k - 1] == peaks[|peaks| - 1] && q[k] == i;
      }
    }
  }

  lemma {:induction false} AcceptKeepsShadows(x: seq<real>, thr: real, md: int, peaks: seq<int>, i: int)
    requires forall j :: 0 <= j < i && IsCandidate(x, thr, j) && j !in peaks ==> Shadowed(peaks, md, j)
    ensures forall j :: 0 <= j < i + 1 && IsCandidate(x, thr, j) && j !in peaks + [i] ==> Shadowed(peaks + [i], md, j)
  {
    forall j | 0 <= j < i + 1 && IsCandidate(x, thr, j) && j !in peaks + [i]
      ensures Shadowed(peaks + [i], md, j)
    {
      assert j != i && j !in peaks;
      ShadowedExtend(peaks, md, j, i);
    }
  }

  /**
   * The picks of the greedy scan once it has looked at the interior points
   * below i: point i - 1 is picked when it is a candidate at least md after
   * the previous pick.
   */
  ghost function Greedy(x: seq<real>, thr: real, md: int, i: int): seq<int>
    requires 1 <= i < |x|
    decreases i
  {
    if i == 1 then [] else Pick(x, thr, md, Greedy(x, thr, md, i - 1), i - 1)
  }

  /** One step of the scan: j joins the picks when it is a candidate at least md after the last pick. */
  ghost function Pick(x: seq<real>, thr: real, md: int, peaks: seq<int>, j: int): seq<int> {
    if IsCandidate(x, thr, j) && (|peaks| == 0 || j - peaks[|peaks| - 1] >= md) then peaks + [j] else peaks
  }

  lemma PickStep(x: seq<real>, thr: real, md: int, peaks: seq<int>, j: int)
    requires PickedBelow(x, thr, md, peaks, j)
    ensures PickedBelow(x, thr, md, Pick(x, thr, md, peaks, j), j + 1)
  {
    if IsCandidate(x, thr, j) && (|peaks| == 0 || j - peaks[|peaks| - 1] >= md) {
      AcceptStep(x, thr, md, peaks, j);
    } else {
      SkipStep(x, thr, md, peaks, j);
    }
  }

  /** The scan's picks below i are the greedy choice restricted to those indices. */
  lemma {:induction false} GreedyPicksBelow(x: seq<real>, thr: real, md: int, i: int)
    requires 1 <= i < |x|
    ensures PickedBelow(x, thr, md, Greedy(x, thr, md, i), i)
    decreases i
  {
    if i > 1 {
      GreedyPicksBelow(x, thr, md, i - 1);
      PickStep(x, thr, md, Greedy(x, thr, md, i - 1), i - 1);
    }
  }

  /** Once every interior point is scanned, the picks are the greedy choice. */
  lemma GreedyPicksPeaks(x: seq<real>, thr: real, md: int)
    requires |x| >= 3
    ensures PicksPeaks(x, thr, md, Greedy(x, thr, md, |x| - 1))
  {
    GreedyPicksBelow(x, thr, md, |x| - 1);
  }

  /** The indices `findLocalPeaks` returns: none below three points, otherwise the scan's picks. */
  ghost function PeakIndices(x: seq<real>, md: int, p: real): seq<int> {
    if |x| < 3 then [] else Greedy(x, Threshold(x, p), md, |x| - 1)
  }

  /** The indices `findLocalPeaks` returns are the greedy choice of peaks. */
  lemma PeakIndicesArePeaks(x: seq<real>, md: int, p: real)
    ensures PeaksOf(x, md, p, PeakIndices(x, md, p))
  {
    if |x| >= 3 {
      GreedyPicksPeaks(x, Threshold(x, p), md);
    }
  }

  /** `findLocalPeaks`. */
  method FindLocalPeaks(x: seq<real>, minDistance: int, thresholdPercentile: real) returns (peaks: seq<int>)
    ensures peaks == PeakIndices(x, minDistance, thresholdPercentile)
    ensures PeaksOf(x, minDistance, thresholdPercentile, peaks)
  {
    PeakIndicesArePeaks(x, minDistance, thresholdPercentile);
    if |x| < 3 {
      return [];
    }
    var thr := Threshold(x, thresholdPercentile);
    peaks := ScanPeaks(x, thr, minDistance);
  }

  /** The scan of `findLocalPeaks` over the interior points, for a given threshold. */
  method ScanPeaks(x: seq<real>, thr: real, minDistance: int) returns (peaks: seq<int>)
    requires |x| >= 3
    ensures peaks == Greedy(x, thr, minDistance, |x| - 1)
  {
    peaks := [];
    var last: Option<int> := None;
    var i := 1;
    while i < |x| - 1
      invariant 1 <= i <= |x| - 1
      invariant peaks == Greedy(x, thr, minDistance, i)
      invariant last.None? <==> |peaks| == 0
      invariant last.Some? ==> |peaks| > 0 && last.value == peaks[|peaks| - 1]
    {
      if x[i] >= thr && x[i] > x[i - 1] && x[i] >= x[i + 1] {
        if last.None? || i - last.value >= minDistance {
          peaks := peaks + [i];
          last := Some(i);
        }
      }
      i := i + 1;
    }
  }

  // ---------------------------------------------------------------------------
  // analyze

  lemma PeakGapScales(p: int, q: int, md: int, hop: int, sr: real)
    requires q - p >= md && hop >= 1 && sr > 0.0
    ensures (q * hop) as real / sr - (p * hop) as real / sr >= (md * hop) as real / sr
  {
    MulMonotone(md, q - p, hop);
    assert (q * hop) as real / sr - (p * hop) as real / sr == ((q - p) * hop) as real / sr;
  }

  /** Picked peaks converted to seconds are at least md frames apart in time. */
  lemma PeakTimesSpaced(x: seq<real>, p: real, peaks: seq<int>, hop: int, sr: real, secs: seq<real>)
    requires PeaksOf(x, PeakMinDistance, p, peaks) && hop >= 1 && sr > 0.0
    requires |secs| == |peaks| && forall k :: 0 <= k < |peaks| ==> secs[k] == (peaks[k] * hop) as real / sr
    ensures forall k :: 0 < k < |secs| ==> secs[k] - secs[k - 1] >= (PeakMinDistance * hop) as real / sr
  {
    forall k | 0 < k < |secs|
      ensures secs[k] - secs[k - 1] >= (PeakMinDistance * hop) as real / sr
    {
      PeakGapScales(peaks[k - 1], peaks[k], PeakMinDistance, hop, sr);
    }
  }

  /** Peak frame indices converted to seconds. */
  function PeakTimes(peaks: seq<int>, hop: int, sr: real): (secs: seq<real>)
    requires sr > 0.0
    ensures |secs| == |peaks|
    ensures forall k :: 0 <= k < |peaks| ==> secs[k] == (peaks[k] * hop) as real / sr
  {
    seq(|peaks|, k requires 0 <= k < |peaks| => (peaks[k] * hop) as real / sr)
  }

  /** The first half of `analyze`: downmix, envelope, then smoothing. */
  method SmoothedEnvelope(b: AudioBuffer) returns (smooth: seq<real>)
    requires WellFormed(b)
    ensures smooth == MovingAverageOf(Envelope(Mono(b), Hop(b.sampleRate)), SmoothingWindow)
  {
    var mono := ToMono(b);
    var env := ComputeEnvelope(mono, Hop(b.sampleRate));
    smooth := MovingAverage(env, SmoothingWindow);
  }

  /** The smoothed envelope `analyze` picks peaks from. */
  ghost function Smoothed(b: AudioBuffer): seq<real>
    requires WellFormed(b)
  {
    MovingAverageOf(Envelope(Mono(b), Hop(b.sampleRate)), SmoothingWindow)
  }

  /** The peak times `analyze` reports: the greedy peaks of the smoothed envelope, in seconds. */
  ghost function AnalyzedPeakTimes(b: AudioBuffer): seq<real>
    requires WellFormed(b)
  {
    PeakTimes(PeakIndices(Smoothed(b), PeakMinDistance, PeakThresholdPercentile), Hop(b.sampleRate), b.sampleRate)
  }

  /**
   * The reported peak times come from the greedy peaks of the smoothed
   * envelope, and neighbouring ones are at least the minimum peak distance
   * apart in time.
   */
  lemma AnalyzedPeaksSpaced(b: AudioBuffer)
    requires WellFormed(b)
    ensures PeaksOf(Smoothed(b), PeakMinDistance, PeakThresholdPercentile,
                    PeakIndices(Smoothed(b), PeakMinDistance, PeakThresholdPercentile))
    ensures var secs := AnalyzedPeakTimes(b);
            forall k :: 0 < k < |secs| ==>
              secs[k] - secs[k - 1] >= (PeakMinDistance * Hop(b.sampleRate)) as real / b.sampleRate
  {
    var idx := PeakIndices(Smoothed(b), PeakMinDistance, PeakThresholdPercentile);
    PeakIndicesArePeaks(Smoothed(b), PeakMinDistance, PeakThresholdPercentile);
    PeakTimesSpaced(Smoothed(b), PeakThresholdPercentile, idx, Hop(b.sampleRate), b.sampleRate, AnalyzedPeakTimes(b));
  }

  /** `analyze`. */
  method Analyze(b: AudioBuffer) returns (a: BeatAnalysis)
    requires WellFormed(b)
    ensures a.peaksSec == AnalyzedPeakTimes(b)
    ensures EstimateOf(a.peaksSec, Estimate(a.bpm, a.confidence))
    ensures a.anchorSec == if |a.peaksSec| > 0 then a.peaksSec[0] else 0.0
  {
    var sampleRate := b.sampleRate;
    var hop := Hop(sampleRate);
    var smooth := SmoothedEnvelope(b);
    var peaks := FindLocalPeaks(smooth, PeakMinDistance, PeakThresholdPercentile);
    var peaksSec := PeakTimes(peaks, hop, sampleRate);
    var e := EstimateBpmFromPeaks(peaksSec);
    var anchorSec := if |peaksSec| > 0 then peaksSec[0] else 0.0;
    a := BeatAnalysis(e.bpm, e.confidence, peaksSec, anchorSec);
  }
}
