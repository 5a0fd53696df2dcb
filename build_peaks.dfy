/**
 * The waveform overview: channel 0 of a buffer split into `bars` buckets,
 * each summarised by its largest absolute sample, then normalised so the
 * tallest bar is 1.
 */
module WaveformPeaks {
  import opened Numeric
  import opened AudioData

  /** The bucket width in samples (a real: buckets need not align with samples). */
  function Step(len: nat, bars: nat): (s: real)
    requires bars > 0
    ensures s >= 0.0
  {
    len as real / bars as real
  }

  /** The first sample of bucket i. */
  function BucketStart(len: nat, bars: nat, i: nat): (k: int)
    requires bars > 0
    ensures k >= 0
  {
    (i as real * Step(len, bars)).Floor
  }

  /** One past the last sample of bucket i: at least one sample past its start. */
  function BucketEnd(len: nat, bars: nat, i: nat): (k: int)
    requires bars > 0
    ensures k > BucketStart(len, bars, i)
  {
    MaxInt(BucketStart(len, bars, i) + 1, ((i + 1) as real * Step(len, bars)).Floor)
  }

  /**
   * The buckets leave no sample out: the first starts at sample 0, each one
   * ends no earlier than the next begins, and the start past the last bucket
   * is the channel length. (When there are more bars than samples, buckets
   * overlap.)
   */
  lemma BucketsCover(len: nat, bars: nat, i: nat)
    requires bars > 0
    ensures BucketStart(len, bars, 0) == 0
    ensures BucketEnd(len, bars, i) >= BucketStart(len, bars, i + 1)
    ensures BucketStart(len, bars, bars) == len
  {
    assert bars as real * Step(len, bars) == len as real;
  }

  /** The largest |x[j]| for lo <= j < hi, or 0 for an empty range. */
  function MaxAbs(x: seq<real>, lo: int, hi: int): (m: real)
    requires 0 <= lo && hi <= |x|
    ensures m >= 0.0
    ensures forall j :: lo <= j < hi ==> Abs(x[j]) <= m
    decreases hi - lo
  {
    if hi <= lo then 0.0 else Max(MaxAbs(x, lo, hi - 1), Abs(x[hi - 1]))
  }

  /** Bucket i's value before normalisation: its largest |sample|, clipped to the channel. */
  function BucketPeak(x: seq<real>, bars: nat, i: nat): (m: real)
    requires bars > 0
    ensures m >= 0.0
  {
    var lo := BucketStart(|x|, bars, i);
    var hi := MinInt(BucketEnd(|x|, bars, i), |x|);
    if lo <= hi then MaxAbs(x, lo, hi) else 0.0
  }

  /** All bucket values before normalisation. */
  function RawPeaks(x: seq<real>, bars: nat): (r: seq<real>)
    ensures |r| == bars
    ensures forall i :: 0 <= i < bars ==> r[i] == BucketPeak(x, bars, i)
  {
    seq(bars, i requires 0 <= i < bars => BucketPeak(x, bars, i))
  }

  /** The largest entry of a sequence, starting from 0. */
  function SeqMax(s: seq<real>): (m: real)
    ensures m >= 0.0
    ensures forall i :: 0 <= i < |s| ==> s[i] <= m
  {
    if |s| == 0 then 0.0 else Max(SeqMax(s[..|s| - 1]), s[|s| - 1])
  }

  /** Where a positive maximum is attained. */
  function SeqMaxIndex(s: seq<real>): (k: nat)
    requires SeqMax(s) > 0.0
    ensures k < |s| && s[k] == SeqMax(s)
  {
    var init := s[..|s| - 1];
    if s[|s| - 1] >= SeqMax(init) then |s| - 1 else SeqMaxIndex(init)
  }

  /** Every entry divided by g. */
  function Normalise(s: seq<real>, g: real): (r: seq<real>)
    requires g > 0.0
    ensures |r| == |s|
    ensures forall i :: 0 <= i < |s| ==> r[i] == s[i] / g
  {
    seq(|s|, i requires 0 <= i < |s| => s[i] / g)
  }

  /** What `buildPeaks` returns: the bucket values, divided by the largest when it is positive. */
  function Peaks(x: seq<real>, bars: nat): seq<real> {
    var raw := RawPeaks(x, bars);
    var g := SeqMax(raw);
    if g > 0.0 then Normalise(raw, g) else raw
  }

  lemma SeqMaxSnoc(s: seq<real>, v: real)
    ensures SeqMax(s + [v]) == Max(SeqMax(s), v)
  {
    assert (s + [v])[..|s|] == s;
  }

  lemma MaxAbsSnoc(x: seq<real>, lo: int, hi: int)
    requires 0 <= lo <= hi < |x|
    ensures MaxAbs(x, lo, hi + 1) == Max(MaxAbs(x, lo, hi), Abs(x[hi]))
  {
  }

  /**
   * Dividing non-negative entries by their positive maximum puts them all
   * in [0, 1], with the maximum's entry at exactly 1.
   */
  lemma {:induction false} NormaliseByMax(s: seq<real>)
    requires forall i :: 0 <= i < |s| ==> s[i] >= 0.0
    requires SeqMax(s) > 0.0
    ensures forall i :: 0 <= i < |s| ==> 0.0 <= Normalise(s, SeqMax(s))[i] <= 1.0
    ensures Normalise(s, SeqMax(s))[SeqMaxIndex(s)] == 1.0
  {
    var g := SeqMax(s);
    forall i | 0 <= i < |s|
      ensures 0.0 <= s[i] / g <= 1.0
    {
      DivAtMostOne(s[i], g);
    }
    var k := SeqMaxIndex(s);
    DivSelf(g);
  }

  /**
   * When some bucket is not silent, the bars lie in [0, 1] and the tallest
   * is exactly 1.
   */
  lemma PeaksNormalised(x: seq<real>, bars: nat)
    requires SeqMax(RawPeaks(x, bars)) > 0.0
    ensures |Peaks(x, bars)| == bars
    ensures forall i :: 0 <= i < bars ==> 0.0 <= Peaks(x, bars)[i] <= 1.0
    ensures exists i :: 0 <= i < bars && Peaks(x, bars)[i] == 1.0
  {
    var raw := RawPeaks(x, bars);
    NormaliseByMax(raw);
    var k := SeqMaxIndex(raw);
    assert Peaks(x, bars)[k] == 1.0;
  }

  lemma DivSelf(g: real)
    requires g > 0.0
    ensures g / g == 1.0
  {
  }

  lemma DivAtMostOne(a: real, g: real)
    requires 0.0 <= a <= g && g > 0.0
    ensures 0.0 <= a / g <= 1.0
  {
  }

  /** When every bucket is silent, every bar is 0. */
  lemma {:induction false} PeaksOfSilence(x: seq<real>, bars: nat)
    requires SeqMax(RawPeaks(x, bars)) == 0.0
    ensures Peaks(x, bars) == seq(bars, i => 0.0)
  {
    var raw := RawPeaks(x, bars);
    forall i | 0 <= i < bars
      ensures raw[i] == 0.0
    {
      assert 0.0 <= raw[i] <= SeqMax(raw);
    }
  }

  /** A bound on every |x[j]| in the range bounds their maximum. */
  lemma {:induction false} MaxAbsAtMost(x: seq<real>, lo: int, hi: int, c: real)
    requires 0 <= lo && hi <= |x| && c >= 0.0
    requires forall j :: lo <= j < hi ==> Abs(x[j]) <= c
    ensures MaxAbs(x, lo, hi) <= c
    decreases hi - lo
  {
    if hi > lo {
      MaxAbsAtMost(x, lo, hi - 1, c);
    }
  }

  /** A bound on every entry bounds their maximum. */
  lemma {:induction false} SeqMaxAtMost(s: seq<real>, c: real)
    requires c >= 0.0
    requires forall i :: 0 <= i < |s| ==> s[i] <= c
    ensures SeqMax(s) <= c
  {
    if |s| > 0 {
      SeqMaxAtMost(s[..|s| - 1], c);
    }
  }

  /** A channel of zeros gives silent buckets. */
  lemma {:induction false} SilentChannel(x: seq<real>, bars: nat)
    requires forall j :: 0 <= j < |x| ==> x[j] == 0.0
    ensures SeqMax(RawPeaks(x, bars)) == 0.0
  {
    var raw := RawPeaks(x, bars);
    forall i | 0 <= i < bars
      ensures raw[i] <= 0.0
    {
      var lo := BucketStart(|x|, bars, i);
      var hi := MinInt(BucketEnd(|x|, bars, i), |x|);
      if lo <= hi {
        MaxAbsAtMost(x, lo, hi, 0.0);
      }
    }
    SeqMaxAtMost(raw, 0.0);
  }

  /** The largest |x[j]| over [lo, hi), by a scan. */
  method ScanBucket(x: seq<real>, lo: int, hi: int) returns (m: real)
    requires 0 <= lo && hi <= |x|
    ensures m == MaxAbs(x, lo, hi)
  {
    m := 0.0;
    if hi <= lo {
      return;
    }
    var j := lo;
    while j < hi
      invariant lo <= j <= hi
      invariant m == MaxAbs(x, lo, j)
    {
      var v := Abs(x[j]);
      if v > m {
        m := v;
      }
      MaxAbsSnoc(x, lo, j);
      j := j + 1;
    }
  }

  /** The normalisation pass: every entry divided by g, in place. */
  method DivideAll(out: array<real>, g: real)
    requires g > 0.0
    modifies out
    ensures out[..] == Normalise(old(out[..]), g)
  {
    var k := 0;
    while k < out.Length
      invariant 0 <= k <= out.Length
      invariant forall j :: 0 <= j < k ==> out[j] == old(out[j]) / g
      invariant forall j :: k <= j < out.Length ==> out[j] == old(out[j])
    {
      out[k] := out[k] / g;
      k := k + 1;
    }
  }

  /** Bucket i's value, by scanning the samples its bounds clip to the channel. */
  method BucketValue(ch0: seq<real>, bars: nat, i: nat) returns (max: real)
    requires bars > 0
    ensures max == BucketPeak(ch0, bars, i)
  {
    var start := BucketStart(|ch0|, bars, i);
    var end := BucketEnd(|ch0|, bars, i);
    var hi := MinInt(end, |ch0|);
    max := 0.0;
    if start <= hi {
      max := ScanBucket(ch0, start, hi);
    }
  }

  /** The first pass of `buildPeaks`: every bucket's value into a fresh array, tracking the largest. */
  method RawBuckets(ch0: seq<real>, bars: nat) returns (out: array<real>, globalMax: real)
    ensures fresh(out) && out[..] == RawPeaks(ch0, bars)
    ensures globalMax == SeqMax(RawPeaks(ch0, bars))
  {
    ghost var raw := RawPeaks(ch0, bars);
    out := new real[bars];
    globalMax := 0.0;
    var i := 0;
    while i < bars
      invariant 0 <= i <= bars
      invariant forall k :: 0 <= k < i ==> out[k] == raw[k]
      invariant globalMax == SeqMax(raw[..i])
    {
      var max := BucketValue(ch0, bars, i);
      out[i] := max;
      assert raw[..i + 1] == raw[..i] + [max];
      SeqMaxSnoc(raw[..i], max);
      if max > globalMax {
        globalMax := max;
      }
      i := i + 1;
    }
    assert raw[..bars] == raw;
    assert out[..] == raw;
  }

  /** `buildPeaks`. */
  method BuildPeaks(buffer: AudioBuffer, bars: nat) returns (out: array<real>)
    requires WellFormed(buffer)
    ensures fresh(out) && out.Length == bars
    ensures out[..] == Peaks(buffer.channels[0], bars)
  {
    var globalMax;
    out, globalMax := RawBuckets(buffer.channels[0], bars);
    if globalMax > 0.0 {
      DivideAll(out, globalMax);
    }
  }
}
