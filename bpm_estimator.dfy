/**
 * Tempo estimation from onset times: the gaps between neighbouring peaks
 * that look like beat periods are turned into tempo candidates, folded into
 * the 80..180 BPM octave, rounded, and the most frequent rounded tempo wins.
 */
module BpmEstimator {
  import opened Numeric

  /** The estimate handed back to the analyser. */
  datatype Estimate = Estimate(bpm: real, confidence: real)

  /** What the estimator answers when there is too little evidence. */
  const Fallback := Estimate(120.0, 0.0)

  /** A gap between peaks counts as a beat period when it is strictly between 80 ms and 1.2 s. */
  predicate PlausibleGap(d: real) {
    0.08 < d < 1.2
  }

  // ---------------------------------------------------------------------------
  // foldToRange

  lemma HalfFloorLess(y: real)
    requires y >= 1.0
    ensures 0 <= (y / 2.0).Floor < y.Floor
  {
    var f := y.Floor;
    assert y / 2.0 < (f + 1) as real / 2.0;
  }

  lemma QuotientAtLeastOne(a: real, b: real)
    requires 0.0 < b <= a
    ensures a / b >= 1.0
  {
  }

  /** The doubling loop's measure drops. */
  lemma DoubleStep(b: real, min: real)
    requires 0.0 < b < min
    ensures 0 <= (min / (2.0 * b)).Floor < (min / b).Floor
  {
    QuotientAtLeastOne(min, b);
    HalfFloorLess(min / b);
    assert min / (2.0 * b) == (min / b) / 2.0;
  }

  /** The halving loop's measure drops. */
  lemma HalveStep(b: real, max: real)
    requires 0.0 < max < b
    ensures 0 <= ((b / 2.0) / max).Floor < (b / max).Floor
  {
    QuotientAtLeastOne(b, max);
    HalfFloorLess(b / max);
    assert (b / 2.0) / max == (b / max) / 2.0;
  }

  /** The doubling phase of `foldToRange`: doubles a positive tempo until it reaches `min`. */
  function FoldUp(b: real, min: real): (r: real)
    requires b > 0.0 && min > 0.0
    ensures min <= r
    ensures b >= min ==> r == b
    ensures b < min ==> r < 2.0 * min
    decreases if b < min then (min / b).Floor else 0
  {
    if b < min then
      DoubleStep(b, min);
      FoldUp(2.0 * b, min)
    else b
  }

  /** The halving phase of `foldToRange`: halves a positive tempo until it is at most `max`. */
  function FoldDown(b: real, max: real): (r: real)
    requires b > 0.0 && max > 0.0
    ensures 0.0 < r <= max
    ensures b <= max ==> r == b
    ensures b > max ==> max < 2.0 * r
    decreases if b > max then (b / max).Floor else 0
  {
    if b > max then
      HalveStep(b, max);
      FoldDown(b / 2.0, max)
    else b
  }

  lemma FoldUpFixed(b: real, min: real)
    requires 0.0 < min <= b
    ensures FoldUp(b, min) == b
  {
  }

  lemma FoldDownFixed(b: real, max: real)
    requires 0.0 < b <= max
    ensures FoldDown(b, max) == b
  {
  }

  /** The value `foldToRange(bpm, min, max)` returns. */
  function Folded(bpm: real, min: real, max: real): real
    requires bpm > 0.0 && min > 0.0 && max > 0.0
  {
    FoldDown(FoldUp(bpm, min), max)
  }

  /** When the band spans an octave, every positive tempo folds into it, and tempos already in it stay put. */
  lemma {:induction false} FoldedInBand(bpm: real, min: real, max: real)
    requires bpm > 0.0 && min > 0.0 && max > 0.0 && 2.0 * min <= max
    ensures min <= Folded(bpm, min, max) <= max
    ensures min <= bpm <= max ==> Folded(bpm, min, max) == bpm
  {
    var u := FoldUp(bpm, min);
    if u > max {
      assert max < 2.0 * FoldDown(u, max);
    }
  }

  /** `foldToRange`: double while below `min`, then halve while above `max`. */
  method FoldToRange(bpm: real, min: real, max: real) returns (b: real)
    requires bpm > 0.0 && min > 0.0 && max > 0.0
    ensures b == Folded(bpm, min, max)
    ensures b <= max
    ensures 2.0 * min <= max ==> min <= b
  {
    b := bpm;
    while b < min
      invariant b > 0.0
      invariant FoldUp(b, min) == FoldUp(bpm, min)
      decreases (min / b).Floor
    {
      DoubleStep(b, min);
      b := b * 2.0;
    }
    FoldUpFixed(b, min);
    ghost var up := b;
    while b > max
      invariant b > 0.0
      invariant FoldDown(b, max) == FoldDown(up, max)
      invariant 2.0 * min <= max ==> min <= b
      decreases (b / max).Floor
    {
      HalveStep(b, max);
      b := b / 2.0;
    }
    FoldDownFixed(b, max);
  }

  // ---------------------------------------------------------------------------
  // Specification of the estimator's intermediate sequences

  /** The gaps between consecutive peaks that pass `PlausibleGap`, in order. */
  function KeptGaps(peaks: seq<real>): (ds: seq<real>)
    ensures |ds| < |peaks| || |peaks| == 0
    ensures forall k :: 0 <= k < |ds| ==> PlausibleGap(ds[k])
  {
    if |peaks| < 2 then []
    else
      var n := |peaks|;
      var d := peaks[n - 1] - peaks[n - 2];
      KeptGaps(peaks[..n - 1]) + (if PlausibleGap(d) then [d] else [])
  }

  /** A plausible gap converted to BPM and folded into 80..180. */
  function Candidate(d: real): (b: real)
    requires PlausibleGap(d)
    ensures 80.0 <= b <= 180.0
  {
    FoldedInBand(60.0 / d, 80.0, 180.0);
    Folded(60.0 / d, 80.0, 180.0)
  }

  /** The histogram key of every candidate: its tempo rounded to a whole BPM. */
  function BinKeys(ds: seq<real>): (keys: seq<int>)
    requires forall k :: 0 <= k < |ds| ==> PlausibleGap(ds[k])
    ensures |keys| == |ds|
    ensures forall k :: 0 <= k < |keys| ==> 80 <= keys[k] <= 180
  {
    seq(|ds|, k requires 0 <= k < |ds| => Round(Candidate(ds[k])))
  }

  /** How often v occurs in s. */
  function Count(s: seq<int>, v: int): (c: nat)
    ensures c <= |s|
    ensures v !in s ==> c == 0
  {
    if |s| == 0 then 0
    else Count(s[..|s| - 1], v) + (if s[|s| - 1] == v then 1 else 0)
  }

  /** The distinct values of s in order of first occurrence: the key order of a JavaScript Map. */
  function Dedup(s: seq<int>): seq<int>
  {
    if |s| == 0 then []
    else
      var d := Dedup(s[..|s| - 1]);
      if s[|s| - 1] in d then d else d + [s[|s| - 1]]
  }

  lemma {:induction false} CountPositive(s: seq<int>, v: int)
    requires v in s
    ensures Count(s, v) >= 1
  {
    if s[|s| - 1] != v {
      assert v in s[..|s| - 1];
      CountPositive(s[..|s| - 1], v);
    }
  }

  /** Dedup keeps exactly the values of s, each once. */
  lemma {:induction false} DedupSound(s: seq<int>)
    ensures forall v :: v in Dedup(s) <==> v in s
    ensures forall i, j :: 0 <= i < j < |Dedup(s)| ==> Dedup(s)[i] != Dedup(s)[j]
  {
    if |s| > 0 {
      var p := s[..|s| - 1];
      DedupSound(p);
      assert s == p + [s[|s| - 1]];
    }
  }

  /** Appending a value: a new value goes last, a known one leaves the order alone. */
  lemma DedupSnoc(s: seq<int>, v: int)
    ensures Dedup(s + [v]) == if v in Dedup(s) then Dedup(s) else Dedup(s) + [v]
  {
    assert (s + [v])[..|s + [v]| - 1] == s;
  }

  lemma CountSnoc(s: seq<int>, v: int, w: int)
    ensures Count(s + [v], w) == Count(s, w) + (if v == w then 1 else 0)
  {
    assert (s + [v])[..|s + [v]| - 1] == s;
  }

  /** `idx` is the bin the estimator picks: a maximal count, and the first such in key order. */
  ghost predicate IsBestBin(keys: seq<int>, order: seq<int>, idx: int) {
    && 0 <= idx < |order|
    && (forall m :: 0 <= m < |order| ==> Count(keys, order[m]) <= Count(keys, order[idx]))
    && (forall m :: 0 <= m < idx ==> Count(keys, order[m]) < Count(keys, order[idx]))
  }

  /** The tie-break makes the chosen bin unique. */
  lemma BestBinUnique(keys: seq<int>, order: seq<int>, i: int, j: int)
    requires IsBestBin(keys, order, i) && IsBestBin(keys, order, j)
    ensures i == j
  {
    assert Count(keys, order[j]) <= Count(keys, order[i]);
    assert Count(keys, order[i]) <= Count(keys, order[j]);
  }

  /** The chosen bin is one of the keys, so its count is between 1 and the number of keys. */
  lemma BestBinCount(keys: seq<int>, idx: int)
    requires IsBestBin(keys, Dedup(keys), idx)
    ensures Dedup(keys)[idx] in keys
    ensures 1 <= Count(keys, Dedup(keys)[idx]) <= |keys|
  {
    DedupSound(keys);
    CountPositive(keys, Dedup(keys)[idx]);
  }

  lemma RatioAtMostOne(c: nat, n: nat)
    requires 1 <= c <= n
    ensures 0.0 < c as real / n as real <= 1.0
  {
  }

  /** What `estimateBpmFromPeaks` returns for a list of peak times. */
  ghost predicate EstimateOf(peaks: seq<real>, e: Estimate) {
    var ds := KeptGaps(peaks);
    if |peaks| < 6 || |ds| < 4 then e == Fallback
    else
      var keys := BinKeys(ds);
      var order := Dedup(keys);
      exists idx :: IsBestBin(keys, order, idx)
                    && e.bpm == order[idx] as real
                    && e.confidence == Count(keys, order[idx]) as real / |keys| as real
  }

  /**
   * Any estimate is a whole BPM inside the folding band with a confidence in
   * [0, 1]; with enough evidence the confidence is positive, otherwise the
   * fallback 120 BPM / 0 is returned.
   */
  lemma {:induction false} EstimateBounds(peaks: seq<real>, e: Estimate)
    requires EstimateOf(peaks, e)
    ensures 80.0 <= e.bpm <= 180.0 && e.bpm == e.bpm.Floor as real
    ensures 0.0 <= e.confidence <= 1.0
    ensures e.confidence == 0.0 <==> e == Fallback
  {
    var ds := KeptGaps(peaks);
    if !(|peaks| < 6 || |ds| < 4) {
      var keys := BinKeys(ds);
      var order := Dedup(keys);
      var idx :| IsBestBin(keys, order, idx)
                 && e.bpm == order[idx] as real
                 && e.confidence == Count(keys, order[idx]) as real / |keys| as real;
      BestBinCount(keys, idx);
      RatioAtMostOne(Count(keys, order[idx]), |keys|);
    }
  }

  // ---------------------------------------------------------------------------
  // The estimator

  /** The first loop: the plausible gaps between neighbouring peaks. */
  method CollectGaps(peaks: seq<real>) returns (diffs: seq<real>)
    ensures diffs == KeptGaps(peaks)
  {
    diffs := [];
    if |peaks| < 2 {
      return;
    }
    var i := 1;
    while i < |peaks|
      invariant 1 <= i <= |peaks|
      invariant diffs == KeptGaps(peaks[..i])
    {
      var d := peaks[i] - peaks[i - 1];
      assert peaks[..i + 1][..i] == peaks[..i];
      if PlausibleGap(d) {
        diffs := diffs + [d];
      }
      i := i + 1;
    }
    assert peaks[..|peaks|] == peaks;
  }

  /** The histogram loop: bins in first-seen order with their counts. */
  method BuildBins(keys: seq<int>) returns (order: seq<int>, counts: map<int, nat>)
    ensures order == Dedup(keys)
    ensures forall v :: v in counts <==> v in keys
    ensures forall v :: v in counts ==> counts[v] == Count(keys, v)
  {
    order := [];
    counts := map[];
    var i := 0;
    while i < |keys|
      invariant 0 <= i <= |keys|
      invariant order == Dedup(keys[..i])
      invariant forall v :: v in counts <==> v in keys[..i]
      invariant forall v :: v in counts ==> counts[v] == Count(keys[..i], v)
    {
      var key := keys[i];
      assert keys[..i + 1] == keys[..i] + [key];
      DedupSnoc(keys[..i], key);
      DedupSound(keys[..i]);
      forall v
        ensures Count(keys[..i + 1], v) == Count(keys[..i], v) + (if key == v then 1 else 0)
      {
        CountSnoc(keys[..i], key, v);
      }
      if key !in counts {
        order := order + [key];
      }
      var prev := if key in counts then counts[key] else 0;
      counts := counts[key := prev + 1];
      i := i + 1;
    }
    assert keys[..|keys|] == keys;
  }

  /** The scan over the bins: the first bin with the strictly largest count. */
  method BestBin(keys: seq<int>, order: seq<int>, counts: map<int, nat>)
    returns (bestBpm: int, bestCount: nat, ghost idx: int)
    requires |keys| > 0
    requires order == Dedup(keys)
    requires forall v :: v in counts <==> v in keys
    requires forall v :: v in counts ==> counts[v] == Count(keys, v)
    ensures IsBestBin(keys, order, idx)
    ensures bestBpm == order[idx] && bestCount == Count(keys, bestBpm)
  {
    DedupSound(keys);
    assert keys[0] in keys;
    bestBpm := 120;
    bestCount := 0;
    idx := -1;
    var j := 0;
    while j < |order|
      invariant 0 <= j <= |order|
      invariant j == 0 ==> bestCount == 0 && idx == -1
      invariant j > 0 ==> 0 <= idx < j && bestBpm == order[idx] && bestCount == Count(keys, bestBpm)
      invariant forall m :: 0 <= m < j ==> Count(keys, order[m]) <= bestCount
      invariant forall m :: 0 <= m < idx ==> Count(keys, order[m]) < bestCount
    {
      var k := order[j];
      assert k in keys;
      CountPositive(keys, k);
      var c := counts[k];
      if c > bestCount {
        bestCount := c;
        bestBpm := k;
        idx := j;
      }
      j := j + 1;
    }
  }

  /** `estimateBpmFromPeaks`. */
  method EstimateBpmFromPeaks(peaks: seq<real>) returns (e: Estimate)
    ensures EstimateOf(peaks, e)
    ensures 80.0 <= e.bpm <= 180.0 && 0.0 <= e.confidence <= 1.0
  {
    if |peaks| < 6 {
      return Fallback;
    }
    var diffs := CollectGaps(peaks);
    if |diffs| < 4 {
      return Fallback;
    }
    var candidates := seq(|diffs|, k requires 0 <= k < |diffs| => Candidate(diffs[k]));
    var keys := seq(|candidates|, k requires 0 <= k < |candidates| => Round(candidates[k]));
    assert keys == BinKeys(diffs);
    var order, counts := BuildBins(keys);
    var bestBpm, bestCount, idx := BestBin(keys, order, counts);
    BestBinCount(keys, idx);
    RatioAtMostOne(bestCount, |candidates|);
    var confidence := Clamp(bestCount as real / |candidates| as real, 0.0, 1.0);
    e := Estimate(bestBpm as real, confidence);
    assert IsBestBin(keys, order, idx) && e.bpm == order[idx] as real
      && e.confidence == Count(keys, order[idx]) as real / |keys| as real;
  }
}
