/**
 * The beat grid: a periodic grid of beat times derived from a tempo and an
 * anchor, answering "nearest beat" and "next beat" for any time.
 */
module BeatGridModel {
  import opened Numeric

  datatype BeatGrid = BeatGrid(bpm: real, anchorSec: real, beatIntervalSec: real)

  /** `createBeatGrid`: the grid echoes bpm and anchor; the beat interval is 60/bpm seconds. */
  function CreateBeatGrid(bpm: real, anchorSec: real): (g: BeatGrid)
    requires bpm != 0.0
    ensures g.bpm == bpm && g.anchorSec == anchorSec
    ensures g.beatIntervalSec * bpm == 60.0
    ensures bpm > 0.0 ==> g.beatIntervalSec > 0.0
  {
    BeatGrid(bpm, anchorSec, 60.0 / bpm)
  }

  /** The grid point with index k. */
  function Beat(g: BeatGrid, k: int): real {
    g.anchorSec + k as real * g.beatIntervalSec
  }

  /** `getNearestBeatSec`: the grid point with the rounded index; t itself when the interval is not positive. */
  function NearestBeatSec(g: BeatGrid, t: real): real {
    if g.beatIntervalSec <= 0.0 then t
    else Beat(g, Round((t - g.anchorSec) / g.beatIntervalSec))
  }

  /** The index of the grid point `getNextBeatSec` returns: one past the floored index of t. */
  function NextBeatIndex(g: BeatGrid, t: real): int
    requires g.beatIntervalSec != 0.0
  {
    ((t - g.anchorSec) / g.beatIntervalSec).Floor + 1
  }

  /** `getNextBeatSec`. */
  function NextBeatSec(g: BeatGrid, t: real): real
    requires g.beatIntervalSec != 0.0
  {
    Beat(g, NextBeatIndex(g, t))
  }

  lemma MulLeq(a: real, b: real, c: real)
    requires a <= b && c >= 0.0
    ensures a * c <= b * c
  {
  }

  lemma MulLess(a: real, b: real, c: real)
    requires a < b && c > 0.0
    ensures a * c < b * c
  {
  }

  /** Scaling the fractional index y/i back by i gives y. */
  lemma QuotTimes(y: real, i: real)
    requires i > 0.0
    ensures (y / i) * i == y
  {
  }

  /** An index above y/i - d lands above y - d intervals. */
  lemma AboveQuotMinus(y: real, n: real, i: real, d: real)
    requires i > 0.0 && y / i - d < n
    ensures y - d * i < n * i
  {
    MulLess(y / i - d, n, i);
    assert (y / i - d) * i == (y / i) * i - d * i;
    QuotTimes(y, i);
  }

  /** An index at most y/i + d lands at most d intervals past y. */
  lemma BelowQuotPlus(y: real, n: real, i: real, d: real)
    requires i > 0.0 && n <= y / i + d
    ensures n * i <= y + d * i
  {
    MulLeq(n, y / i + d, i);
    assert (y / i + d) * i == (y / i) * i + d * i;
    QuotTimes(y, i);
  }

  /** The nearest beat is a grid point at most half an interval from t. */
  lemma {:induction false} NearestWithinHalfBeat(g: BeatGrid, t: real)
    requires g.beatIntervalSec > 0.0
    ensures var n := NearestBeatSec(g, t);
            t - g.beatIntervalSec / 2.0 < n <= t + g.beatIntervalSec / 2.0
  {
    var i := g.beatIntervalSec;
    var k := Round((t - g.anchorSec) / i);
    AboveQuotMinus(t - g.anchorSec, k as real, i, 0.5);
    BelowQuotPlus(t - g.anchorSec, k as real, i, 0.5);
  }

  /** The next beat lies strictly after t and no more than one interval after it. */
  lemma {:induction false} NextBeatAfter(g: BeatGrid, t: real)
    requires g.beatIntervalSec > 0.0
    ensures t < NextBeatSec(g, t) <= t + g.beatIntervalSec
  {
    var i := g.beatIntervalSec;
    var k := NextBeatIndex(g, t);
    AboveQuotMinus(t - g.anchorSec, k as real, i, 0.0);
    BelowQuotPlus(t - g.anchorSec, k as real, i, 1.0);
  }

  /** The next beat is either the nearest beat itself or exactly one interval after it. */
  lemma {:induction false} NextMinusNearest(g: BeatGrid, t: real)
    requires g.beatIntervalSec > 0.0
    ensures var d := NextBeatSec(g, t) - NearestBeatSec(g, t);
            d == 0.0 || d == g.beatIntervalSec
  {
    var i := g.beatIntervalSec;
    var x := (t - g.anchorSec) / i;
    var k := x.Floor;
    var r := Round(x);
    assert r == k || r == k + 1;
    if r == k + 1 {
      assert NearestBeatSec(g, t) == Beat(g, k + 1);
    } else {
      assert Beat(g, k + 1) - Beat(g, k) == i;
    }
  }

  /** From a grid point the next beat is the following grid point. */
  lemma {:induction false} NextOfGridPoint(g: BeatGrid, m: int)
    requires g.beatIntervalSec > 0.0
    ensures NextBeatSec(g, Beat(g, m)) == Beat(g, m + 1)
    ensures NearestBeatSec(g, Beat(g, m)) == Beat(g, m)
  {
    var i := g.beatIntervalSec;
    assert (Beat(g, m) - g.anchorSec) / i == m as real;
    assert (m as real + 0.5).Floor == m;
  }
}
