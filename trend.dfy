/** The longest downward trend of a price series (`get_downward_trend`). */
module Trend {
  import opened Samples

  /** No price equals `-1`, the value that also stands for "no previous
      price": a real price of `-1` would be taken for that sentinel. */
  ghost predicate NoSentinelPrice(series: seq<RawSample>) {
    forall k | 0 <= k < |series| :: series[k].value != -1.0
  }

  /** The number of consecutive strictly decreasing steps that end at sample
      `i`: zero at the first sample and wherever the price did not fall. */
  function RunAt(series: seq<RawSample>, i: int): (steps: nat)
    requires 0 <= i < |series|
    ensures steps <= i
  {
    if i == 0 then 0
    else if series[i].value < series[i - 1].value then RunAt(series, i - 1) + 1
    else 0
  }

  /** The samples of the downward run that ends at sample `i`, without the
      sample the run starts from. */
  function RunEndingAt(series: seq<RawSample>, i: int): seq<RawSample>
    requires 0 <= i < |series|
  {
    series[i + 1 - RunAt(series, i) .. i + 1]
  }

  /** Positions `lo .. hi-1` form a downward run: none of them is the first
      sample and each price is strictly below the price just before it. */
  ghost predicate Descending(series: seq<RawSample>, lo: int, hi: int) {
    1 <= lo <= hi <= |series| &&
    forall k | lo <= k < hi :: series[k].value < series[k - 1].value
  }

  /** Among the first `n` samples, the run ending at `e` is a longest one and
      no earlier run is as long. */
  ghost predicate IsFirstLongestIn(series: seq<RawSample>, n: int, e: int) {
    0 <= e < n <= |series| &&
    (forall i | 0 <= i < n :: RunAt(series, i) <= RunAt(series, e)) &&
    (forall i | 0 <= i < e :: RunAt(series, i) < RunAt(series, e))
  }

  /** `trend` is the first longest downward run of the whole series. */
  ghost predicate IsLongestTrend(series: seq<RawSample>, trend: seq<RawSample>) {
    if series == [] then trend == []
    else exists e :: IsFirstLongestIn(series, |series|, e) && trend == RunEndingAt(series, e)
  }

  /** `get_downward_trend` on an already fetched price series. */
  method LongestDownwardTrend(series: seq<RawSample>) returns (longest: seq<RawSample>)
    requires NoSentinelPrice(series)
    ensures IsLongestTrend(series, longest)
  {
    longest := [];
    var current: seq<RawSample> := [];
    var lastPrice: real := -1.0;
    ghost var e := 0;
    for i := 0 to |series|
      invariant i == 0 ==> longest == [] && current == [] && lastPrice == -1.0 && e == 0
      invariant i > 0 ==> lastPrice == series[i - 1].value
      invariant i > 0 ==> current == RunEndingAt(series, i - 1)
      invariant i > 0 ==> IsFirstLongestIn(series, i, e) && longest == RunEndingAt(series, e)
    {
      var (_, price) := ParseDayAndPrice(series[i]);
      if price < lastPrice && lastPrice != -1.0 {
        current := current + [series[i]];
      }
      if |current| > |longest| {
        longest := current;
        e := i;
      }
      if price >= lastPrice {
        current := [];
      }
      lastPrice := price;
    }
  }

  /** A run is a downward run in the sense of `Descending`. */
  lemma {:induction false} RunIsDescending(series: seq<RawSample>, i: int)
    requires 0 <= i < |series|
    ensures Descending(series, i + 1 - RunAt(series, i), i + 1)
  {
    if i > 0 && series[i].value < series[i - 1].value {
      RunIsDescending(series, i - 1);
    }
  }

  /** Any downward run ending at `hi - 1` is at most as long as `RunAt`. */
  lemma {:induction false} DescendingFitsRun(series: seq<RawSample>, lo: int, hi: int)
    requires Descending(series, lo, hi) && lo < hi
    ensures hi - lo <= RunAt(series, hi - 1)
  {
    if lo < hi - 1 {
      DescendingFitsRun(series, lo, hi - 1);
    }
  }

  /** `trend` is the slice of `series` at positions `lo .. lo+|trend|-1`,
      and that slice is a downward run. */
  ghost predicate IsDescendingSliceAt(series: seq<RawSample>, trend: seq<RawSample>, lo: int) {
    Descending(series, lo, lo + |trend|) && trend == series[lo .. lo + |trend|]
  }

  /** The trend is a contiguous slice of the series, never holding the first
      sample, in which each price is strictly below the one just before it. */
  lemma TrendIsDescendingSlice(series: seq<RawSample>, trend: seq<RawSample>)
    requires IsLongestTrend(series, trend)
    ensures series == [] ==> trend == []
    ensures series != [] ==> exists lo :: IsDescendingSliceAt(series, trend, lo)
  {
    if series != [] {
      var e :| IsFirstLongestIn(series, |series|, e) && trend == RunEndingAt(series, e);
      RunIsDescending(series, e);
      assert IsDescendingSliceAt(series, trend, e + 1 - RunAt(series, e));
    }
  }

  /** The run ending at `e`, when it is the first longest, is as long as
      any downward run `lo .. hi-1`, and a downward run just as long does not
      start earlier. */
  lemma RunIsFirstLongest(series: seq<RawSample>, e: int, lo: int, hi: int)
    requires IsFirstLongestIn(series, |series|, e)
    requires Descending(series, lo, hi)
    ensures hi - lo <= |RunEndingAt(series, e)|
    ensures hi - lo == |RunEndingAt(series, e)| ==> e + 1 - RunAt(series, e) <= lo
  {
    if lo < hi {
      DescendingFitsRun(series, lo, hi);
    }
  }

  /** The trend is as long as any downward run `lo .. hi-1`, and it sits at
      a position no later than any downward run just as long: the first
      longest run wins. */
  lemma TrendIsFirstLongest(series: seq<RawSample>, trend: seq<RawSample>, lo: int, hi: int)
    requires IsLongestTrend(series, trend)
    requires Descending(series, lo, hi)
    ensures hi - lo <= |trend|
    ensures hi - lo == |trend| ==> exists start | start <= lo :: IsDescendingSliceAt(series, trend, start)
  {
    var e :| IsFirstLongestIn(series, |series|, e) && trend == RunEndingAt(series, e);
    RunIsFirstLongest(series, e, lo, hi);
    RunIsDescending(series, e);
    var start := e + 1 - RunAt(series, e);
    assert IsDescendingSliceAt(series, trend, start);
  }

  /** A series that never falls has an empty trend; ties reset the run. */
  lemma NonDecreasingHasNoTrend(series: seq<RawSample>, trend: seq<RawSample>)
    requires forall k | 0 < k < |series| :: series[k - 1].value <= series[k].value
    requires IsLongestTrend(series, trend)
    ensures trend == []
  {
    if series != [] {
      var e :| IsFirstLongestIn(series, |series|, e) && trend == RunEndingAt(series, e);
    }
  }

  /** In a strictly decreasing series every step is part of the run ending
      there. */
  lemma {:induction false} StrictlyDecreasingRun(series: seq<RawSample>, i: int)
    requires forall k | 0 < k < |series| :: series[k].value < series[k - 1].value
    requires 0 <= i < |series|
    ensures RunAt(series, i) == i
  {
    if i > 0 {
      StrictlyDecreasingRun(series, i - 1);
    }
  }

  /** A strictly decreasing series of length n has a trend of n - 1 samples:
      all of it but the first. */
  lemma StrictlyDecreasingTrend(series: seq<RawSample>, trend: seq<RawSample>)
    requires forall k | 0 < k < |series| :: series[k].value < series[k - 1].value
    requires series != [] && IsLongestTrend(series, trend)
    ensures trend == series[1..]
  {
    var n := |series|;
    var e :| IsFirstLongestIn(series, n, e) && trend == RunEndingAt(series, e);
    StrictlyDecreasingRun(series, e);
    StrictlyDecreasingRun(series, n - 1);
  }

  /** Prices 10, 8, 9, 7, 6, 5: the run 9, 7, 6, 5 (three steps) beats the
      single step 10, 8, so the trend is the samples priced 7, 6 and 5. */
  lemma TrendExample(series: seq<RawSample>, trend: seq<RawSample>)
    requires |series| == 6
    requires series[0].value == 10.0 && series[1].value == 8.0 && series[2].value == 9.0
    requires series[3].value == 7.0 && series[4].value == 6.0 && series[5].value == 5.0
    requires IsLongestTrend(series, trend)
    ensures trend == series[3..]
  {
    assert RunAt(series, 1) == 1 && RunAt(series, 2) == 0;
    assert RunAt(series, 3) == 1 && RunAt(series, 4) == 2 && RunAt(series, 5) == 3;
    var e :| IsFirstLongestIn(series, 6, e) && trend == RunEndingAt(series, e);
    assert RunAt(series, 5) <= RunAt(series, e);
  }
}
