/** The day with the highest traded volume (`get_highest_volume`). */
module Volume {
  import opened Samples

  /** The running maximum: the sentinel `(0, -1)` that starts the scan, or
      the day and volume of the best sample so far. */
  datatype Highest = Sentinel | Found(day: int, volume: real) {
    /** The volume the scan compares against: `-1` for the sentinel. */
    function Level(): real {
      if Sentinel? then -1.0 else volume
    }
  }

  /** Sample `i` has the largest volume of the series, and every sample
      before it has a strictly smaller one. */
  ghost predicate IsFirstMaximumIn(series: seq<RawSample>, n: int, i: int)
    requires n <= |series|
  {
    0 <= i < n &&
    (forall k | 0 <= k < n :: series[k].value <= series[i].value) &&
    (forall k | 0 <= k < i :: series[k].value < series[i].value)
  }

  /** `h` is what the scan of the first `n` samples arrives at: the sentinel
      when no volume beats `-1`, otherwise the day and volume of the first
      sample with the maximum volume. */
  ghost predicate IsHighestIn(series: seq<RawSample>, n: int, h: Highest)
    requires n <= |series|
  {
    (h.Sentinel? <==> forall k | 0 <= k < n :: series[k].value <= -1.0) &&
    (h.Found? ==>
       exists i :: IsFirstMaximumIn(series, n, i) && h == Found(DayOf(series[i].timestamp), series[i].value))
  }

  /** `get_highest_volume` on an already fetched volume series. */
  method HighestVolume(series: seq<RawSample>) returns (highest: Highest)
    ensures series == [] ==> highest == Sentinel
    ensures IsHighestIn(series, |series|, highest)
  {
    highest := Sentinel;
    ghost var at := 0;
    for i := 0 to |series|
      invariant highest.Sentinel? <==> forall k | 0 <= k < i :: series[k].value <= -1.0
      invariant forall k | 0 <= k < i :: series[k].value <= highest.Level()
      invariant highest.Found? ==>
                  IsFirstMaximumIn(series, i, at) && highest == Found(DayOf(series[at].timestamp), series[at].value)
    {
      var (day, volume) := ParseDayAndPrice(series[i]);
      if volume > highest.Level() {
        highest := Found(day, volume);
        at := i;
      }
    }
  }

  /** The scan's answer is determined: two answers for the same samples are
      equal. */
  lemma HighestIsUnique(series: seq<RawSample>, h1: Highest, h2: Highest)
    requires IsHighestIn(series, |series|, h1) && IsHighestIn(series, |series|, h2)
    ensures h1 == h2
  {
    if h1.Found? {
      var i :| IsFirstMaximumIn(series, |series|, i) && h1 == Found(DayOf(series[i].timestamp), series[i].value);
      var j :| IsFirstMaximumIn(series, |series|, j) && h2 == Found(DayOf(series[j].timestamp), series[j].value);
    }
  }

  /** An empty series gives the sentinel; a series of non-negative volumes
      with at least one sample gives a day. */
  lemma HighestOfEmptyOrNonNegative(series: seq<RawSample>, h: Highest)
    requires IsHighestIn(series, |series|, h)
    ensures series == [] ==> h == Sentinel
    ensures series != [] && series[0].value >= 0.0 ==> h.Found? && h.volume >= series[0].value
  {
    if h.Found? {
      var i :| IsFirstMaximumIn(series, |series|, i) && h == Found(DayOf(series[i].timestamp), series[i].value);
    }
  }

  /** Volumes 5, 9, 9: the tie goes to the first day with 9, which by
      `HighestIsUnique` is the only answer. */
  lemma HighestExample(series: seq<RawSample>)
    requires |series| == 3
    requires series[0].value == 5.0 && series[1].value == 9.0 && series[2].value == 9.0
    ensures IsHighestIn(series, 3, Found(DayOf(series[1].timestamp), 9.0))
  {
    forall k | 0 <= k < 3
      ensures series[k].value <= 9.0
    {
      assert k == 0 || k == 1 || k == 2;
    }
    assert series[0].value > -1.0;
    assert IsFirstMaximumIn(series, 3, 1);
  }
}
