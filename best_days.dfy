/** The best pair of days to buy and then sell (`get_best_days`). */
module BestDays {
  import opened Samples

  /** What the scan returns: the empty tuple, or the buy and sell days. */
  datatype BestPair = NoPair | Pair(fromDay: int, toDay: int)

  /** The gain of buying at sample `i` and selling at sample `j`. */
  function Gain(series: seq<RawSample>, i: int, j: int): real
    requires 0 <= i < |series| && 0 <= j < |series|
  {
    series[j].value - series[i].value
  }

  /** The pair `(a, b)` comes before `(i, j)` in the scan, which runs over
      `i` and, for each `i`, over `j` from `i` on. */
  predicate ScannedBefore(a: int, b: int, i: int, j: int) {
    a < i || (a == i && b < j)
  }

  /** `(i, j)` with `i < j` has a positive gain, no pair `a <= b` scanned
      before `(hi, hj)` gains more, and every pair scanned before `(i, j)`
      gains strictly less. */
  ghost predicate IsBestBefore(series: seq<RawSample>, hi: int, hj: int, i: int, j: int) {
    0 <= i < j < |series| && ScannedBefore(i, j, hi, hj) &&
    Gain(series, i, j) > 0.0 &&
    (forall a, b | 0 <= a <= b < |series| && ScannedBefore(a, b, hi, hj) ::
       Gain(series, a, b) <= Gain(series, i, j)) &&
    (forall a, b | 0 <= a <= b < |series| && ScannedBefore(a, b, i, j) ::
       Gain(series, a, b) < Gain(series, i, j))
  }

  /** No pair `a <= b` scanned before `(hi, hj)` has a positive gain. */
  ghost predicate NoGainBefore(series: seq<RawSample>, hi: int, hj: int) {
    forall a, b | 0 <= a <= b < |series| && ScannedBefore(a, b, hi, hj) ::
      Gain(series, a, b) <= 0.0
  }

  /** `r` is the outcome of the whole scan: the empty tuple exactly when no
      later day is priced above an earlier one, otherwise the days of the
      first pair in scan order whose gain is the largest. */
  ghost predicate IsBestDays(series: seq<RawSample>, r: BestPair) {
    (r.NoPair? <==> forall a, b | 0 <= a < b < |series| :: series[b].value <= series[a].value) &&
    (r.Pair? ==>
       exists i, j :: IsBestBefore(series, |series|, |series|, i, j) &&
                      r == Pair(DayOf(series[i].timestamp), DayOf(series[j].timestamp)))
  }

  /** `get_best_days` on an already fetched price series: every day against
      itself and every later day, keeping a pair only on a strictly larger
      gain than the best so far, which starts at 0. */
  method BestDaysToTrade(series: seq<RawSample>) returns (best: BestPair)
    ensures |series| < 2 ==> best == NoPair
    ensures IsBestDays(series, best)
  {
    var highestDelta: real := 0.0;
    best := NoPair;
    ghost var bi, bj := 0, 0;
    for i := 0 to |series|
      invariant best.NoPair? ==> highestDelta == 0.0 && NoGainBefore(series, i, i)
      invariant best.Pair? ==>
                  IsBestBefore(series, i, i, bi, bj) && highestDelta == Gain(series, bi, bj) &&
                  best == Pair(DayOf(series[bi].timestamp), DayOf(series[bj].timestamp))
    {
      var (fromDay, fromPrice) := ParseDayAndPrice(series[i]);
      for j := i to |series|
        invariant best.NoPair? ==> highestDelta == 0.0 && NoGainBefore(series, i, j)
        invariant best.Pair? ==>
                    IsBestBefore(series, i, j, bi, bj) && highestDelta == Gain(series, bi, bj) &&
                    best == Pair(DayOf(series[bi].timestamp), DayOf(series[bj].timestamp))
      {
        var (toDay, toPrice) := ParseDayAndPrice(series[j]);
        if toPrice - fromPrice > highestDelta {
          highestDelta := toPrice - fromPrice;
          best := Pair(fromDay, toDay);
          bi, bj := i, j;
        }
      }
    }
    if best.NoPair? {
      forall a, b | 0 <= a < b < |series|
        ensures series[b].value <= series[a].value
      {
        assert Gain(series, a, b) <= 0.0;
      }
    } else {
      assert series[bi].value < series[bj].value;
    }
  }

  /** The scan order is total, so at most one pair is the first best one:
      the outcome is determined by the prices. */
  lemma BestPairIsUnique(series: seq<RawSample>, i: int, j: int, i': int, j': int)
    requires IsBestBefore(series, |series|, |series|, i, j)
    requires IsBestBefore(series, |series|, |series|, i', j')
    ensures i == i' && j == j'
  {
  }

  /** The outcome is determined: two outcomes of the scan of the same
      prices are equal. */
  lemma BestDaysIsUnique(series: seq<RawSample>, r1: BestPair, r2: BestPair)
    requires IsBestDays(series, r1) && IsBestDays(series, r2)
    ensures r1 == r2
  {
    if r1.Pair? {
      var i, j :| IsBestBefore(series, |series|, |series|, i, j) &&
                  r1 == Pair(DayOf(series[i].timestamp), DayOf(series[j].timestamp));
      var i', j' :| IsBestBefore(series, |series|, |series|, i', j') &&
                    r2 == Pair(DayOf(series[i'].timestamp), DayOf(series[j'].timestamp));
      BestPairIsUnique(series, i, j, i', j');
    }
  }

  /** Prices 7, 1, 5, 3, 6, 4: buying on the second day and selling on the
      fifth gains 5, the most any pair gains; by `BestDaysIsUnique` it is the
      only answer. */
  lemma BestDaysExample(series: seq<RawSample>)
    requires |series| == 6
    requires series[0].value == 7.0 && series[1].value == 1.0 && series[2].value == 5.0
    requires series[3].value == 3.0 && series[4].value == 6.0 && series[5].value == 4.0
    ensures IsBestDays(series, Pair(DayOf(series[1].timestamp), DayOf(series[4].timestamp)))
  {
    forall a, b | 0 <= a <= b < 6
      ensures Gain(series, a, b) <= 5.0
      ensures ScannedBefore(a, b, 1, 4) ==> Gain(series, a, b) < 5.0
    {
      if a == 0 {
        assert series[b].value <= 7.0;
      } else if a == 1 {
        assert b == 1 || b == 2 || b == 3 || b == 4 || b == 5;
      } else {
        assert series[a].value >= 3.0 && series[b].value <= 6.0;
      }
    }
    assert Gain(series, 1, 4) == 5.0;
    assert IsBestBefore(series, 6, 6, 1, 4);
  }
}
