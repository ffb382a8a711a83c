/** One sample per calendar day: the de-duplication pass of `fetch_data`. */
module Normalizer {
  import opened Samples

  /** The calendar days the samples of `s` fall on. */
  ghost function Days(s: seq<RawSample>): set<int> {
    set k | 0 <= k < |s| :: DayOf(s[k].timestamp)
  }

  /** No two samples of `s` fall on the same day. */
  ghost predicate DistinctDays(s: seq<RawSample>) {
    forall a, b | 0 <= a < b < |s| :: DayOf(s[a].timestamp) != DayOf(s[b].timestamp)
  }

  /** Sample `i` is the first of `raw` on its day. */
  ghost predicate FirstOfDay(raw: seq<RawSample>, i: int)
    requires 0 <= i < |raw|
  {
    forall j | 0 <= j < i :: DayOf(raw[j].timestamp) != DayOf(raw[i].timestamp)
  }

  /** The de-duplicated series: the left-to-right pass keeps a sample when no
      sample kept so far falls on its day, and keeps it unchanged. */
  ghost function Dedup(raw: seq<RawSample>): seq<RawSample> {
    if raw == [] then []
    else
      var kept := Dedup(raw[..|raw| - 1]);
      var x := raw[|raw| - 1];
      if DayOf(x.timestamp) in Days(kept) then kept else kept + [x]
  }

  /** `idx` lists, in increasing order, the positions of `raw` that `kept`
      takes its samples from, and those are exactly the first samples of
      each day. */
  ghost predicate IsFirstsSelection(raw: seq<RawSample>, kept: seq<RawSample>, idx: seq<int>) {
    && |idx| == |kept|
    && (forall k | 0 <= k < |idx| :: 0 <= idx[k] < |raw| && kept[k] == raw[idx[k]])
    && (forall k, l | 0 <= k < l < |idx| :: idx[k] < idx[l])
    && (forall i | 0 <= i < |raw| :: FirstOfDay(raw, i) <==> i in idx)
  }

  lemma DaysAppend(s: seq<RawSample>, x: RawSample)
    ensures Days(s + [x]) == Days(s) + {DayOf(x.timestamp)}
  {
    var t := s + [x];
    assert forall k | 0 <= k < |s| :: t[k] == s[k];
    assert t[|s|] == x;
  }

  /** A sample is the first of its day exactly when its day does not occur
      among the samples before it. */
  lemma FirstOfDayIffNewDay(raw: seq<RawSample>, i: int)
    requires 0 <= i < |raw|
    ensures FirstOfDay(raw, i) <==> DayOf(raw[i].timestamp) !in Days(raw[..i])
  {
    var p := raw[..i];
    assert forall j | 0 <= j < i :: p[j] == raw[j];
  }

  /** The pass loses no day: every day of the input is a day of the output. */
  lemma {:induction false} DedupKeepsDays(raw: seq<RawSample>)
    ensures Days(Dedup(raw)) == Days(raw)
  {
    if raw != [] {
      var p := raw[..|raw| - 1];
      var x := raw[|raw| - 1];
      DedupKeepsDays(p);
      DaysAppend(Dedup(p), x);
      DaysAppend(p, x);
      assert p + [x] == raw;
    }
  }

  /** No two kept samples fall on the same day. */
  lemma {:induction false} DedupDistinctDays(raw: seq<RawSample>)
    ensures DistinctDays(Dedup(raw))
  {
    if raw != [] {
      var p := raw[..|raw| - 1];
      var x := raw[|raw| - 1];
      DedupDistinctDays(p);
      var kept := Dedup(p);
      if DayOf(x.timestamp) !in Days(kept) {
        var t := kept + [x];
        forall a, b | 0 <= a < b < |t|
          ensures DayOf(t[a].timestamp) != DayOf(t[b].timestamp)
        {
          if b == |kept| {
            assert DayOf(t[a].timestamp) in Days(kept);
          }
        }
      }
    }
  }

  /** The output is never longer than the input; an empty input gives an
      empty output. */
  lemma {:induction false} DedupNoLonger(raw: seq<RawSample>)
    ensures |Dedup(raw)| <= |raw|
    ensures raw == [] ==> Dedup(raw) == []
  {
    if raw != [] {
      DedupNoLonger(raw[..|raw| - 1]);
    }
  }

  /** The output is the input restricted to the first sample of each day, in
      input order: an order-preserving subsequence in which each day's kept
      sample is that day's first raw sample, with every day represented. */
  lemma {:induction false} DedupSelection(raw: seq<RawSample>) returns (idx: seq<int>)
    ensures IsFirstsSelection(raw, Dedup(raw), idx)
  {
    if raw == [] {
      idx := [];
    } else {
      var n := |raw|;
      var p := raw[..n - 1];
      var x := raw[n - 1];
      var idx' := DedupSelection(p);
      var kept := Dedup(p);
      DedupKeepsDays(p);
      FirstOfDayIffNewDay(raw, n - 1);
      assert raw[..n - 1] == p;
      assert forall i | 0 <= i < n - 1 :: raw[i] == p[i];
      forall i | 0 <= i < n - 1
        ensures FirstOfDay(raw, i) == FirstOfDay(p, i)
      {
      }
      assert forall k | 0 <= k < |idx'| :: idx'[k] < n - 1;
      if FirstOfDay(raw, n - 1) {
        idx := idx' + [n - 1];
        assert Dedup(raw) == kept + [x];
        assert forall k | 0 <= k < |idx'| :: idx[k] == idx'[k];
        forall i | 0 <= i < n
          ensures FirstOfDay(raw, i) <==> i in idx
        {
          assert i in idx <==> i in idx' || i == n - 1;
        }
      } else {
        idx := idx';
        assert Dedup(raw) == kept;
      }
    }
  }

  /** The kept series is the first-of-day selection of the raw series. */
  lemma DedupIsFirstsSelection(raw: seq<RawSample>)
    ensures exists idx :: IsFirstsSelection(raw, Dedup(raw), idx)
  {
    var idx := DedupSelection(raw);
  }

  /** Every kept sample is one of the raw samples. */
  lemma {:induction false} DedupKeepsInputSamples(raw: seq<RawSample>)
    ensures forall k | 0 <= k < |Dedup(raw)| :: Dedup(raw)[k] in raw
  {
    var idx := DedupSelection(raw);
  }

  /** A series whose days are already distinct passes through unchanged. */
  lemma {:induction false} DedupOfDistinct(s: seq<RawSample>)
    requires DistinctDays(s)
    ensures Dedup(s) == s
  {
    if s != [] {
      var n := |s|;
      var p := s[..n - 1];
      assert DistinctDays(p) by {
        assert forall a | 0 <= a < n - 1 :: p[a] == s[a];
      }
      DedupOfDistinct(p);
      assert DayOf(s[n - 1].timestamp) !in Days(p) by {
        assert forall k | 0 <= k < |p| :: p[k] == s[k];
      }
      assert p + [s[n - 1]] == s;
    }
  }

  /** Running the pass again on its own output changes nothing. */
  lemma {:induction false} DedupIdempotent(raw: seq<RawSample>)
    ensures Dedup(Dedup(raw)) == Dedup(raw)
  {
    DedupDistinctDays(raw);
    DedupOfDistinct(Dedup(raw));
  }

  /** The inner loop of `fetch_data` for one series: a `seen` set of days
      drives a single left-to-right pass that appends each raw pair whose day
      is new. */
  method KeepFirstPerDay(raw: seq<RawSample>) returns (kept: seq<RawSample>)
    ensures kept == Dedup(raw)
  {
    kept := [];
    var seen: set<int> := {};
    for i := 0 to |raw|
      invariant kept == Dedup(raw[..i])
      invariant seen == Days(kept)
    {
      assert raw[..i + 1][..i] == raw[..i];
      var (day, _) := ParseDayAndPrice(raw[i]);
      if day in seen {
        continue;
      }
      DaysAppend(kept, raw[i]);
      seen := seen + {day};
      kept := kept + [raw[i]];
    }
    assert raw[..|raw|] == raw;
  }

  /** `fetch_data` after the download: every series of the response, whatever
      its key, is replaced by its de-duplicated form. */
  method FetchData(response: map<string, seq<RawSample>>) returns (parsed: map<string, seq<RawSample>>)
    ensures parsed.Keys == response.Keys
    ensures forall key | key in parsed :: parsed[key] == Dedup(response[key])
  {
    parsed := map[];
    var todo := response.Keys;
    while todo != {}
      invariant todo <= response.Keys
      invariant parsed.Keys == response.Keys - todo
      invariant forall key | key in parsed :: parsed[key] == Dedup(response[key])
      decreases todo
    {
      var key :| key in todo;
      var kept := KeepFirstPerDay(response[key]);
      parsed := parsed[key := kept];
      todo := todo - {key};
    }
  }
}
