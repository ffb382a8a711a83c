/** The `Backend` object: the query it holds, the per-command analyses it
    runs on fetched data, and its command-line parser. */
module CryptoAnalyzer {
  import opened Samples
  import Normalizer
  import Trend
  import Volume
  import BestDays
  import opened Commands

  /** Default coin and currency of a query. */
  const CoinName: string := "bitcoin"
  const Currency: string := "eur"

  /** Seconds in the hour by which the end of the range is widened. */
  const HourSeconds: int := 3600

  datatype Option<T> = None | Some(value: T)

  /** What the market-data service is asked for: coin, currency and the
      range in epoch seconds. */
  datatype Query = Query(coinName: string, currency: string, fromSeconds: int, toSeconds: int)

  /** The value a recognised command computes (and the source prints). */
  datatype Report =
    | NoAnalysis
    | TrendReport(trend: seq<RawSample>)
    | HighestReport(highest: Volume.Highest)
    | BestDaysReport(pair: BestDays.BestPair)

  /** How `input_parser` ends: it returns a flag with what was computed, or
      it raises because the fetched data has no series under `key`. */
  datatype Outcome = Returned(ok: bool, report: Report) | MissingSeries(key: string)

  /** A `trend` line gets no price equal to `-1` for the query it stores;
      lines of any other shape or command need nothing of the service. */
  ghost predicate TrendLineHasNoSentinelPrice(inputText: string, isoSeconds: string -> int,
                                              fetch: Query -> map<string, seq<RawSample>>) {
    var parts := Split(inputText);
    |parts| == 3 && Lower(parts[0]) == "trend" ==>
      var q := Query(CoinName, Currency, isoSeconds(parts[1]), isoSeconds(parts[2]) + HourSeconds);
      "prices" in fetch(q) ==> Trend.NoSentinelPrice(fetch(q)["prices"])
  }

  /** `outcome` is what the command `command` yields on the response
      `response`: an analysis of the de-duplicated series it needs, the raise
      when that series is missing, and `True` with nothing computed for an
      unrecognised command. */
  ghost predicate IsAnswer(command: string, response: map<string, seq<RawSample>>, outcome: Outcome) {
    if command == "trend" then
      if "prices" in response then
        outcome.Returned? && outcome.ok && outcome.report.TrendReport? &&
        Trend.IsLongestTrend(Normalizer.Dedup(response["prices"]), outcome.report.trend)
      else outcome == MissingSeries("prices")
    else if command == "highest" then
      if "total_volumes" in response then
        var series := Normalizer.Dedup(response["total_volumes"]);
        outcome.Returned? && outcome.ok && outcome.report.HighestReport? &&
        Volume.IsHighestIn(series, |series|, outcome.report.highest)
      else outcome == MissingSeries("total_volumes")
    else if command == "best_day" then
      if "prices" in response then
        outcome.Returned? && outcome.ok && outcome.report.BestDaysReport? &&
        BestDays.IsBestDays(Normalizer.Dedup(response["prices"]), outcome.report.pair)
      else outcome == MissingSeries("prices")
    else outcome == Returned(true, NoAnalysis)
  }

  lemma DedupKeepsNoSentinelPrice(raw: seq<RawSample>)
    requires Trend.NoSentinelPrice(raw)
    ensures Trend.NoSentinelPrice(Normalizer.Dedup(raw))
  {
    Normalizer.DedupKeepsInputSamples(raw);
  }

  class Backend {
    /** The date range, in epoch seconds, and the coin and currency of the
        query the analyses fetch data for. */
    var startDate: int
    var endDate: int
    var coinName: string
    var currency: string

    /** Starts at the epoch with the default coin and currency. */
    constructor ()
      ensures startDate == 0 && endDate == 1
      ensures coinName == CoinName && currency == Currency
    {
      startDate, endDate := 0, 1;
      coinName, currency := CoinName, Currency;
    }

    /** Replaces the whole query; coin and currency fall back to the
        defaults when not given. */
    method SetDates(start: int, end: int, coin: string := CoinName, cur: string := Currency)
      modifies this
      ensures startDate == start && endDate == end
      ensures coinName == coin && currency == cur
    {
      startDate, endDate := start, end;
      coinName, currency := coin, cur;
    }

    /** The query the current fields describe. */
    function CurrentQuery(): Query
      reads this
    {
      Query(coinName, currency, startDate, endDate)
    }

    /** `self.fetch_data().get(key)`: the series the service returns for the
        current query under `key`, one sample per day, or nothing. */
    method FetchSeries(fetch: Query -> map<string, seq<RawSample>>, key: string)
      returns (series: Option<seq<RawSample>>)
      ensures key in fetch(CurrentQuery()) <==> series.Some?
      ensures series.Some? ==> series.value == Normalizer.Dedup(fetch(CurrentQuery())[key])
    {
      var parsed := Normalizer.FetchData(fetch(CurrentQuery()));
      series := if key in parsed then Some(parsed[key]) else None;
    }

    /** `input_parser`: a line that does not split into exactly three
        space-separated pieces is refused and changes nothing; otherwise the
        dates are stored (the end one hour later, coin and currency reset)
        and the lower-cased command, recognised or not, is answered. */
    method InputParser(inputText: string, isoSeconds: string -> int,
                       fetch: Query -> map<string, seq<RawSample>>)
      returns (outcome: Outcome)
      requires TrendLineHasNoSentinelPrice(inputText, isoSeconds, fetch)
      modifies this
      ensures |Split(inputText)| != 3 ==> outcome == Returned(false, NoAnalysis) && unchanged(this)
      ensures |Split(inputText)| == 3 ==>
        var parts := Split(inputText);
        && startDate == isoSeconds(parts[1])
        && endDate == isoSeconds(parts[2]) + HourSeconds
        && coinName == CoinName && currency == Currency
        && IsAnswer(Lower(parts[0]), fetch(CurrentQuery()), outcome)
    {
      var parts := Split(inputText);
      if |parts| != 3 {
        return Returned(false, NoAnalysis);
      }
      var command := Lower(parts[0]);
      var start := isoSeconds(parts[1]);
      var end := isoSeconds(parts[2]) + HourSeconds;
      SetDates(start, end);
      if command == "trend" {
        var prices := FetchSeries(fetch, "prices");
        if prices.None? {
          return MissingSeries("prices");
        }
        DedupKeepsNoSentinelPrice(fetch(CurrentQuery())["prices"]);
        var longest := Trend.LongestDownwardTrend(prices.value);
        outcome := Returned(true, TrendReport(longest));
      } else if command == "highest" {
        var volumes := FetchSeries(fetch, "total_volumes");
        if volumes.None? {
          return MissingSeries("total_volumes");
        }
        var highest := Volume.HighestVolume(volumes.value);
        outcome := Returned(true, HighestReport(highest));
      } else if command == "best_day" {
        var prices := FetchSeries(fetch, "prices");
        if prices.None? {
          return MissingSeries("prices");
        }
        var best := BestDays.BestDaysToTrade(prices.value);
        outcome := Returned(true, BestDaysReport(best));
      } else {
        outcome := Returned(true, NoAnalysis);
      }
    }
  }
}
