# CryptoAnalyzer in Dafny

A model of the analysis core of `CryptoAnalyzer.py`. Its `Backend` object holds a query: a coin, a currency and a date range. It fetches the market-chart series (`prices`, `total_volumes`, `market_caps`) for that query and keeps the first sample of each calendar day. On the de-duplicated series it answers three questions:

- the longest run of day-over-day price decreases (`trend`);
- the day with the highest traded volume (`highest`);
- the best pair of days to buy and then sell (`best_day`).

`input_parser` turns a line `<command> <start> <end>` into a query and runs the matching analysis.

Modules, one per component of the source file:

- `Samples` (samples.dfy): the raw `[timestamp, value]` pair and its calendar day (`parse_day_and_price`).
- `Normalizer` (normalizer.dfy): the per-day de-duplication of `fetch_data`. `Dedup` is its specification. `KeepFirstPerDay` is the loop and `FetchData` the loop over the response's keys.
- `Trend` (trend.dfy): `get_downward_trend`, specified by `RunAt`, the number of strictly decreasing steps ending at a sample.
- `Volume` (volume.dfy): `get_highest_volume` with its `(0, -1)` sentinel.
- `BestDays` (best_days.dfy): the O(n²) scan of `get_best_days`.
- `Commands` (commands.dfy): `str.split(" ")` and `str.lower()` as `input_parser` uses them.
- `CryptoAnalyzer` (analyzer.dfy): the `Backend` class with its four query fields, `set_dates`, the fetch of one series, and `input_parser`.

Each loop of the source is a method with loop invariants. Its `ensures` ties the result to a specification predicate or function, and lemmas prove what that specification means. Days are integer day numbers. Values are `real`. Dates are integer epoch seconds.

Two facts about the code that the model keeps:

- The inner scan of `get_best_days` includes `j == i` (`CryptoAnalyzer.py:107`). That pair gains 0, so it never wins.
- `trend`, `highest` and `best_day` are the only commands; there is no `help`, `quit` or `exit`. A line that does not split into three pieces returns `False` (`CryptoAnalyzer.py:121-122`), and any other command returns `True` (`CryptoAnalyzer.py:144`).

## Model

| member | source | states |
|---|---|---|
| `Samples.DayOf` | CryptoAnalyzer.py:34 | the day of a timestamp is the day whose millisecond window contains it |
| `Samples.DayOfUnique` | CryptoAnalyzer.py:34 | that window determines the day: a timestamp has exactly one day |
| `Samples.ParseDayAndPrice` | CryptoAnalyzer.py:28-36 | the pair returned is the day whose window holds the timestamp, and the value unchanged |
| `Normalizer.KeepFirstPerDay` | CryptoAnalyzer.py:50-58 | the `seen`-set pass returns exactly `Dedup` of the raw series |
| `Normalizer.FetchData` | CryptoAnalyzer.py:48-59 | every key of the response is kept, and each series is replaced by its de-duplicated form |
| `Normalizer.DedupSelection` | CryptoAnalyzer.py:49-58 | builds the increasing index list that selects, from the raw series, exactly the first sample of each day |
| `Normalizer.DedupIsFirstsSelection` | CryptoAnalyzer.py:49-58 | the output is an order-preserving subsequence of the input whose positions are exactly the first-of-day samples, kept as-is |
| `Normalizer.DedupKeepsDays` | CryptoAnalyzer.py:51-58 | the output covers exactly the days of the input: no day is lost |
| `Normalizer.DedupDistinctDays` | CryptoAnalyzer.py:54-57 | no two kept samples fall on the same day |
| `Normalizer.DedupNoLonger` | CryptoAnalyzer.py:50-58 | the output is no longer than the input, and empty input gives empty output |
| `Normalizer.DedupKeepsInputSamples` | CryptoAnalyzer.py:58 | every kept sample is one of the raw samples |
| `Normalizer.DedupOfDistinct` | CryptoAnalyzer.py:52-58 | a series with distinct days passes through unchanged |
| `Normalizer.DedupIdempotent` | CryptoAnalyzer.py:48-58 | de-duplicating the output again changes nothing |
| `Trend.RunAt` | CryptoAnalyzer.py:70-78 | the run ending at a sample has at most as many steps as samples before it |
| `Trend.LongestDownwardTrend` | CryptoAnalyzer.py:61-80 | the loop returns the run ending at the first sample whose run is longest; an empty series gives `[]` |
| `Trend.RunIsDescending` | CryptoAnalyzer.py:73-74 | each sample in a run is strictly below its predecessor, and the run never holds the first sample |
| `Trend.DescendingFitsRun` | CryptoAnalyzer.py:73-78 | any strictly decreasing stretch ending at a sample is no longer than the run counted there |
| `Trend.TrendIsDescendingSlice` | CryptoAnalyzer.py:69-74 | the trend is a contiguous slice of the series, never holding its first sample, each price strictly below the previous one |
| `Trend.RunIsFirstLongest` | CryptoAnalyzer.py:75-76 | the first longest run is at least as long as any decreasing stretch, and one of equal length does not start earlier |
| `Trend.TrendIsFirstLongest` | CryptoAnalyzer.py:75-76 | for the trend returned: no decreasing stretch is longer, and the trend starts no later than any decreasing stretch of equal length |
| `Trend.NonDecreasingHasNoTrend` | CryptoAnalyzer.py:77-78 | a series that never falls, with ties counted as not falling, has an empty trend |
| `Trend.StrictlyDecreasingRun` | CryptoAnalyzer.py:73-74 | in a strictly decreasing series the run at sample i has i steps |
| `Trend.StrictlyDecreasingTrend` | CryptoAnalyzer.py:67-80 | a strictly decreasing series of n samples has the trend of its last n - 1 samples |
| `Trend.TrendExample` | CryptoAnalyzer.py:67-80 | prices 10, 8, 9, 7, 6, 5 give the trend 7, 6, 5 |
| `Volume.HighestVolume` | CryptoAnalyzer.py:82-93 | returns the sentinel exactly when no volume exceeds -1; otherwise the day and volume of the first sample whose volume is the maximum |
| `Volume.HighestIsUnique` | CryptoAnalyzer.py:88-92 | that answer is determined by the series |
| `Volume.HighestOfEmptyOrNonNegative` | CryptoAnalyzer.py:88-93 | an empty series gives the sentinel `(0, -1)`; a non-empty series with a non-negative first volume gives a day |
| `Volume.HighestExample` | CryptoAnalyzer.py:89-92 | for volumes 5, 9, 9 the answer is the second day: the first of a tie wins |
| `BestDays.BestDaysToTrade` | CryptoAnalyzer.py:95-112 | returns `()` for fewer than two samples, and exactly when no later day is priced above an earlier one. Otherwise it returns the days of a pair i < j with positive gain, no smaller than the gain of any pair i' <= j', and every pair scanned before it gains strictly less |
| `BestDays.BestPairIsUnique` | CryptoAnalyzer.py:105-111 | at most one pair is first best in scan order |
| `BestDays.BestDaysIsUnique` | CryptoAnalyzer.py:102-112 | the scan's answer is determined by the prices |
| `BestDays.BestDaysExample` | CryptoAnalyzer.py:105-111 | for prices 7, 1, 5, 3, 6, 4 the answer is the second and fifth days |
| `Commands.Split` | CryptoAnalyzer.py:120 | `split(" ")` always yields at least one piece |
| `Commands.SplitCount` | CryptoAnalyzer.py:120-121 | there is one more piece than there are spaces, so three pieces means exactly two spaces |
| `Commands.SplitHasNoSpaces` | CryptoAnalyzer.py:120 | no piece contains a space |
| `Commands.JoinSplit` | CryptoAnalyzer.py:120 | joining the pieces with single spaces restores the line |
| `Commands.SplitJoin` | CryptoAnalyzer.py:120 | splitting a space-joined list of space-free pieces restores the pieces |
| `Commands.Lower` | CryptoAnalyzer.py:123 | same length; no upper-case letter is left; each upper-case letter becomes its lower-case form and every other character is unchanged |
| `Commands.LowerMatchesWord` | CryptoAnalyzer.py:123-136 | the lower-cased command equals a lower-case word such as `trend` exactly when it matches that word ignoring case |
| `CryptoAnalyzer.Backend.constructor` | CryptoAnalyzer.py:10-14 | the range starts at epoch seconds 0 and 1, with the default coin and currency |
| `CryptoAnalyzer.Backend.SetDates` | CryptoAnalyzer.py:16-26 | all four query fields are replaced; coin and currency default to `bitcoin` and `eur` |
| `CryptoAnalyzer.Backend.FetchSeries` | CryptoAnalyzer.py:38-59 | the series is returned, de-duplicated, exactly when the response for the current query has that key |
| `CryptoAnalyzer.Backend.InputParser` | CryptoAnalyzer.py:114-144 | without exactly three pieces: returns `False` and changes nothing. Otherwise: stores the start, the end plus one hour and the default coin and currency, then answers the lower-cased command. `trend`, `highest` and `best_day` run their analysis on the fetched series, or raise when it is missing. Any other command returns `True` |

## Left out

- Network fetch (`CryptoAnalyzer.py:43-47`): the URL, `urlopen` and `json.loads` are I/O. The service is a parameter `fetch: Query -> map<string, seq<RawSample>>` applied to the current query. Transport errors are not modelled.
- Time zones: `datetime.fromtimestamp(...).strftime("%Y-%m-%d")` uses the machine's local zone. The model counts days in UTC (`timestamp / 86400000`). Day numbers stand for the date strings one to one.
- Date parsing: `datetime.fromisoformat` is a library call. It is the parameter `isoSeconds: string -> int`, giving epoch seconds. A malformed date, which raises in the source, is not modelled.
- Floating point: prices and volumes are exact `real`s, so rounding in `to_price - from_price` is not modelled.
- Console output: the `print` sentences (`CryptoAnalyzer.py:129-143`) are left out. `Report` carries the values they embed.
- The demo driver `main` (`CryptoAnalyzer.py:147-154`) only calls `input_parser` with fixed lines.
- Commands.Lower: lower-cases ASCII letters only, where Python's `str.lower` covers all of Unicode. Only comparisons with the ASCII words `trend`, `highest` and `best_day` depend on it.
- Trend.LongestDownwardTrend: requires that no price equals `-1`. The source starts `last_price` at `-1` to mean "no previous price" (`CryptoAnalyzer.py:69`, `:73`), so a real price of exactly `-1` is taken for that sentinel. The step after it then neither extends nor clears the run, and the result need not be a contiguous slice (prices 5, -1, -2, -3 give -1, -3). Every other price, negative ones included, is covered.
- CryptoAnalyzer.Backend.InputParser: requires, for a `trend` line only, that the prices served for the query that line stores contain no `-1`, for the same reason. Malformed lines, `highest`, `best_day` and unknown commands need nothing of the service.
- Exceptions: only a missing series key (`NoneType` is not iterable in the source) is modelled, as `Outcome.MissingSeries`. A raw pair that is not a two-element list is not modelled.
- The `market_caps` series is de-duplicated like the others, but no analysis reads it.
