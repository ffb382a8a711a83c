/** Raw market-chart samples and the calendar day each one falls on. */
module Samples {

  /** Milliseconds in one calendar day. */
  const MsPerDay: int := 86_400_000

  /** One `[timestamp, value]` pair as the market-data service serves it: a
      timestamp in milliseconds and a price, a traded volume or a market cap. */
  datatype RawSample = RawSample(timestamp: int, value: real)

  /** The calendar day of a millisecond timestamp, counted in days since
      1970-01-01 in a fixed zone (UTC); day numbers stand for the
      `%Y-%m-%d` strings, which they determine one to one. */
  function DayOf(timestamp: int): (day: int)
    ensures day * MsPerDay <= timestamp < day * MsPerDay + MsPerDay
  {
    timestamp / MsPerDay
  }

  /** Splits a raw pair into its calendar day and its value. */
  function ParseDayAndPrice(data: RawSample): (r: (int, real))
    ensures r.0 * MsPerDay <= data.timestamp < r.0 * MsPerDay + MsPerDay
    ensures r.1 == data.value
  {
    (DayOf(data.timestamp), data.value)
  }

  /** The window property pins the day down: `day` is the day of `timestamp`
      exactly when the timestamp lies in that day's window. */
  lemma DayOfUnique(timestamp: int, day: int)
    ensures DayOf(timestamp) == day <==> day * MsPerDay <= timestamp < day * MsPerDay + MsPerDay
  {
    var d := DayOf(timestamp);
    if d < day {
      assert d * MsPerDay + MsPerDay <= day * MsPerDay;
    } else if d > day {
      assert day * MsPerDay + MsPerDay <= d * MsPerDay;
    }
  }
}
