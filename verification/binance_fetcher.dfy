/** `BinanceFetcher`: OHLCV candles from Binance through ccxt, starting at
    00:00 UTC of the day `days` before today. The exchange is a parameter
    (a function from symbol, timeframe, start and limit to candles), and so
    is today's date. */
module BinanceFetching {
  import opened Wrappers
  import opened Frames
  import Strings
  import Dates

  /** One ccxt candle: open time in milliseconds since the epoch, then the
      open, high, low and close prices and the volume. */
  datatype Candle = Candle(timestamp: int, open: real, high: real, low: real, close: real, volume: real)

  /** `exchange.fetch_ohlcv(symbol, timeframe=..., since=..., limit=...)`. */
  type Exchange = (string, string, int, int) -> seq<Candle>

  const CandleColumns: seq<string> := ["timestamp", "open", "high", "low", "close", "volume"]

  const MinutesPerDay := 24 * 60
  const DayMillis := 86400000

  /** The day number of 1970-01-01, the epoch of ccxt timestamps. */
  const EpochDay := Dates.DayNumber(Dates.Date(1970, 1, 1))

  /** `parse8601("YYYY-MM-DDT00:00:00Z")`: midnight UTC of a date, in milliseconds. */
  function Midnight(d: Dates.Date): int
    requires Dates.Valid(d)
  {
    (Dates.DayNumber(d) - EpochDay) * DayMillis
  }

  function CandleRow(c: Candle): Row {
    map["timestamp" := Time(c.timestamp), "open" := Num(c.open), "high" := Num(c.high),
        "low" := Num(c.low), "close" := Num(c.close), "volume" := Num(c.volume)]
  }

  /** `pd.DataFrame(candles, columns=[...])` with the timestamp column read as
      milliseconds: one row per candle, in the exchange's order. */
  function CandlesToTable(cs: seq<Candle>): (t: Table)
    ensures t.columns == CandleColumns && |t.rows| == |cs|
    ensures forall i :: 0 <= i < |cs| ==> t.rows[i] == CandleRow(cs[i])
  {
    Table(CandleColumns, seq(|cs|, i requires 0 <= i < |cs| => CandleRow(cs[i])))
  }

  /** The frame is empty exactly when the exchange returned no candle. */
  lemma EmptyIffNoCandles(cs: seq<Candle>)
    ensures IsEmpty(CandlesToTable(cs)) <==> cs == []
  {
  }

  /** Each column of the frame lists that field of the candles, in order. */
  lemma CloseColumn(cs: seq<Candle>)
    ensures forall i :: 0 <= i < |cs| ==> Column(CandlesToTable(cs), "close")[i] == Num(cs[i].close)
    ensures forall i :: 0 <= i < |cs| ==> Column(CandlesToTable(cs), "timestamp")[i] == Time(cs[i].timestamp)
  {
  }

  /** The `since` argument: midnight of `today - days`; None where the date
      would fall before 0001-01-01 (an OverflowError). */
  function Since(today: Dates.Date, days: int): Option<int>
    requires Dates.Valid(today)
  {
    match Dates.ShiftDays(today, -days)
    case None => None
    case Some(d) => Some(Midnight(d))
  }

  /** The start is exactly `days` whole days before today's midnight. */
  lemma SinceDaysBefore(today: Dates.Date, days: int)
    requires Dates.Valid(today)
    ensures Since(today, days).Some? ==> Since(today, days).value == Midnight(today) - days * DayMillis
    ensures days <= 0 ==> Since(today, days).Some?
  {
    Dates.ShiftDaysNumber(today, -days);
  }

  /** `int(24*60 / interval_min)`: the number of candles in one day, the
      quotient truncated toward zero; a zero interval divides by zero. */
  function Limit(intervalMin: int): (r: Result<int>)
    ensures r.Failure? <==> intervalMin == 0
    ensures intervalMin > 0 ==> r.Success? && r.value * intervalMin <= MinutesPerDay < (r.value + 1) * intervalMin
    ensures intervalMin < 0 ==> r.Success? && r.value <= 0 && -r.value * -intervalMin <= MinutesPerDay < (-r.value + 1) * -intervalMin
  {
    if intervalMin == 0 then Failure("ZeroDivisionError: division by zero")
    else if intervalMin > 0 then Success(MinutesPerDay / intervalMin)
    else Success(-(MinutesPerDay / -intervalMin))
  }

  /** The ccxt timeframe for an interval in minutes: whole days from one day
      up, whole hours from one hour up, minutes below. */
  function Timeframe(intervalMin: int): string {
    if intervalMin >= MinutesPerDay then Strings.NatToString(intervalMin / 60 / 24) + "d"
    else if intervalMin >= 60 then Strings.NatToString(intervalMin / 60) + "h"
    else Strings.IntToString(intervalMin) + "m"
  }

  /** The unit the timeframe names and its count, rounded down to whole units. */
  lemma TimeframeUnits(n: int)
    ensures n >= MinutesPerDay ==> Timeframe(n) == Strings.NatToString(n / MinutesPerDay) + "d"
    ensures 60 <= n < MinutesPerDay ==> Timeframe(n) == Strings.NatToString(n / 60) + "h" && 1 <= n / 60 < 24
    ensures n < 60 ==> Timeframe(n) == Strings.IntToString(n) + "m"
    ensures n >= 60 ==> (n / 60) * 60 <= n < (n / 60 + 1) * 60
  {
    if n >= MinutesPerDay {
      assert n / 60 / 24 == n / MinutesPerDay;
    }
  }

  /** `fetch_ohlcv`: the interval and limit go to the exchange unchanged. */
  function FetchOhlcv(ex: Exchange, today: Dates.Date, symbol: string, interval: string, days: int, limit: int): (r: Result<Table>)
    requires Dates.Valid(today)
    ensures r.Success? <==> Since(today, days).Some?
    ensures r.Success? ==> r.value == CandlesToTable(ex(symbol, interval, Since(today, days).value, limit))
  {
    match Since(today, days)
    case None => Failure("OverflowError: date value out of range")
    case Some(since) => Success(CandlesToTable(ex(symbol, interval, since, limit)))
  }

  /** `fetch_daily_ohlcv`: one day of candles from `days` days ago, with the
      timeframe and limit derived from the interval. */
  function FetchDailyOhlcv(ex: Exchange, today: Dates.Date, symbol: string, intervalMin: int, days: int): (r: Result<Table>)
    requires Dates.Valid(today)
  {
    match Since(today, days)
    case None => Failure("OverflowError: date value out of range")
    case Some(since) =>
      match Limit(intervalMin)
      case Failure(e) => Failure(e)
      case Success(limit) => Success(CandlesToTable(ex(symbol, Timeframe(intervalMin), since, limit)))
  }

  /** `fetch_daily_ohlcv` is `fetch_ohlcv` called with the derived timeframe
      and limit; it fails exactly when the start overflows or the interval is zero. */
  lemma DailyIsFetchWithDerivedArguments(ex: Exchange, today: Dates.Date, symbol: string, intervalMin: int, days: int)
    requires Dates.Valid(today)
    ensures FetchDailyOhlcv(ex, today, symbol, intervalMin, days).Success?
        <==> Since(today, days).Some? && intervalMin != 0
    ensures intervalMin != 0 ==>
      FetchDailyOhlcv(ex, today, symbol, intervalMin, days)
        == FetchOhlcv(ex, today, symbol, Timeframe(intervalMin), days, Limit(intervalMin).value)
  {
  }

  /** The older fetcher the training dataset uses: the timeframe is always
      written in minutes. */
  function FetchDailyLegacy(ex: Exchange, today: Dates.Date, symbol: string, intervalMin: int, days: int): (r: Result<Table>)
    requires Dates.Valid(today)
  {
    match Since(today, days)
    case None => Failure("OverflowError: date value out of range")
    case Some(since) =>
      match Limit(intervalMin)
      case Failure(e) => Failure(e)
      case Success(limit) => Success(CandlesToTable(ex(symbol, Strings.IntToString(intervalMin) + "m", since, limit)))
  }

  /** Below one hour the two fetchers ask the exchange for the same thing;
      a 15-minute interval asks for 96 candles of "15m". */
  lemma LegacyAgreesBelowAnHour(ex: Exchange, today: Dates.Date, symbol: string, intervalMin: int, days: int)
    requires Dates.Valid(today)
    ensures intervalMin < 60 ==>
      FetchDailyLegacy(ex, today, symbol, intervalMin, days) == FetchDailyOhlcv(ex, today, symbol, intervalMin, days)
    ensures intervalMin == 15 ==> Limit(intervalMin) == Success(96) && Timeframe(intervalMin) == "15m"
  {
    if intervalMin == 15 {
      assert Strings.NatToString(15) == Strings.NatToString(1) + [Strings.DigitChar(5)];
    }
  }
}
