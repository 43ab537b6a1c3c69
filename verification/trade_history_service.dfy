/** `TradeHistoryService.get_history`: the auto-trader's decision records,
    read from the store under `trade/{market}_`, placed on the day of their
    execution and left-joined onto the daily candles, then filled and turned
    into the lists the trade screen draws. The store's listing of a prefix
    and the candle download are parameters: the listed keys and the candle
    table come in as values. */
module TradeHistory {
  import opened Wrappers
  import opened Frames
  import opened Artifacts
  import opened Storage
  import Strings
  import Dates
  import BinanceFetching
  import AutoTrade
  import CryptoDataset

  const TradeFolder := "trade"
  const KeyColumn := "timestamp"
  const ExecutionDate := "execution_date"
  const PredictedPrice := "predicted_price"
  const ExecutionPrice := "execution_price"
  const PredictionLabel := "prediction_label"
  const Confidence := "confidence"

  /** `f"{config.get('market_symbol')}"`: the setting as text, "None" when unset. */
  function MarketText(config: map<string, Json>): string {
    if "market_symbol" !in config then "None"
    else match config["market_symbol"]
      case JStr(s) => s
      case JInt(i) => Strings.IntToString(i)
      case JBool(b) => if b then "True" else "False"
      case JNull => "None"
      case _ => ""
  }

  /** The listing prefix `{S3_FOLDER_TRADE}/{market}_`. */
  function TradePrefix(market: string): string {
    TradeFolder + "/" + market + "_"
  }

  /** The candle column the gains are computed from: `close_{market}`. */
  function CloseColumn(market: string): string {
    "close_" + market
  }

  /** The trader's market tags: "VITE_USDT" and "BTC_USDT". */
  lemma MarketTagsAre()
    ensures CryptoDataset.MarketTags == ["VITE_USDT", "BTC_USDT"]
  {
    var a := CryptoDataset.SymbolTag("VITE/USDT");
    var b := CryptoDataset.SymbolTag("BTC/USDT");
    assert |a| == 9 && forall i :: 0 <= i < 9 ==> a[i] == "VITE_USDT"[i];
    assert |b| == 8 && forall i :: 0 <= i < 8 ==> b[i] == "BTC_USDT"[i];
    assert a == "VITE_USDT" && b == "BTC_USDT";
    assert CryptoDataset.MarketTags == [a, b];
  }

  lemma Prefixes()
    ensures TradePrefix("BTC_USDT") == "trade/BTC_USDT_"
    ensures |TradePrefix("BTC/JPY")| == 14 && TradePrefix("BTC/JPY")[9] == '/'
  {
    assert TradePrefix("BTC/JPY") == "trade/BTC/JPY_";
  }

  /** A key under the trader's prefix is under the history's prefix for the
      setting "BTC_USDT" and not under the one for "BTC/JPY". */
  lemma DecisionKeysFound(key: string)
    requires Strings.StartsWith(key, "trade/BTC_USDT_")
    ensures Strings.StartsWith(key, TradePrefix("BTC_USDT"))
    ensures !Strings.StartsWith(key, TradePrefix("BTC/JPY"))
  {
    Prefixes();
    assert key[9] == "trade/BTC_USDT_"[9] == '_';
  }

  /** The history finds what the trader writes under the setting "BTC_USDT":
      its prefix starts every decision key and its close column is the one
      the dataset builds for BTC/USDT. Under the default setting "BTC/JPY" the
      prefix starts no decision key. */
  lemma MarketSettingDecidesWhatIsFound(now: AutoTrade.DateTime)
    requires Dates.Valid(now.date)
    ensures Strings.StartsWith(AutoTrade.TradeKey(now), TradePrefix("BTC_USDT"))
    ensures !Strings.StartsWith(AutoTrade.TradeKey(now), TradePrefix("BTC/JPY"))
    ensures CloseColumn("BTC_USDT") == CryptoDataset.RenameKey("close", CryptoDataset.MarketTags[1])
  {
    DecisionKeysFound(AutoTrade.TradeKey(now));
    MarketTagsAre();
  }

  /** Under the default setting the close column is none of the dataset's
      columns, whatever column name is renamed. */
  lemma DefaultCloseColumnAbsent(c: string, k: nat)
    requires k < |CryptoDataset.MarketTags|
    ensures CryptoDataset.RenameKey(c, CryptoDataset.MarketTags[k]) != CloseColumn("BTC/JPY")
  {
    MarketTagsAre();
    var tag := CryptoDataset.MarketTags[k];
    var name := CryptoDataset.RenameKey(c, tag);
    var close := CloseColumn("BTC/JPY");
    assert close[|close| - 1] == 'Y';
    if c != CryptoDataset.TimestampColumn {
      assert name[|name| - 1] == tag[|tag| - 1] == 'T';
    } else {
      assert |name| == 9 != |close|;
    }
  }

  /** A JSON value as a frame cell: text, a number, or missing for null. */
  function Cell(j: Json): Val {
    match j
    case JStr(s) => Text(s)
    case JInt(i) => Num(i as real)
    case JReal(x) => Num(x)
    case _ => Missing
  }

  /** One loaded document as a row of `pd.DataFrame(records)`. */
  function RecordRow(doc: Option<Json>): Row {
    if doc.Some? && doc.value.JObject? then map k | k in doc.value.fields :: Cell(doc.value.fields[k]) else map[]
  }

  /** `pd.to_datetime` of a text starting with an ISO date "YYYY-MM-DD"; None
      for any other text. */
  function ParseDay(s: string): (r: Option<Dates.Date>)
    ensures r.Some? ==> Dates.Valid(r.value)
  {
    if |s| >= 10 && Strings.IsDigits(s[..4]) && s[4] == '-' && Strings.IsDigits(s[5..7]) && s[7] == '-'
       && Strings.IsDigits(s[8..10]) then
      var d := Dates.Date(Strings.DigitsValue(s[..4]), Strings.DigitsValue(s[5..7]), Strings.DigitsValue(s[8..10]));
      if Dates.Valid(d) then Some(d) else None
    else None
  }

  /** `pd.to_datetime(v).floor("D")`: midnight of the day the text names; a
      missing value stays missing (NaT). */
  function FloorDay(v: Val): Result<Val> {
    match v
    case Missing => Success(Missing)
    case Text(s) =>
      if ParseDay(s).Some? then Success(Time(BinanceFetching.Midnight(ParseDay(s).value)))
      else Failure("ValueError: could not parse the execution date")
    case _ => Failure("TypeError: the execution date is not a text")
  }

  /** `trade_df["timestamp"] = ...`: each record gets the day of its
      execution date; one unreadable date fails the whole column. */
  function WithDays(rows: seq<Row>): (r: Result<seq<Row>>)
    ensures r.Success? <==> forall i :: 0 <= i < |rows| ==> FloorDay(Get(rows[i], ExecutionDate)).Success?
    ensures r.Success? ==> |r.value| == |rows|
    ensures r.Success? ==> forall i :: 0 <= i < |rows| ==>
      r.value[i] == rows[i][KeyColumn := FloorDay(Get(rows[i], ExecutionDate)).value]
  {
    if rows == [] then Success([])
    else
      match FloorDay(Get(rows[0], ExecutionDate))
      case Failure(e) => Failure(e)
      case Success(day) =>
        match WithDays(rows[1..])
        case Failure(e) => Failure(e)
        case Success(rest) => Success([rows[0][KeyColumn := day]] + rest)
  }

  /** A text made of four, two and two digits joined by dashes reads as the
      date of those numbers. */
  lemma ParseDayOfParts(y: string, m: string, dd: string, rest: string)
    requires Strings.IsDigits(y) && Strings.IsDigits(m) && Strings.IsDigits(dd)
    requires |y| == 4 && |m| == 2 && |dd| == 2
    requires Dates.Valid(Dates.Date(Strings.DigitsValue(y), Strings.DigitsValue(m), Strings.DigitsValue(dd)))
    ensures ParseDay(y + "-" + m + "-" + dd + rest)
         == Some(Dates.Date(Strings.DigitsValue(y), Strings.DigitsValue(m), Strings.DigitsValue(dd)))
  {
    var s := y + "-" + m + "-" + dd + rest;
    assert s[..4] == y;
    assert s[5..7] == m;
    assert s[8..10] == dd;
  }

  /** The ISO date text at the head of a rendered date reads back as that date. */
  lemma ParseFormatted(d: Dates.Date, rest: string)
    requires Dates.Valid(d) && d.year < 10000
    ensures ParseDay(Dates.Format(d) + rest) == Some(d)
  {
    Strings.Pow10Values();
    Strings.ZeroPadValue(d.year as nat, 4);
    Strings.ZeroPadValue(d.month as nat, 2);
    Strings.ZeroPadValue(d.day as nat, 2);
    ParseDayOfParts(Strings.ZeroPad(d.year as nat, 4), Strings.ZeroPad(d.month as nat, 2),
                    Strings.ZeroPad(d.day as nat, 2), rest);
  }

  /** A decision record's execution date, as the trader renders it, puts the
      record on midnight of its execution day. */
  lemma ExecutionDayOfRecord(now: AutoTrade.DateTime)
    requires Dates.Valid(now.date) && now.date.year < 10000
    ensures FloorDay(Text(AutoTrade.FormatDateTime(now))) == Success(Time(BinanceFetching.Midnight(now.date)))
  {
    ParseFormatted(now.date, AutoTrade.ClockText(now));
  }

  const Epoch := Dates.Date(1970, 1, 1)

  /** The calendar day of a timestamp in milliseconds since the epoch; None
      before 0001-01-01. */
  function DateOf(t: int): (r: Option<Dates.Date>)
    ensures r.Some? ==> Dates.Valid(r.value)
  {
    assert Dates.Valid(Epoch);
    Dates.ShiftDays(Epoch, t / BinanceFetching.DayMillis)
  }

  /** Midnight of a day is on that day. */
  lemma DateOfMidnight(d: Dates.Date)
    requires Dates.Valid(d)
    ensures DateOf(BinanceFetching.Midnight(d)) == Some(d)
  {
    assert Dates.Valid(Epoch);
    var k := Dates.DayNumber(d) - BinanceFetching.EpochDay;
    assert BinanceFetching.Midnight(d) / BinanceFetching.DayMillis == k;
    Dates.DayNumberPositive(d);
    Dates.ShiftDaysNumber(Epoch, k);
    Dates.DayNumberInjective(DateOf(BinanceFetching.Midnight(d)).value, d);
  }

  /** A stable sort key: timestamps in time order, missing ones (NaT) last. */
  predicate TimeLe(a: Val, b: Val) {
    if a.Time? then !b.Time? || a.t <= b.t else !b.Time?
  }

  predicate RowLe(x: Row, y: Row) {
    TimeLe(Get(x, KeyColumn), Get(y, KeyColumn))
  }

  predicate SortedByTime(rows: seq<Row>) {
    forall i, j :: 0 <= i < j < |rows| ==> RowLe(rows[i], rows[j])
  }

  function InsertByTime(x: Row, rows: seq<Row>): (r: seq<Row>)
    ensures multiset(r) == multiset(rows) + multiset{x}
  {
    if rows == [] then [x]
    else if RowLe(x, rows[0]) then [x] + rows
    else
      assert rows == [rows[0]] + rows[1..];
      [rows[0]] + InsertByTime(x, rows[1..])
  }

  /** `sort_values("timestamp", ascending=True)`. */
  function SortByTime(rows: seq<Row>): (r: seq<Row>)
    ensures multiset(r) == multiset(rows)
  {
    if rows == [] then []
    else
      assert rows == [rows[0]] + rows[1..];
      InsertByTime(rows[0], SortByTime(rows[1..]))
  }

  lemma {:induction false} InsertByTimeSorted(x: Row, rows: seq<Row>)
    requires SortedByTime(rows)
    ensures SortedByTime(InsertByTime(x, rows))
  {
    if rows != [] && !RowLe(x, rows[0]) {
      var rest := rows[1..];
      InsertByTimeSorted(x, rest);
      var r := InsertByTime(x, rows);
      assert r == [rows[0]] + InsertByTime(x, rest);
      forall j | 0 < j < |r|
        ensures RowLe(rows[0], r[j])
      {
        assert r[j] in multiset(InsertByTime(x, rest));
        assert r[j] in multiset(rest) + multiset{x};
        if r[j] != x {
          assert r[j] in rest;
        }
      }
    }
  }

  /** The sorted rows are the same rows, in time order. */
  lemma {:induction false} SortByTimeSpec(rows: seq<Row>)
    ensures SortedByTime(SortByTime(rows))
    ensures multiset(SortByTime(rows)) == multiset(rows)
  {
    if rows != [] {
      SortByTimeSpec(rows[1..]);
      InsertByTimeSorted(rows[0], SortByTime(rows[1..]));
    }
  }

  /** The joined and sorted rows: candles with their day's records. */
  function Merged(ohlcv: Table, trades: seq<Row>): seq<Row> {
    SortByTime(LeftJoinRows(ohlcv.rows, trades, KeyColumn))
  }

  /** Every key some row holds. */
  function KeysOf(rows: seq<Row>): set<string> {
    set i, k | 0 <= i < |rows| && k in rows[i] :: k
  }

  /** The columns of the merged frame: the candles' and the records'. */
  function MergedColumns(ohlcv: Table, trades: seq<Row>): set<string> {
    (set c | c in ohlcv.columns) + KeysOf(trades) + {KeyColumn}
  }

  /** The fill rule: missing prices become 0, anything else missing "N/A". */
  function FillCell(c: string, v: Val): Val {
    if v != Missing then v
    else if c == PredictedPrice || c == ExecutionPrice then Num(0.0)
    else Text("N/A")
  }

  function FillRow(r: Row, columns: set<string>): Row {
    map c | c in columns + r.Keys :: FillCell(c, Get(r, c))
  }

  /** After the fill no column of the frame has a missing cell; a present
      cell is kept, a missing price reads 0 and any other missing cell "N/A". */
  lemma FillRowSpec(r: Row, columns: set<string>, c: string)
    requires c in columns
    ensures Get(FillRow(r, columns), c) != Missing
    ensures Get(r, c) != Missing ==> Get(FillRow(r, columns), c) == Get(r, c)
    ensures Get(r, c) == Missing && (c == PredictedPrice || c == ExecutionPrice) ==> Get(FillRow(r, columns), c) == Num(0.0)
    ensures Get(r, c) == Missing && c != PredictedPrice && c != ExecutionPrice ==> Get(FillRow(r, columns), c) == Text("N/A")
  {
  }

  /** A label that stands for no position: missing, "N/A" or "HOLD". */
  predicate NoPosition(tag: Val) {
    tag == Missing || tag == Text("N/A") || tag == Text("HOLD")
  }

  function Cells(rows: seq<Row>, c: string): (r: seq<Val>)
    ensures |r| == |rows| && forall i :: 0 <= i < |rows| ==> r[i] == Get(rows[i], c)
  {
    seq(|rows|, i requires 0 <= i < |rows| => Get(rows[i], c))
  }

  /** `np.where(label.isin([None, "N/A", "HOLD"]), 0, close - execution_price)`:
      the difference is taken on every row, so one non-numeric cell fails it. */
  function Gains(rows: seq<Row>, close: string): (r: Result<seq<real>>)
    ensures r.Success? <==> forall i :: 0 <= i < |rows| ==> Get(rows[i], close).Num? && Get(rows[i], ExecutionPrice).Num?
    ensures r.Success? ==> |r.value| == |rows|
  {
    if forall i :: 0 <= i < |rows| ==> Get(rows[i], close).Num? && Get(rows[i], ExecutionPrice).Num? then
      Success(seq(|rows|, i requires 0 <= i < |rows| =>
        if NoPosition(Get(rows[i], PredictionLabel)) then 0.0 else Get(rows[i], close).x - Get(rows[i], ExecutionPrice).x))
    else Failure("TypeError: unsupported operand type(s) for -")
  }

  /** `timestamp.dt.strftime("%Y-%m-%d")`: a filled timestamp column holds
      text, which has no `.dt`. */
  function DayTexts(rows: seq<Row>): (r: Result<seq<string>>)
    ensures r.Success? ==> |r.value| == |rows|
  {
    if forall i :: 0 <= i < |rows| ==> Get(rows[i], KeyColumn).Time? then
      if forall i :: 0 <= i < |rows| ==> DateOf(Get(rows[i], KeyColumn).t).Some? then
        Success(seq(|rows|, i requires 0 <= i < |rows| => Dates.Format(DateOf(Get(rows[i], KeyColumn).t).value)))
      else Failure("OutOfBoundsDatetime")
    else Failure("AttributeError: Can only use .dt accessor with datetimelike values")
  }

  /** The first of the named columns the frame lacks. */
  function FirstMissing(columns: set<string>, names: seq<string>): (r: Option<string>)
    ensures r.None? <==> forall k :: 0 <= k < |names| ==> names[k] in columns
    ensures r.Some? ==> r.value in names && r.value !in columns
  {
    if names == [] then None
    else if names[0] !in columns then Some(names[0])
    else FirstMissing(columns, names[1..])
  }

  /** The lists `get_history` returns. */
  datatype Report = Report(dates: seq<string>, predictedPrice: seq<Val>, purchasePrices: seq<Val>,
                           currentPrices: seq<Val>, investmentAmounts: seq<Val>, unrealizedGains: seq<real>,
                           realizedProfits: seq<Val>)

  function FillRows(rows: seq<Row>, columns: set<string>): (r: seq<Row>)
    ensures |r| == |rows| && forall i :: 0 <= i < |rows| ==> r[i] == FillRow(rows[i], columns)
  {
    seq(|rows|, i requires 0 <= i < |rows| => FillRow(rows[i], columns))
  }

  /** The lists, once the rows are filled. */
  function ReportOf(rows: seq<Row>, columns: set<string>, close: string): Result<Report> {
    match Gains(rows, close)
    case Failure(e) => Failure(e)
    case Success(gains) =>
      match DayTexts(rows)
      case Failure(e) => Failure(e)
      case Success(dates) =>
        if Confidence !in columns then Failure("KeyError: 'confidence'")
        else Success(Report(dates, Cells(rows, PredictedPrice), Cells(rows, ExecutionPrice), Cells(rows, close),
                            Cells(rows, PredictedPrice), gains, Cells(rows, Confidence)))
  }

  /** `pd.DataFrame(records)`: one row per loaded document. */
  function Records(docs: seq<Option<Json>>): (r: seq<Row>)
    ensures |r| == |docs| && forall i :: 0 <= i < |docs| ==> r[i] == RecordRow(docs[i])
  {
    seq(|docs|, i requires 0 <= i < |docs| => RecordRow(docs[i]))
  }

  /** `get_history` on the loaded documents and the candles. */
  function History(market: string, docs: seq<Option<Json>>, ohlcv: Table): Result<Report> {
    if ExecutionDate !in KeysOf(Records(docs)) then Failure("KeyError: 'execution_date'")
    else
      match WithDays(Records(docs))
      case Failure(e) => Failure(e)
      case Success(trades) =>
        if KeyColumn !in ohlcv.columns then Failure("KeyError: 'timestamp'")
        else
          var columns := MergedColumns(ohlcv, trades);
          var missing := FirstMissing(columns, [PredictedPrice, ExecutionPrice, PredictionLabel, CloseColumn(market)]);
          if missing.Some? then Failure("KeyError: '" + missing.value + "'")
          else ReportOf(FillRows(Merged(ohlcv, trades), columns), columns, CloseColumn(market))
  }

  /** The filled price cell: the merged cell, or 0 where it is missing. */
  function PriceOrZero(v: Val): Val {
    if v == Missing then Num(0.0) else v
  }

  /** What the lists say about the filled rows: one entry per row, the
      dates those of the timestamps, the gain 0 without a position and the
      close less the purchase price otherwise. */
  lemma ReportOfSpec(rows: seq<Row>, columns: set<string>, close: string)
    requires ReportOf(rows, columns, close).Success?
    ensures var r := ReportOf(rows, columns, close).value;
      && |r.dates| == |r.predictedPrice| == |r.purchasePrices| == |r.currentPrices| == |rows|
      && |r.investmentAmounts| == |r.unrealizedGains| == |r.realizedProfits| == |rows|
      && r.investmentAmounts == r.predictedPrice
      && Confidence in columns
      && (forall i :: 0 <= i < |rows| ==>
            && r.predictedPrice[i] == Get(rows[i], PredictedPrice)
            && r.purchasePrices[i] == Get(rows[i], ExecutionPrice)
            && r.currentPrices[i] == Get(rows[i], close)
            && r.realizedProfits[i] == Get(rows[i], Confidence)
            && Get(rows[i], KeyColumn).Time? && DateOf(Get(rows[i], KeyColumn).t).Some?
            && r.dates[i] == Dates.Format(DateOf(Get(rows[i], KeyColumn).t).value)
            && Get(rows[i], close).Num? && Get(rows[i], ExecutionPrice).Num?
            && r.unrealizedGains[i]
               == if NoPosition(Get(rows[i], PredictionLabel)) then 0.0
                  else Get(rows[i], close).x - Get(rows[i], ExecutionPrice).x)
  {
  }

  /** The close column is never one of the two price columns. */
  lemma CloseIsNotAPrice(market: string)
    ensures CloseColumn(market) != PredictedPrice && CloseColumn(market) != ExecutionPrice
  {
    assert CloseColumn(market)[4] == 'e';
  }

  /** The report's lists read off rows before the fill: one entry per row,
      the prices with 0 for a missing cell, the date of the candle, the close
      as it is, and the gain 0 without a position and otherwise the close less
      the purchase price. */
  ghost predicate ReadsOff(rows: seq<Row>, close: string, r: Report) {
      && |r.dates| == |r.predictedPrice| == |r.purchasePrices| == |r.currentPrices| == |rows|
      && |r.investmentAmounts| == |r.unrealizedGains| == |r.realizedProfits| == |rows|
      && r.investmentAmounts == r.predictedPrice
      && (forall i :: 0 <= i < |rows| ==>
            && r.predictedPrice[i] == PriceOrZero(Get(rows[i], PredictedPrice))
            && r.purchasePrices[i] == PriceOrZero(Get(rows[i], ExecutionPrice))
            && Get(rows[i], KeyColumn).Time? && DateOf(Get(rows[i], KeyColumn).t).Some?
            && r.dates[i] == Dates.Format(DateOf(Get(rows[i], KeyColumn).t).value)
            && Get(rows[i], close).Num? && PriceOrZero(Get(rows[i], ExecutionPrice)).Num?
            && r.currentPrices[i] == Get(rows[i], close)
            && r.unrealizedGains[i]
               == if NoPosition(Get(rows[i], PredictionLabel)) then 0.0
                  else Get(rows[i], close).x - PriceOrZero(Get(rows[i], ExecutionPrice)).x)
  }

  /** The lists of filled rows, read off the rows before the fill. */
  lemma FilledReport(rows: seq<Row>, columns: set<string>, close: string)
    requires close != PredictedPrice && close != ExecutionPrice
    requires PredictedPrice in columns && ExecutionPrice in columns && close in columns
    requires KeyColumn in columns && PredictionLabel in columns
    requires ReportOf(FillRows(rows, columns), columns, close).Success?
    ensures ReadsOff(rows, close, ReportOf(FillRows(rows, columns), columns, close).value)
  {
    var filled := FillRows(rows, columns);
    ReportOfSpec(filled, columns, close);
    forall i | 0 <= i < |rows|
      ensures Get(filled[i], PredictedPrice) == PriceOrZero(Get(rows[i], PredictedPrice))
      ensures Get(filled[i], ExecutionPrice) == PriceOrZero(Get(rows[i], ExecutionPrice))
      ensures Get(filled[i], close).Num? ==> Get(rows[i], close) == Get(filled[i], close)
      ensures Get(filled[i], KeyColumn).Time? ==> Get(rows[i], KeyColumn) == Get(filled[i], KeyColumn)
      ensures NoPosition(Get(filled[i], PredictionLabel)) <==> NoPosition(Get(rows[i], PredictionLabel))
    {
      FillRowSpec(rows[i], columns, PredictedPrice);
      FillRowSpec(rows[i], columns, ExecutionPrice);
      FillRowSpec(rows[i], columns, close);
      FillRowSpec(rows[i], columns, KeyColumn);
      FillRowSpec(rows[i], columns, PredictionLabel);
    }
  }

  /** The successful history read off the joined rows before the fill: the
      rows are the left join in time order, and for each of them the prices
      are the joined cells with 0 for a day without a record, the gain is 0
      for a day without a position and otherwise the close less the purchase
      price, and the date is that of the candle. */
  lemma HistoryContents(market: string, docs: seq<Option<Json>>, ohlcv: Table)
    requires History(market, docs, ohlcv).Success?
    ensures WithDays(Records(docs)).Success?
    ensures var rows := Merged(ohlcv, WithDays(Records(docs)).value);
      && SortedByTime(rows)
      && multiset(rows) == multiset(LeftJoinRows(ohlcv.rows, WithDays(Records(docs)).value, KeyColumn))
      && ReadsOff(rows, CloseColumn(market), History(market, docs, ohlcv).value)
  {
    HistoryUnfolds(market, docs, ohlcv);
    var trades := WithDays(Records(docs)).value;
    CloseIsNotAPrice(market);
    SortByTimeSpec(LeftJoinRows(ohlcv.rows, trades, KeyColumn));
    FilledReport(Merged(ohlcv, trades), MergedColumns(ohlcv, trades), CloseColumn(market));
  }

  /** A successful history is the report of the filled, joined rows, and
      every column it reads is among the joined columns. */
  lemma HistoryUnfolds(market: string, docs: seq<Option<Json>>, ohlcv: Table)
    requires History(market, docs, ohlcv).Success?
    ensures WithDays(Records(docs)).Success?
    ensures var trades := WithDays(Records(docs)).value;
      var columns := MergedColumns(ohlcv, trades);
      && PredictedPrice in columns && ExecutionPrice in columns && PredictionLabel in columns
      && CloseColumn(market) in columns && KeyColumn in columns
      && History(market, docs, ohlcv) == ReportOf(FillRows(Merged(ohlcv, trades), columns), columns, CloseColumn(market))
  {
    var trades := WithDays(Records(docs)).value;
    var columns := MergedColumns(ohlcv, trades);
    var names := [PredictedPrice, ExecutionPrice, PredictionLabel, CloseColumn(market)];
    assert FirstMissing(columns, names).None?;
    assert names[3] == CloseColumn(market) && names[0] == PredictedPrice;
    assert names[1] == ExecutionPrice && names[2] == PredictionLabel;
  }

  /** A decision record the trader wrote on a given day lands on that day's
      candle: the joined rows hold the candle extended by the record. */
  lemma TraderRecordJoinsItsCandle(docs: seq<Option<Json>>, ohlcv: Table, i: nat,
                                   rec: AutoTrade.TradeRecord, now: AutoTrade.DateTime, candle: Row)
    requires Dates.Valid(now.date) && now.date.year < 10000
    requires WithDays(Records(docs)).Success?
    requires i < |docs| && docs[i] == Some(AutoTrade.RecordJson(rec))
    requires rec.executionDate == AutoTrade.FormatDateTime(now)
    requires candle in ohlcv.rows && Get(candle, KeyColumn) == Time(BinanceFetching.Midnight(now.date))
    ensures Get(WithDays(Records(docs)).value[i], KeyColumn) == Get(candle, KeyColumn)
    ensures candle + WithDays(Records(docs)).value[i] in Merged(ohlcv, WithDays(Records(docs)).value)
  {
    RecordDay(docs, i, rec, now);
    var trades := WithDays(Records(docs)).value;
    JoinedCandle(ohlcv, trades, i, candle);
  }

  /** The day a decision record is placed on is midnight of its execution day. */
  lemma RecordDay(docs: seq<Option<Json>>, i: nat, rec: AutoTrade.TradeRecord, now: AutoTrade.DateTime)
    requires Dates.Valid(now.date) && now.date.year < 10000
    requires WithDays(Records(docs)).Success?
    requires i < |docs| && docs[i] == Some(AutoTrade.RecordJson(rec))
    requires rec.executionDate == AutoTrade.FormatDateTime(now)
    ensures Get(WithDays(Records(docs)).value[i], KeyColumn) == Time(BinanceFetching.Midnight(now.date))
  {
    var rows := Records(docs);
    assert rows[i] == RecordRow(Some(AutoTrade.RecordJson(rec)));
    RecordExecutionDate(rec);
    ExecutionDayOfRecord(now);
    assert FloorDay(Get(rows[i], ExecutionDate)) == Success(Time(BinanceFetching.Midnight(now.date)));
    assert WithDays(rows).value[i] == rows[i][KeyColumn := Time(BinanceFetching.Midnight(now.date))];
  }

  /** A decision record's row holds its execution date as text. */
  lemma RecordExecutionDate(rec: AutoTrade.TradeRecord)
    ensures Get(RecordRow(Some(AutoTrade.RecordJson(rec))), ExecutionDate) == Text(rec.executionDate)
  {
    var fields := AutoTrade.RecordJson(rec).fields;
    assert ExecutionDate in fields && fields[ExecutionDate] == JStr(rec.executionDate);
  }

  /** A record on the day of a candle is joined onto it and kept by the sort. */
  lemma JoinedCandle(ohlcv: Table, trades: seq<Row>, i: nat, candle: Row)
    requires i < |trades| && candle in ohlcv.rows
    requires Get(trades[i], KeyColumn) == Get(candle, KeyColumn)
    ensures candle + trades[i] in Merged(ohlcv, trades)
  {
    LeftJoinRowsCover(ohlcv.rows, trades, KeyColumn, candle);
    var joined := LeftJoinRows(ohlcv.rows, trades, KeyColumn);
    assert trades[i] in trades;
    assert candle + trades[i] in joined;
    SortByTimeSpec(joined);
    assert candle + trades[i] in multiset(joined);
  }

  /** The documents at the listed keys, in listing order. */
  function Loaded(objects: map<string, Blob>, keys: seq<string>): (r: seq<Option<Json>>)
    ensures |r| == |keys| && forall i :: 0 <= i < |keys| ==> r[i] == JsonAt(objects, keys[i])
  {
    seq(|keys|, i requires 0 <= i < |keys| => JsonAt(objects, keys[i]))
  }

  /** The steps of `get_history` after the documents are loaded: the frame is
      built, joined and sorted, then filled cell by cell in place. */
  method BuildHistory(market: string, docs: seq<Option<Json>>, ohlcv: Table) returns (r: Result<Report>)
    ensures r == History(market, docs, ohlcv)
  {
    var records := Records(docs);
    if ExecutionDate !in KeysOf(records) {
      return Failure("KeyError: 'execution_date'");
    }
    var days := WithDays(records);
    if days.Failure? {
      return Failure(days.error);
    }
    if KeyColumn !in ohlcv.columns {
      return Failure("KeyError: 'timestamp'");
    }
    var trades := days.value;
    var columns := MergedColumns(ohlcv, trades);
    var merged := LeftJoinRows(ohlcv.rows, trades, KeyColumn);
    merged := SortByTime(merged);
    var missing := FirstMissing(columns, [PredictedPrice, ExecutionPrice, PredictionLabel, CloseColumn(market)]);
    if missing.Some? {
      return Failure("KeyError: '" + missing.value + "'");
    }
    merged := FillAll(merged, columns);
    r := ReportOf(merged, columns, CloseColumn(market));
  }

  /** The cell-by-cell filling of the sorted frame, one row at a time. */
  method FillAll(sorted: seq<Row>, columns: set<string>) returns (rows: seq<Row>)
    ensures rows == FillRows(sorted, columns)
  {
    rows := sorted;
    var i := 0;
    while i < |rows|
      invariant 0 <= i <= |rows| == |sorted|
      invariant forall k :: 0 <= k < i ==> rows[k] == FillRow(sorted[k], columns)
      invariant forall k :: i <= k < |rows| ==> rows[k] == sorted[k]
    {
      rows := rows[i := FillRow(rows[i], columns)];
      i := i + 1;
    }
  }

  /** `map(load_json_from_s3, keys)`: each listed document, in listing order;
      a key with no readable document gives None. */
  method LoadAll(s3: S3Store, keys: seq<string>) returns (docs: seq<Option<Json>>)
    ensures docs == Loaded(s3.objects, keys)
  {
    docs := [];
    var i := 0;
    while i < |keys|
      invariant 0 <= i <= |keys|
      invariant docs == Loaded(s3.objects, keys[..i])
    {
      var doc := s3.LoadJson(keys[i]);
      docs := docs + [doc];
      i := i + 1;
    }
    assert keys[..i] == keys;
  }

  /** The service: the settings it read at construction and the shared store. */
  class TradeHistoryService {
    const config: map<string, Json>
    const s3: S3Store

    constructor(config: map<string, Json>, s3: S3Store)
      ensures this.config == config && this.s3 == s3
    {
      this.config := config;
      this.s3 := s3;
    }

    /** `get_history`: the documents at the listed keys (the listing of the
        market's prefix) are loaded in order, then the history is built. */
    method GetHistory(keys: seq<string>, ohlcv: Table) returns (r: Result<Report>)
      requires forall k :: k in keys ==> Strings.StartsWith(k, TradePrefix(MarketText(config)))
      ensures r == History(MarketText(config), Loaded(s3.objects, keys), ohlcv)
    {
      var docs := LoadAll(s3, keys);
      r := BuildHistory(MarketText(config), docs, ohlcv);
    }
  }
}
