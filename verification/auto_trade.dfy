/** `AutoTradeService`: predict the next BTC/USDT price with the production
    models, decide BUY / SELL / HOLD against the last close with a 5% spread,
    store the decision record under `trade/` and announce it. The order
    itself is never placed: `_execute_trade` does nothing. */
module AutoTrade {
  import opened Wrappers
  import opened Frames
  import Strings
  import Dates
  import opened Artifacts
  import opened Storage

  const SpreadRate: real := 0.05

  datatype Label = Hold | Buy | Sell

  function LabelText(l: Label): string {
    match l
    case Hold => "HOLD"
    case Buy => "BUY"
    case Sell => "SELL"
  }

  function Abs(x: real): real {
    if x < 0.0 then -x else x
  }

  /** The result of `_determine_trade_action`. */
  datatype Decision = Decision(adjusted: real, confidence: real, action: Label)

  /** The execution price moved by the spread: up when a rise is predicted,
      down otherwise. */
  function Adjusted(predicted: int, execution: int): real {
    if predicted > execution then execution as real * (1.0 + SpreadRate)
    else execution as real * (1.0 - SpreadRate)
  }

  /** `_determine_trade_action`: confidence is |(predicted + adjusted) / adjusted|
      (a sum, not a difference); HOLD below 0.01, else BUY when the prediction
      beats the adjusted price, else SELL. A zero execution price divides by
      zero. */
  function DetermineTradeAction(predicted: int, execution: int): (r: Result<Decision>)
    ensures r.Failure? <==> execution == 0
    ensures r.Success? ==> r.value.adjusted == Adjusted(predicted, execution) && r.value.adjusted != 0.0
    ensures r.Success? ==>
      r.value.confidence == Abs((predicted as real + r.value.adjusted) / r.value.adjusted)
    ensures r.Success? ==> (r.value.action == Hold <==> r.value.confidence < 0.01)
    ensures r.Success? ==>
      (r.value.action == Buy <==> r.value.confidence >= 0.01 && predicted as real > r.value.adjusted)
  {
    var adjusted := Adjusted(predicted, execution);
    if adjusted == 0.0 then Failure("ZeroDivisionError: float division by zero")
    else
      var confidence := Abs((predicted as real + adjusted) / adjusted);
      var action := if confidence < 0.01 then Hold else if predicted as real > adjusted then Buy else Sell;
      Success(Decision(adjusted, confidence, action))
  }

  lemma QuotientAtLeastOne(a: real, b: real)
    requires a >= 0.0 && b > 0.0
    ensures (a + b) / b >= 1.0
  {
    assert b / b == 1.0;
    assert (a + b) / b == a / b + b / b;
    assert a / b >= 0.0;
  }

  /** For a non-negative prediction and a positive price the confidence is at
      least 1, so HOLD is never chosen. */
  lemma NeverHold(predicted: int, execution: int)
    requires predicted >= 0 && execution > 0
    ensures DetermineTradeAction(predicted, execution).Success?
    ensures DetermineTradeAction(predicted, execution).value.confidence >= 1.0
    ensures DetermineTradeAction(predicted, execution).value.action != Hold
  {
    QuotientAtLeastOne(predicted as real, Adjusted(predicted, execution));
  }

  /** With a positive price and a non-negative prediction, BUY exactly when
      the prediction is above 105% of the price, or above 95% but not above
      the price; a rise of up to 5% is a SELL. */
  lemma BuyIff(predicted: int, execution: int)
    requires predicted >= 0 && execution > 0
    ensures var p := predicted as real;
      var e := execution as real;
      (DetermineTradeAction(predicted, execution).value.action == Buy
       <==> (p > 1.05 * e || (0.95 * e < p && predicted <= execution)))
    ensures execution < predicted && predicted as real <= 1.05 * execution as real ==>
      DetermineTradeAction(predicted, execution).value.action == Sell
  {
    NeverHold(predicted, execution);
  }

  /** A HOLD against a positive price needs a negative prediction. */
  lemma HoldNeedsNegativePrediction(predicted: int, execution: int)
    requires execution > 0
    requires DetermineTradeAction(predicted, execution).Success?
    requires DetermineTradeAction(predicted, execution).value.action == Hold
    ensures predicted < 0
  {
    if predicted >= 0 {
      NeverHold(predicted, execution);
    }
  }

  /** Python's `int(x)` on a float: truncation toward zero. */
  function Trunc(x: real): (r: int)
    ensures x >= 0.0 ==> r as real <= x < r as real + 1.0
    ensures x < 0.0 ==> r as real - 1.0 < x <= r as real
  {
    if x >= 0.0 then x.Floor else -((-x).Floor)
  }

  /** A wall-clock instant (UTC). */
  datatype DateTime = DateTime(date: Dates.Date, hour: nat, minute: nat, second: nat)

  /** `strftime("%Y-%m-%d %H:%M:%S")`. */
  function FormatDateTime(t: DateTime): string
    requires Dates.Valid(t.date)
  {
    Dates.Format(t.date) + ClockText(t)
  }

  /** The `" %H:%M:%S"` part. */
  function ClockText(t: DateTime): string {
    " " + Strings.ZeroPad(t.hour, 2) + ":" + Strings.ZeroPad(t.minute, 2) + ":" + Strings.ZeroPad(t.second, 2)
  }

  const Market := "BTC_USDT"
  const TradeFolder := "trade"

  /** The record's key: `trade/BTC_USDT_{YYYY-MM-DD}.json`, one per execution day. */
  function TradeKey(now: DateTime): (k: string)
    requires Dates.Valid(now.date)
    ensures Strings.StartsWith(k, "trade/BTC_USDT_") && Strings.EndsWith(k, ".json")
  {
    var head := TradeFolder + "/" + Market + "_";
    var k := head + Dates.Format(now.date) + ".json";
    TradeKeyPieces(head, Dates.Format(now.date));
    k
  }

  /** The key's text between the folder and market prefix and the suffix. */
  function KeyDate(k: string): string
    requires |k| >= 20
  {
    k[15..|k| - 5]
  }

  lemma TradeKeyPieces(head: string, date: string)
    requires head == TradeFolder + "/" + Market + "_"
    ensures var k := head + date + ".json";
      && |k| == |date| + 20 && Strings.StartsWith(k, "trade/BTC_USDT_") && Strings.EndsWith(k, ".json")
      && KeyDate(k) == date
  {
    assert head == "trade/BTC_USDT_";
    var k := head + date + ".json";
    assert k[..15] == head;
    assert k[|k| - 5..] == ".json";
    assert k[15..|k| - 5] == date;
  }

  /** Executions on the same day share a key and executions on different
      days never do, whatever the time of day. */
  lemma TradeKeyPerDay(a: DateTime, b: DateTime)
    requires Dates.Valid(a.date) && Dates.Valid(b.date)
    ensures TradeKey(a) == TradeKey(b) <==> a.date == b.date
  {
    var head := TradeFolder + "/" + Market + "_";
    TradeKeyPieces(head, Dates.Format(a.date));
    TradeKeyPieces(head, Dates.Format(b.date));
    if TradeKey(a) == TradeKey(b) {
      assert KeyDate(TradeKey(a)) == KeyDate(TradeKey(b));
      Dates.FormatInjective(a.date, b.date);
    }
  }

  /** The prediction date: the dataset's end date (a date, so the minutes
      count only as whole days) plus lag * frame minutes. */
  function PredictionDate(end: Dates.Date, lag: int, frame: int): (r: Option<Dates.Date>)
    requires Dates.Valid(end)
    ensures r.Some? ==> Dates.Valid(r.value)
    ensures lag * frame >= 0 ==> r.Some? && Dates.DayNumber(r.value) == Dates.DayNumber(end) + (lag * frame) / 1440
  {
    var days := (lag * frame) / 1440;
    Dates.ShiftDaysNumber(end, days);
    Dates.ShiftDays(end, days)
  }

  datatype TradeRecord = TradeRecord(executionDate: string, predictionDate: string, executionPrice: int,
                                     predictedPrice: int, market: string, action: Label, confidence: real)

  function RecordJson(r: TradeRecord): Json {
    JObject(map[
      "execution_date" := JStr(r.executionDate),
      "prediction_date" := JStr(r.predictionDate),
      "execution_price" := JInt(r.executionPrice),
      "predicted_price" := JInt(r.predictedPrice),
      "market" := JStr(r.market),
      "prediction_label" := JStr(LabelText(r.action)),
      "confidence" := JReal(r.confidence)])
  }

  /** `int(raw.iloc[-1]["close_BTC_USDT"])`. */
  function LastClose(raw: Table): (r: Result<int>)
    ensures r.Success? ==> |raw.rows| > 0 && "close_BTC_USDT" in raw.columns
    ensures r.Success? ==> Get(raw.rows[|raw.rows| - 1], "close_BTC_USDT").Num?
    ensures r.Success? ==> r.value == Trunc(Get(raw.rows[|raw.rows| - 1], "close_BTC_USDT").x)
  {
    if |raw.rows| == 0 then Failure("IndexError: single positional indexer is out-of-bounds")
    else if "close_BTC_USDT" !in raw.columns then Failure("KeyError: 'close_BTC_USDT'")
    else
      match Get(raw.rows[|raw.rows| - 1], "close_BTC_USDT")
      case Num(x) => Success(Trunc(x))
      case Missing => Failure("ValueError: cannot convert float NaN to integer")
      case _ => Failure("TypeError: int() argument must be a real number")
  }

  /** `int(y_pred[-1][0])`. */
  function LastPrediction(yPred: Matrix): (r: Result<int>)
    ensures r.Success? <==> |yPred| > 0 && |yPred[|yPred| - 1]| > 0
    ensures r.Success? ==> r.value == Trunc(yPred[|yPred| - 1][0])
  {
    if |yPred| == 0 || |yPred[|yPred| - 1]| == 0 then Failure("IndexError: index out of bounds")
    else Success(Trunc(yPred[|yPred| - 1][0]))
  }

  /** The decision record `_predict` builds, in the source's order of checks. */
  function BuildRecord(raw: Table, yPred: Matrix, now: DateTime, end: Dates.Date, lag: int, frame: int): (r: Result<TradeRecord>)
    requires Dates.Valid(now.date) && Dates.Valid(end)
    ensures r.Success? ==>
      && LastClose(raw).Success? && LastPrediction(yPred).Success?
      && r.value.executionPrice == LastClose(raw).value
      && r.value.predictedPrice == LastPrediction(yPred).value
      && DetermineTradeAction(r.value.predictedPrice, r.value.executionPrice).Success?
      && r.value.action == DetermineTradeAction(r.value.predictedPrice, r.value.executionPrice).value.action
      && r.value.confidence == DetermineTradeAction(r.value.predictedPrice, r.value.executionPrice).value.confidence
      && r.value.market == Market
      && r.value.executionDate == FormatDateTime(now)
      && PredictionDate(end, lag, frame).Some?
      && r.value.predictionDate == Dates.Format(PredictionDate(end, lag, frame).value) + " 00:00:00"
    ensures LastClose(raw).Success? && LastClose(raw).value == 0 ==> r.Failure?
  {
    match PredictionDate(end, lag, frame)
    case None => Failure("OverflowError: date value out of range")
    case Some(pd) =>
      match LastClose(raw)
      case Failure(e) => Failure(e)
      case Success(execution) =>
        match LastPrediction(yPred)
        case Failure(e) => Failure(e)
        case Success(predicted) =>
          match DetermineTradeAction(predicted, execution)
          case Failure(e) => Failure(e)
          case Success(trade) =>
            Success(TradeRecord(FormatDateTime(now), Dates.Format(pd) + " 00:00:00", execution, predicted,
                                Market, trade.action, trade.confidence))
  }

  /** The Slack notice: the no-trade text or the trade text, with a
      "[Develop]" prefix in debug mode. The trade text shows the execution
      date on its prediction-date line. */
  datatype Notice =
    | NoTrade(predictionDate: string, executionPrice: int, predictedPrice: int, confidence: real, develop: bool)
    | TradeDone(market: string, action: Label, shownDate: string, executionPrice: int, predictedPrice: int,
                confidence: real, develop: bool)

  function NoticeFor(r: TradeRecord, debug: bool): (n: Notice)
    ensures n.NoTrade? <==> r.action == Hold
    ensures n.develop == debug && n.executionPrice == r.executionPrice && n.predictedPrice == r.predictedPrice
    ensures n.TradeDone? ==> n.shownDate == r.executionDate && n.action == r.action && n.market == r.market
  {
    if r.action == Hold then NoTrade(r.predictionDate, r.executionPrice, r.predictedPrice, r.confidence, debug)
    else TradeDone(r.market, r.action, r.executionDate, r.executionPrice, r.predictedPrice, r.confidence, debug)
  }

  /** With a non-negative prediction, the no-trade notice is never sent. */
  lemma NoticeAlwaysTrade(raw: Table, yPred: Matrix, now: DateTime, end: Dates.Date, lag: int, frame: int, debug: bool)
    requires Dates.Valid(now.date) && Dates.Valid(end)
    requires BuildRecord(raw, yPred, now, end, lag, frame).Success?
    requires BuildRecord(raw, yPred, now, end, lag, frame).value.predictedPrice >= 0
    requires BuildRecord(raw, yPred, now, end, lag, frame).value.executionPrice > 0
    ensures NoticeFor(BuildRecord(raw, yPred, now, end, lag, frame).value, debug).TradeDone?
  {
    var r := BuildRecord(raw, yPred, now, end, lag, frame).value;
    NeverHold(r.predictedPrice, r.executionPrice);
  }

  class AutoTradeService {
    const s3: S3Store
    const debug: bool

    constructor(s3: S3Store, debug: bool)
      ensures this.s3 == s3 && this.debug == debug
    {
      this.s3 := s3;
      this.debug := debug;
    }

    /** The tail of `_predict`: build the record from the raw prices and the
        unscaled predictions, and store it under today's key. */
    method Predict(raw: Table, yPred: Matrix, now: DateTime, end: Dates.Date, lag: int, frame: int)
      returns (r: Result<TradeRecord>)
      requires Dates.Valid(now.date) && Dates.Valid(end)
      modifies s3
      ensures r == BuildRecord(raw, yPred, now, end, lag, frame)
      ensures r.Success? ==> s3.objects == old(s3.objects)[TradeKey(now) := JsonDoc(RecordJson(r.value))]
      ensures r.Failure? ==> s3.objects == old(s3.objects)
    {
      r := BuildRecord(raw, yPred, now, end, lag, frame);
      if r.Success? {
        s3.SaveJson(RecordJson(r.value), TradeKey(now));
      }
    }

    /** `run`: predict, execute (a no-op), notify. The stored record is the
        only change: no order is placed. */
    method Run(raw: Table, yPred: Matrix, now: DateTime, end: Dates.Date, lag: int, frame: int)
      returns (r: Result<Notice>)
      requires Dates.Valid(now.date) && Dates.Valid(end)
      modifies s3
      ensures var rec := BuildRecord(raw, yPred, now, end, lag, frame);
        && (r.Success? <==> rec.Success?)
        && (r.Success? ==> r.value == NoticeFor(rec.value, debug))
        && (r.Success? ==> s3.objects == old(s3.objects)[TradeKey(now) := JsonDoc(RecordJson(rec.value))])
        && (r.Failure? ==> s3.objects == old(s3.objects))
    {
      var rec := Predict(raw, yPred, now, end, lag, frame);
      if rec.Failure? {
        return Failure(rec.error);
      }
      r := Success(NoticeFor(rec.value, debug));
    }
  }
}
