/** `SignalPredictor`: the latest buy and sell predictions of the production
    models, lined up with the last candles of the training dataset and turned
    into a predicted price. The dataset download, the feature pipeline and
    the models themselves are upstream: the raw candle table and the two
    models' predictions come in as values, and so does the configuration. */
module Signals {
  import opened Wrappers
  import opened Frames
  import opened Artifacts
  import Strings
  import MarketSymbols
  import ModelBase
  import LogZScaling
  import CryptoDataset
  import TradeHistory
  import ConfigManagement

  const ProductionStage := "production"
  const SignalBuy := "buy_signal"
  const SignalSell := "sell_signal"
  const TimestampColumn := "timestamp"

  /** The candle columns read, in the order they are read. */
  const Prefixes: seq<string> := ["open_", "close_", "high_", "low_"]

  datatype Signal = Signal(signal: string, confidence: real)

  /** `get_signals`: a placeholder that always answers a buy at 0.95. */
  function GetSignals(): (r: Signal)
    ensures r.signal == "buy" && r.confidence == 0.95
  {
    Signal("buy", 0.95)
  }

  /** The lists `get_predict_signals` returns. */
  datatype Prediction = Prediction(buy: seq<real>, sell: seq<real>, date: seq<Val>, open: seq<Val>,
                                   close: seq<Val>, high: seq<Val>, low: seq<Val>, predictPrice: seq<Val>)

  /** Python's `xs[-n:]`: the last n items. Since `-0` is 0, n = 0 keeps
      them all, and so does an n beyond the length. */
  function Tail<T>(xs: seq<T>, n: nat): (r: seq<T>)
    ensures |r| == if 0 < n <= |xs| then n else |xs|
    ensures r == xs[|xs| - |r|..]
  {
    if 0 < n <= |xs| then xs[|xs| - n..] else xs
  }

  /** `[-x for x in xs]`. */
  function Negate(xs: seq<real>): (r: seq<real>)
    ensures |r| == |xs| && forall i :: 0 <= i < |xs| ==> r[i] == -xs[i]
  {
    seq(|xs|, i requires 0 <= i < |xs| => -xs[i])
  }

  lemma NegateTwice(xs: seq<real>)
    ensures Negate(Negate(xs)) == xs
  {
  }

  /** `market_symbol(prefix=p)` as the column name: the prefix and the
      lower-cased setting. */
  function PriceColumnAsWritten(prefix: string, config: map<string, Json>): Result<string> {
    MarketSymbols.MarketSymbol(None, "raw", Some(prefix), config)
  }

  /** The column name as the dataset writes it: the same check of the
      setting, then the prefix and the setting with its case kept. */
  function PriceColumn(prefix: string, config: map<string, Json>): Result<string> {
    match CheckedSymbol(config)
    case Failure(e) => Failure(e)
    case Success(s) => Success(prefix + s)
  }

  /** The corrected name exists exactly when the as-written one does; the
      two differ only in the case of the setting. */
  lemma PriceColumnAgrees(prefix: string, config: map<string, Json>)
    ensures PriceColumn(prefix, config).Success? <==> PriceColumnAsWritten(prefix, config).Success?
    ensures PriceColumn(prefix, config).Success? ==>
      && PriceColumn(prefix, config).value == prefix + CheckedSymbol(config).value
      && PriceColumnAsWritten(prefix, config).value == prefix + Strings.Lower(CheckedSymbol(config).value)
  {
  }

  /** The setting, once the formatting has accepted it; whether it does is
      the same for every prefix. */
  function CheckedSymbol(config: map<string, Json>): Result<string> {
    match MarketSymbols.ChosenSymbol(None, config)
    case Failure(e) => Failure(e)
    case Success(s) =>
      match MarketSymbols.Format(s, "raw", None)
      case Failure(e) => Failure(e)
      case Success(_) => Success(s)
  }

  lemma LowerNeverUpperT(s: string, i: nat)
    requires i < |s|
    ensures Strings.Lower(s)[i] != 'T'
  {
  }

  /** The dataset's columns: the timestamp, and each fetched column with the
      market tag appended. */
  ghost predicate DatasetColumn(name: string) {
    exists c: string, k: nat :: k < |CryptoDataset.MarketTags| && name == CryptoDataset.RenameKey(c, CryptoDataset.MarketTags[k])
  }

  /** As written, none of the four columns is ever one the dataset has: the
      lower-cased name ends in a lower-case letter or a digit where every
      tagged column ends in the "T" of "USDT". */
  lemma AsWrittenColumnNeverInDataset(k: nat, config: map<string, Json>)
    requires k < |Prefixes|
    requires PriceColumnAsWritten(Prefixes[k], config).Success?
    ensures !DatasetColumn(PriceColumnAsWritten(Prefixes[k], config).value)
  {
    var name := PriceColumnAsWritten(Prefixes[k], config).value;
    var s := MarketSymbols.ChosenSymbol(None, config).value;
    MarketSymbols.FormatSpec(s, "raw", Some(Prefixes[k]));
    var lower := Strings.Lower(s);
    assert name == Prefixes[k] + lower;
    assert |lower| == |s| > 0;
    LowerNeverUpperT(s, |s| - 1);
    assert name[|name| - 1] == lower[|s| - 1];
    assert name[0] == Prefixes[k][0];
    NeitherEndMatches(name);
  }

  /** A name that neither starts with the "t" of "timestamp" nor ends with
      the "T" of "USDT" is none of the dataset's columns. */
  lemma NeitherEndMatches(name: string)
    requires |name| > 0 && name[0] != 't' && name[|name| - 1] != 'T'
    ensures !DatasetColumn(name)
  {
    TradeHistory.MarketTagsAre();
    forall c: string, j: nat | j < |CryptoDataset.MarketTags|
      ensures name != CryptoDataset.RenameKey(c, CryptoDataset.MarketTags[j])
    {
      var tag := CryptoDataset.MarketTags[j];
      var col := CryptoDataset.RenameKey(c, tag);
      if c == CryptoDataset.TimestampColumn {
        assert col[0] == 't';
      } else {
        assert tag[|tag| - 1] == 'T';
        assert col[|col| - 1] == 'T';
      }
    }
  }

  /** With the trader's market "BTC_USDT", each corrected column is the one
      the dataset wrote for that candle value. */
  lemma PriceColumnMatchesDataset(v: string, config: map<string, Json>)
    requires v != CryptoDataset.TimestampColumn
    requires config == map["market_symbol" := JStr("BTC_USDT")]
    ensures PriceColumn(v + "_", config) == Success(CryptoDataset.RenameKey(v, CryptoDataset.MarketTags[1]))
  {
    BtcUsdtChecked(config);
    TradeHistory.MarketTagsAre();
  }

  /** "BTC_USDT" passes the formatting's check. */
  lemma BtcUsdtChecked(config: map<string, Json>)
    requires config == map["market_symbol" := JStr("BTC_USDT")]
    ensures CheckedSymbol(config) == Success("BTC_USDT")
  {
    BtcUsdtOneUnderscore();
    MarketSymbols.FormatSpec("BTC_USDT", "raw", None);
  }

  lemma BtcUsdtOneUnderscore()
    ensures Strings.Count("BTC_USDT", '_') == 1
  {
    Strings.SplitNoSeparator("USDT", '_');
    Strings.SplitAtSeparator("BTC", "USDT", '_');
    assert "BTC_USDT" == "BTC" + ['_'] + "USDT";
  }

  /** `raw_data[column][-n:]`: a column the table lacks raises KeyError. */
  function Series(raw: Table, prefix: string, config: map<string, Json>, n: nat): Result<seq<Val>> {
    match PriceColumn(prefix, config)
    case Failure(e) => Failure(e)
    case Success(c) => if c in raw.columns then Success(Tail(Column(raw, c), n)) else Failure("KeyError: '" + c + "'")
  }

  /** The values of a list of outcomes, or the first failure among them. */
  function Collect<T>(rs: seq<Result<T>>): (r: Result<seq<T>>)
    ensures r.Success? <==> forall k :: 0 <= k < |rs| ==> rs[k].Success?
    ensures r.Success? ==> |r.value| == |rs| && forall k :: 0 <= k < |rs| ==> r.value[k] == rs[k].value
    ensures r.Failure? ==> exists k :: 0 <= k < |rs| && rs[k].Failure? && r.error == rs[k].error
                                       && forall j :: 0 <= j < k ==> rs[j].Success?
  {
    if rs == [] then Success([])
    else
      match rs[0]
      case Failure(e) => Failure(e)
      case Success(x) =>
        var rest := Collect(rs[1..]);
        if rest.Failure? then
          var k :| 0 <= k < |rs[1..]| && rs[1..][k].Failure? && rest.error == rs[1..][k].error
                   && forall j :: 0 <= j < k ==> rs[1..][j].Success?;
          assert rs[k + 1] == rs[1..][k];
          Failure(rest.error)
        else Success([x] + rest.value)
  }

  /** The four candle series, read in order; the first failure is raised. */
  function AllSeries(raw: Table, prefixes: seq<string>, config: map<string, Json>, n: nat): (r: Result<seq<seq<Val>>>)
    ensures r.Success? <==> forall k :: 0 <= k < |prefixes| ==> Series(raw, prefixes[k], config, n).Success?
    ensures r.Success? ==> |r.value| == |prefixes|
    ensures r.Success? ==> forall k :: 0 <= k < |prefixes| ==> r.value[k] == Series(raw, prefixes[k], config, n).value
  {
    Collect(EachSeries(raw, prefixes, config, n))
  }

  /** The outcome of each series, in the order of `prefixes`. */
  function EachSeries(raw: Table, prefixes: seq<string>, config: map<string, Json>, n: nat): (rs: seq<Result<seq<Val>>>)
    ensures |rs| == |prefixes|
    ensures forall k :: 0 <= k < |prefixes| ==> rs[k] == Series(raw, prefixes[k], config, n)
  {
    seq(|prefixes|, k requires 0 <= k < |prefixes| => Series(raw, prefixes[k], config, n))
  }

  /** `config_data.get(key)` used as a factor: a number (a bool counts as
      0 or 1); anything else, None included, cannot multiply an array. */
  function Rate(config: map<string, Json>, key: string): (r: Result<real>)
    ensures key !in config ==> r.Failure?
  {
    if key !in config then Failure("TypeError: unsupported operand type(s) for *: 'float' and 'NoneType'")
    else
      match config[key]
      case JReal(x) => Success(x)
      case JInt(i) => Success(i as real)
      case JBool(b) => Success(if b then 1.0 else 0.0)
      case _ => Failure("TypeError: unsupported operand type(s) for *")
  }

  /** numpy's broadcast length of two 1-d operands: equal lengths, or one of
      them of length 1; otherwise the operation raises. */
  function BroadcastLength(a: nat, b: nat): (r: Option<nat>)
    ensures r.Some? ==> (a == r.value || a == 1) && (b == r.value || b == 1)
    ensures r.None? <==> a != b && a != 1 && b != 1
    ensures a == b ==> r == Some(a)
  {
    if a == b then Some(a) else if a == 1 then Some(b) else if b == 1 then Some(a) else None
  }

  /** The operand index used for result index i: 0 for a broadcast operand. */
  function Pick(i: nat, len: nat): nat {
    if len == 1 then 0 else i
  }

  /** `1 + buy * tb + sell * ts`, elementwise with broadcasting. */
  function Factors(buy: seq<real>, sell: seq<real>, tb: real, ts: real): (r: Result<seq<real>>)
    ensures r.Success? <==> BroadcastLength(|buy|, |sell|).Some?
    ensures r.Success? ==> |r.value| == BroadcastLength(|buy|, |sell|).value
    ensures r.Success? ==> forall i :: 0 <= i < |r.value| ==>
      r.value[i] == 1.0 + buy[Pick(i, |buy|)] * tb + sell[Pick(i, |sell|)] * ts
  {
    match BroadcastLength(|buy|, |sell|)
    case None => Failure("ValueError: operands could not be broadcast together")
    case Some(m) =>
      Success(seq(m, i requires 0 <= i < m => 1.0 + buy[Pick(i, |buy|)] * tb + sell[Pick(i, |sell|)] * ts))
  }

  /** A cell pandas can multiply: a number, or NaN which stays NaN. */
  predicate Numeric(v: Val) {
    v.Num? || v == Missing
  }

  function Times(v: Val, k: real): Val {
    if v.Num? then Num(v.x * k) else v
  }

  /** `close * factors` for a pandas Series `close` and a numpy array: the
      product is computed with numpy broadcasting (a text or time cell cannot
      be multiplied) and then rebuilt as a Series on close's own index, so a
      broadcast length other than |close| raises as well. */
  function Prices(close: seq<Val>, factors: seq<real>): (r: Result<seq<Val>>)
    ensures r.Success? <==> (BroadcastLength(|close|, |factors|) == Some(|close|) &&
      forall i :: 0 <= i < |close| ==> Numeric(close[i]))
    ensures r.Success? ==> |r.value| == |close|
    ensures r.Success? ==> forall i :: 0 <= i < |r.value| ==>
      r.value[i] == Times(close[i], factors[Pick(i, |factors|)])
  {
    match BroadcastLength(|close|, |factors|)
    case None => Failure("ValueError: operands could not be broadcast together")
    case Some(m) =>
      if m != |close| then
        // |close| is 1 here: its one cell is multiplied before the index check
        if m > 0 && !Numeric(close[0]) then Failure("TypeError: unsupported operand type(s) for *")
        else Failure("ValueError: Length of values does not match length of index")
      else if !(forall i :: 0 <= i < m ==> Numeric(close[i])) then
        Failure("TypeError: unsupported operand type(s) for *")
      else Success(seq(m, i requires 0 <= i < m => Times(close[i], factors[Pick(i, |factors|)])))
  }

  /** A one-row close Series times a longer (or empty) factor array raises,
      although numpy alone would broadcast the single close. */
  lemma OneCloseNeedsOneFactor(close: Val, factors: seq<real>)
    requires close.Num? && |factors| != 1
    ensures BroadcastLength(1, |factors|).Some?
    ensures Prices([close], factors).Failure?
  {
  }

  /** `get_predict_signals` from the two models' predictions: the sell
      predictions negated, the candle series cut to the last len(buy) rows,
      and the predicted price `close * (1 + buy * tb + sell * ts)`. */
  function PredictSignals(raw: Table, predBuy: seq<real>, predSell: seq<real>, config: map<string, Json>): Result<Prediction> {
    var buy := predBuy;
    var sell := Negate(predSell);
    var n := |buy|;
    match AllSeries(raw, Prefixes, config, n)
    case Failure(e) => Failure(e)
    case Success(ohlc) =>
      match PriceOf(ohlc[1], buy, sell, config)
      case Failure(e) => Failure(e)
      case Success(prices) =>
        if TimestampColumn !in raw.columns then Failure("KeyError: 'timestamp'")
        else Success(Prediction(buy, sell, Tail(Column(raw, TimestampColumn), n),
                                ohlc[0], ohlc[1], ohlc[2], ohlc[3], prices))
  }

  /** `close * (1 + buy * tb + sell * ts)` with the two target rates read
      from the settings, in that order, each step raising as it does. */
  function PriceOf(close: seq<Val>, buy: seq<real>, sell: seq<real>, config: map<string, Json>): Result<seq<Val>> {
    match Rate(config, "target_buy_rate")
    case Failure(e) => Failure(e)
    case Success(tb) =>
      match Rate(config, "target_sell_rate")
      case Failure(e) => Failure(e)
      case Success(ts) =>
        match Factors(buy, sell, tb, ts)
        case Failure(e) => Failure(e)
        case Success(factors) => Prices(close, factors)
  }

  /** How a prediction is put together from its inputs: the buy list as
      predicted, the sell list negated, every candle list the last len(buy)
      rows of its column, and the prices the close series times the factors. */
  ghost predicate Assembled(raw: Table, predBuy: seq<real>, predSell: seq<real>, config: map<string, Json>, r: Prediction) {
    var n := |predBuy|;
    && r.buy == predBuy && r.sell == Negate(predSell)
    && r.date == Tail(Column(raw, TimestampColumn), n)
    && PriceColumn("open_", config).Success? && PriceColumn("close_", config).Success?
    && PriceColumn("high_", config).Success? && PriceColumn("low_", config).Success?
    && r.open == Tail(Column(raw, PriceColumn("open_", config).value), n)
    && r.close == Tail(Column(raw, PriceColumn("close_", config).value), n)
    && r.high == Tail(Column(raw, PriceColumn("high_", config).value), n)
    && r.low == Tail(Column(raw, PriceColumn("low_", config).value), n)
    && Priced(r.close, predBuy, predSell, config, r.predictPrice)
  }

  /** The prices are the closes times the factors of the two target rates. */
  ghost predicate Priced(close: seq<Val>, predBuy: seq<real>, predSell: seq<real>, config: map<string, Json>, prices: seq<Val>) {
    PriceOf(close, predBuy, Negate(predSell), config) == Success(prices)
  }

  /** A successful prediction is assembled as described. */
  lemma PredictSignalsParts(raw: Table, predBuy: seq<real>, predSell: seq<real>, config: map<string, Json>)
    requires PredictSignals(raw, predBuy, predSell, config).Success?
    ensures Assembled(raw, predBuy, predSell, config, PredictSignals(raw, predBuy, predSell, config).value)
  {
    assert Prefixes[0] == "open_" && Prefixes[1] == "close_" && Prefixes[2] == "high_" && Prefixes[3] == "low_";
    assert forall k :: 0 <= k < |Prefixes| ==> Series(raw, Prefixes[k], config, |predBuy|).Success?;
  }

  /** The date and close lists of an assembled prediction, row by row. */
  lemma AssembledRows(raw: Table, n: nat, close: string, r: Prediction)
    requires 0 < n <= |raw.rows|
    requires r.date == Tail(Column(raw, TimestampColumn), n) && r.close == Tail(Column(raw, close), n)
    ensures |r.date| == |r.close| == n
    ensures forall i :: 0 <= i < n ==>
      && r.date[i] == Get(raw.rows[|raw.rows| - n + i], TimestampColumn)
      && r.close[i] == Get(raw.rows[|raw.rows| - n + i], close)
  {
    TailAligned(Column(raw, close), n);
    TailAligned(Column(raw, TimestampColumn), n);
  }

  /** The prices of an assembled prediction, row by row. */
  lemma AssembledPrices(close: seq<Val>, predBuy: seq<real>, predSell: seq<real>, config: map<string, Json>, prices: seq<Val>)
    requires Priced(close, predBuy, predSell, config, prices)
    requires |close| == |predBuy| == |predSell|
    ensures Rate(config, "target_buy_rate").Success? && Rate(config, "target_sell_rate").Success?
    ensures |prices| == |predBuy|
    ensures forall i :: 0 <= i < |predBuy| ==>
      prices[i] == Times(close[i], 1.0 + predBuy[i] * Rate(config, "target_buy_rate").value
                                   - predSell[i] * Rate(config, "target_sell_rate").value)
  {
    AlignedPrices(close, predBuy, predSell, Rate(config, "target_buy_rate").value,
                  Rate(config, "target_sell_rate").value, prices);
  }

  /** When the table has at least len(buy) rows and there are as many sell
      as buy predictions, every list has one entry per prediction, the close
      at i is that of the i-th of the last len(buy) rows, and the price at i
      is that close scaled by 1 + buy·tb − sell·ts. */
  lemma PredictSignalsAligned(raw: Table, predBuy: seq<real>, predSell: seq<real>, config: map<string, Json>)
    requires PredictSignals(raw, predBuy, predSell, config).Success?
    requires 0 < |predBuy| <= |raw.rows| && |predSell| == |predBuy|
    ensures var r := PredictSignals(raw, predBuy, predSell, config).value;
      var n := |predBuy|;
      && PriceColumn("close_", config).Success?
      && Rate(config, "target_buy_rate").Success? && Rate(config, "target_sell_rate").Success?
      && |r.date| == |r.open| == |r.close| == |r.high| == |r.low| == |r.predictPrice| == n
      && forall i :: 0 <= i < n ==>
           && r.date[i] == Get(raw.rows[|raw.rows| - n + i], TimestampColumn)
           && r.close[i] == Get(raw.rows[|raw.rows| - n + i], PriceColumn("close_", config).value)
           && r.predictPrice[i]
              == Times(r.close[i], 1.0 + predBuy[i] * Rate(config, "target_buy_rate").value
                                   - predSell[i] * Rate(config, "target_sell_rate").value)
  {
    PredictSignalsParts(raw, predBuy, predSell, config);
    AssembledAligned(raw, predBuy, predSell, config, PredictSignals(raw, predBuy, predSell, config).value);
  }

  /** The alignment of any assembled prediction. */
  lemma AssembledAligned(raw: Table, predBuy: seq<real>, predSell: seq<real>, config: map<string, Json>, r: Prediction)
    requires 0 < |predBuy| <= |raw.rows| && |predSell| == |predBuy|
    requires PriceColumn("close_", config).Success?
    requires r.date == Tail(Column(raw, TimestampColumn), |predBuy|)
    requires r.close == Tail(Column(raw, PriceColumn("close_", config).value), |predBuy|)
    requires |r.open| == |r.high| == |r.low| == |predBuy|
    requires Priced(r.close, predBuy, predSell, config, r.predictPrice)
    ensures var n := |predBuy|;
      && PriceColumn("close_", config).Success?
      && Rate(config, "target_buy_rate").Success? && Rate(config, "target_sell_rate").Success?
      && |r.date| == |r.open| == |r.close| == |r.high| == |r.low| == |r.predictPrice| == n
      && forall i :: 0 <= i < n ==>
           && r.date[i] == Get(raw.rows[|raw.rows| - n + i], TimestampColumn)
           && r.close[i] == Get(raw.rows[|raw.rows| - n + i], PriceColumn("close_", config).value)
           && r.predictPrice[i]
              == Times(r.close[i], 1.0 + predBuy[i] * Rate(config, "target_buy_rate").value
                                   - predSell[i] * Rate(config, "target_sell_rate").value)
  {
    var n := |predBuy|;
    AssembledRows(raw, n, PriceColumn("close_", config).value, r);
    AssembledPrices(r.close, predBuy, predSell, config, r.predictPrice);
    assert |r.predictPrice| == n;
  }

  /** The last n items of a list at least n long, position by position. */
  lemma TailAligned<T>(xs: seq<T>, n: nat)
    requires 0 < n <= |xs|
    ensures |Tail(xs, n)| == n && forall i :: 0 <= i < n ==> Tail(xs, n)[i] == xs[|xs| - n + i]
  {
  }

  /** With operands of one length there is no broadcasting: the price at i
      is the close at i times 1 + buy·tb − sell·ts. */
  lemma AlignedPrices(close: seq<Val>, buy: seq<real>, sell: seq<real>, tb: real, ts: real, prices: seq<Val>)
    requires |close| == |buy| == |sell|
    requires Factors(buy, Negate(sell), tb, ts).Success?
    requires Prices(close, Factors(buy, Negate(sell), tb, ts).value) == Success(prices)
    ensures |prices| == |buy|
    ensures forall i :: 0 <= i < |buy| ==> prices[i] == Times(close[i], 1.0 + buy[i] * tb - sell[i] * ts)
  {
    var n := |buy|;
    var factors := Factors(buy, Negate(sell), tb, ts).value;
    forall i | 0 <= i < n
      ensures prices[i] == Times(close[i], 1.0 + buy[i] * tb - sell[i] * ts)
    {
      assert Pick(i, n) == i;
      assert factors[i] == 1.0 + buy[i] * tb + Negate(sell)[i] * ts;
    }
  }

  /** The settings the configuration route validates carry no target rates,
      so a prediction on them always raises. */
  lemma ValidatedSettingsCannotPredict(raw: Table, predBuy: seq<real>, predSell: seq<real>, c: ConfigManagement.Config)
    ensures PredictSignals(raw, predBuy, predSell, ConfigManagement.ToFields(c)).Failure?
  {
    assert "target_buy_rate" !in ConfigManagement.ToFields(c);
  }

  /** `model.load_model(signal)` as written: `EnsembleModel.load_model`
      takes no argument besides the model, so the call raises. */
  function LoadSignalModelAsWritten(signal: string): (r: Result<string>)
    ensures r.Failure?
  {
    Failure("TypeError: load_model() takes 1 positional argument but 2 were given")
  }

  /** The artifact a production ensemble loads from (`load_model()`): its one
      XGBoost model under the production stage, whichever signal it is for. */
  function SignalModelKey(folder: string, signal: string): string {
    ModelBase.ArtifactKey(folder, ProductionStage, ModelBase.ModelFilename("xgboost"))
  }

  /** Both models and the scaler read the production artifacts, never the
      staging ones; the buy and the sell model read the same file. */
  lemma ProductionArtifacts(folder: string)
    ensures SignalModelKey(folder, SignalBuy) == SignalModelKey(folder, SignalSell)
    ensures SignalModelKey(folder, SignalBuy)
         != ModelBase.ArtifactKey(folder, "staging", ModelBase.ModelFilename("xgboost"))
    ensures LogZScaling.ScalerKey(ProductionStage) != LogZScaling.ScalerKey("staging")
  {
    ModelBase.ArtifactKeysByStage(folder, ProductionStage, "staging", ModelBase.ModelFilename("xgboost"));
    assert LogZScaling.ScalerKey(ProductionStage)[10] == 'p';
    assert LogZScaling.ScalerKey("staging")[10] == 's';
  }

  /** Since both models are the same file, the sell list is the buy list
      negated and the price moves by buy · (tb − ts). */
  lemma SameModelMirrors(raw: Table, pred: seq<real>, config: map<string, Json>)
    requires PredictSignals(raw, pred, pred, config).Success?
    requires 0 < |pred| <= |raw.rows|
    ensures var r := PredictSignals(raw, pred, pred, config).value;
      && r.sell == Negate(r.buy)
      && forall i :: 0 <= i < |pred| ==>
           r.predictPrice[i]
           == Times(r.close[i], 1.0 + pred[i] * (Rate(config, "target_buy_rate").value - Rate(config, "target_sell_rate").value))
  {
    PredictSignalsAligned(raw, pred, pred, config);
    var tb := Rate(config, "target_buy_rate").value;
    var ts := Rate(config, "target_sell_rate").value;
    forall i | 0 <= i < |pred|
      ensures 1.0 + pred[i] * tb - pred[i] * ts == 1.0 + pred[i] * (tb - ts)
    {
    }
  }
}
