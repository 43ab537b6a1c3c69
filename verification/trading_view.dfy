/** `trading_view`: the prediction summary and the chart of the trading
    screen. The drawing library is left out: the model computes what is
    drawn, the trend label and figures of the summary, the signal markers
    and the open-order lines. */
module TradingView {
  import opened Wrappers
  import Signals

  datatype Trend = Up | Down | Neutral

  function Abs(x: real): real {
    if x < 0.0 then -x else x
  }

  /** The trend of the last buy and sell predictions: the one larger in
      magnitude wins, and a tie is neutral. */
  function TrendOf(buy: real, sell: real): (t: Trend)
    ensures t == Up <==> Abs(buy) > Abs(sell)
    ensures t == Down <==> Abs(sell) > Abs(buy)
    ensures t == Neutral <==> Abs(buy) == Abs(sell)
  {
    if Abs(buy) > Abs(sell) then Up
    else if Abs(sell) > Abs(buy) then Down
    else Neutral
  }

  /** Swapping the two predictions swaps up and down. */
  lemma TrendSymmetric(buy: real, sell: real)
    ensures TrendOf(buy, sell) == Up <==> TrendOf(sell, buy) == Down
    ensures TrendOf(buy, sell) == Neutral <==> TrendOf(sell, buy) == Neutral
  {
  }

  /** `label_map[trend]`. */
  function Label(t: Trend): string {
    match t
    case Up => "📈 上げ相場予測"
    case Down => "📉 下げ相場予測"
    case Neutral => "⏸ 保留"
  }

  lemma LabelsDistinct()
    ensures Label(Up) != Label(Down) && Label(Up) != Label(Neutral) && Label(Down) != Label(Neutral)
  {
    assert Label(Up)[0] != Label(Neutral)[0];
    assert Label(Down)[0] != Label(Neutral)[0];
    assert Label(Up)[0] != Label(Down)[0];
  }

  /** `int(x)`: truncation toward zero. */
  function Trunc(x: real): (r: int)
    ensures x >= 0.0 ==> r as real <= x < r as real + 1.0
    ensures x < 0.0 ==> r as real - 1.0 < x <= r as real
  {
    if x >= 0.0 then x.Floor else -((-x).Floor)
  }

  /** The metric: the trend's label, the price as a whole number and the
      prediction that decided the trend (the sell one on a tie). */
  datatype Summary = Summary(title: string, value: int, delta: real)

  /** `render_predict_summary`: only the last entry of each series is read;
      an empty series has no last entry. */
  function PredictSummary(buy: seq<real>, sell: seq<real>, price: seq<real>): (r: Result<Summary>)
    ensures r.Success? <==> buy != [] && sell != [] && price != []
  {
    if buy == [] || sell == [] || price == [] then Failure("IndexError: single positional indexer is out-of-bounds")
    else
      var b := buy[|buy| - 1];
      var s := sell[|sell| - 1];
      Success(Summary(Label(TrendOf(b, s)), Trunc(price[|price| - 1]), if Abs(b) > Abs(s) then b else s))
  }

  /** The summary depends on the last entries alone, the delta is the
      larger of the two predictions in magnitude, and the label names the
      trend it decides. */
  lemma SummarySpec(buy: seq<real>, sell: seq<real>, price: seq<real>)
    requires buy != [] && sell != [] && price != []
    ensures var r := PredictSummary(buy, sell, price).value;
      var b := buy[|buy| - 1];
      var s := sell[|sell| - 1];
      && r == PredictSummary([b], [s], [price[|price| - 1]]).value
      && Abs(r.delta) >= Abs(b) && Abs(r.delta) >= Abs(s)
      && (r.delta == b || r.delta == s)
      && (r.title == Label(Up) <==> Abs(b) > Abs(s))
      && (r.title == Label(Down) <==> Abs(s) > Abs(b))
  {
    LabelsDistinct();
  }

  /** `[x if x > 0.5 else None for x in buy]`. */
  function BuyMarkers(xs: seq<real>): (r: seq<Option<real>>)
    ensures |r| == |xs|
  {
    if xs == [] then [] else [if xs[0] > 0.5 then Some(xs[0]) else None] + BuyMarkers(xs[1..])
  }

  /** `[x if x < -0.5 else None for x in sell]`. */
  function SellMarkers(xs: seq<real>): (r: seq<Option<real>>)
    ensures |r| == |xs|
  {
    if xs == [] then [] else [if xs[0] < -0.5 then Some(xs[0]) else None] + SellMarkers(xs[1..])
  }

  /** A buy marker sits exactly where the value exceeds 0.5, at that value. */
  lemma {:induction false} BuyMarkersSpec(xs: seq<real>)
    ensures forall i :: 0 <= i < |xs| ==> BuyMarkers(xs)[i] == if xs[i] > 0.5 then Some(xs[i]) else None
  {
    if xs != [] {
      var tail := xs[1..];
      BuyMarkersSpec(tail);
      var r := BuyMarkers(xs);
      assert r == [if xs[0] > 0.5 then Some(xs[0]) else None] + BuyMarkers(tail);
      forall i | 1 <= i < |xs|
        ensures r[i] == if xs[i] > 0.5 then Some(xs[i]) else None
      {
        assert r[i] == BuyMarkers(tail)[i - 1] && xs[i] == tail[i - 1];
      }
    }
  }

  /** A sell marker sits exactly where the value is below −0.5, at that value. */
  lemma {:induction false} SellMarkersSpec(xs: seq<real>)
    ensures forall i :: 0 <= i < |xs| ==> SellMarkers(xs)[i] == if xs[i] < -0.5 then Some(xs[i]) else None
  {
    if xs != [] {
      var tail := xs[1..];
      SellMarkersSpec(tail);
      var r := SellMarkers(xs);
      assert r == [if xs[0] < -0.5 then Some(xs[0]) else None] + SellMarkers(tail);
      forall i | 1 <= i < |xs|
        ensures r[i] == if xs[i] < -0.5 then Some(xs[i]) else None
      {
        assert r[i] == SellMarkers(tail)[i - 1] && xs[i] == tail[i - 1];
      }
    }
  }

  /** Since the predictor negates the sell model's output, a sell marker
      appears exactly where the sell model predicts more than 0.5, mirroring
      the buy markers of the same predictions. */
  lemma SellMarkersOfNegated(preds: seq<real>)
    ensures |SellMarkers(Signals.Negate(preds))| == |preds|
    ensures forall i :: 0 <= i < |preds| ==>
      (SellMarkers(Signals.Negate(preds))[i].Some? <==> BuyMarkers(preds)[i].Some?)
    ensures forall i :: 0 <= i < |preds| ==> BuyMarkers(preds)[i].Some? ==>
      SellMarkers(Signals.Negate(preds))[i] == Some(-BuyMarkers(preds)[i].value)
  {
    SellMarkersSpec(Signals.Negate(preds));
    BuyMarkersSpec(preds);
  }

  /** A dotted horizontal line across the chart at an order's price. */
  datatype Line = Line(x0: string, x1: string, y: real)

  /** One line per open order, in order, from the first to the last date;
      with orders but no dates there is no first date. */
  function OrderLines(dates: seq<string>, prices: seq<real>): (r: Result<seq<Line>>)
    ensures r.Success? <==> prices == [] || dates != []
    ensures r.Success? ==> |r.value| == |prices|
    ensures r.Success? ==> forall i :: 0 <= i < |prices| ==> r.value[i] == Line(dates[0], dates[|dates| - 1], prices[i])
  {
    if prices == [] then Success([])
    else if dates == [] then Failure("IndexError: single positional indexer is out-of-bounds")
    else Success(seq(|prices|, i requires 0 <= i < |prices| => Line(dates[0], dates[|dates| - 1], prices[i])))
  }
}
