/** `CryptTradeService`: the order guard in front of the exchange and the
    trade history archive. The exchange's ticker and the store's listing are
    parameters: the last rate and the listed keys come in as values. */
module CryptTrade {
  import opened Wrappers
  import opened Frames
  import opened Artifacts
  import opened Storage
  import CoinCheck
  import TradeHistory
  import Strings

  /** The largest order value, in the quote currency, the guard lets through. */
  const OrderLimit: real := 1000000.0

  /** `create_limit_order` as written: its first step asks the exchange
      wrapper for `get_ticker`, which `CoinCheckAPI` does not define, so the
      call raises before the guard is reached. */
  function CreateLimitOrderAsWritten(market: Option<string>, side: string, amount: real, price: real): (r: Result<CoinCheck.OrderRequest>)
    ensures "get_ticker" !in CoinCheck.Methods ==> r.Failure?
  {
    if "get_ticker" !in CoinCheck.Methods then Failure("AttributeError: 'CoinCheckAPI' object has no attribute 'get_ticker'")
    else Failure("the ticker call is not part of the exchange wrapper")
  }

  /** No order ever reaches the exchange, not even one the guard accepts:
      0.001 BTC at 10,000,000 with that last rate is worth 10,000. */
  lemma AsWrittenNeverOrders(market: Option<string>, side: string, amount: real, price: real)
    ensures CreateLimitOrderAsWritten(market, side, amount, price).Failure?
    ensures CreateLimitOrder(market, side, 0.001, 10000000.0, Some(10000000.0)).Success?
  {
    assert "get_ticker" !in CoinCheck.Methods;
  }

  /** `create_limit_order` with the last rate supplied: the order is refused
      when its value at the last rate or at the asked price exceeds the limit,
      and otherwise forwarded to the exchange unchanged. A ticker without a
      last rate (None) cannot be multiplied. */
  function CreateLimitOrder(market: Option<string>, side: string, amount: real, price: real, rate: Option<real>): (r: Result<CoinCheck.OrderRequest>)
    ensures r.Success? <==> rate.Some? && amount * rate.value <= OrderLimit && amount * price <= OrderLimit
    ensures r.Success? ==> r.value == CoinCheck.LimitOrder(market, side, amount, price)
  {
    if rate.None? then Failure("TypeError: unsupported operand type(s) for *: 'float' and 'NoneType'")
    else if amount * rate.value > OrderLimit || amount * price > OrderLimit then Failure("Exception: order value too large")
    else Success(CoinCheck.LimitOrder(market, side, amount, price))
  }

  /** The limit itself passes: an order worth exactly 1,000,000 at both the
      rate and the price is forwarded, and one worth a little more is not. */
  lemma GuardBoundary(market: Option<string>, side: string, rate: real)
    requires rate > 0.0
    ensures CreateLimitOrder(market, side, OrderLimit / rate, rate, Some(rate)).Success?
    ensures CreateLimitOrder(market, side, (OrderLimit + 1.0) / rate, rate, Some(rate)).Failure?
  {
    assert OrderLimit / rate * rate == OrderLimit;
    assert (OrderLimit + 1.0) / rate * rate == OrderLimit + 1.0;
  }

  /** Shrinking a non-negative amount never turns an accepted order into a
      refused one, when the rate and the price are non-negative. */
  lemma GuardMonotone(market: Option<string>, side: string, small: real, large: real, price: real, rate: real)
    requires 0.0 <= small <= large && price >= 0.0 && rate >= 0.0
    requires CreateLimitOrder(market, side, large, price, Some(rate)).Success?
    ensures CreateLimitOrder(market, side, small, price, Some(rate)).Success?
  {
    assert small * rate <= large * rate;
    assert small * price <= large * price;
  }

  /** The service: the settings it read at construction and the shared store. */
  class CryptTradeService {
    const config: map<string, Json>
    const s3: S3Store

    constructor(config: map<string, Json>, s3: S3Store)
      ensures this.config == config && this.s3 == s3
    {
      this.config := config;
      this.s3 := s3;
    }

    /** `get_history_archive`: the same steps as the trade history service,
        on the documents at the listed keys of the market's prefix. */
    method GetHistoryArchive(keys: seq<string>, ohlcv: Table) returns (r: Result<TradeHistory.Report>)
      requires forall k :: k in keys ==> Strings.StartsWith(k, TradeHistory.TradePrefix(TradeHistory.MarketText(config)))
      ensures r == TradeHistory.History(TradeHistory.MarketText(config), TradeHistory.Loaded(s3.objects, keys), ohlcv)
    {
      var docs := TradeHistory.LoadAll(s3, keys);
      r := TradeHistory.BuildHistory(TradeHistory.MarketText(config), docs, ohlcv);
    }
  }
}
