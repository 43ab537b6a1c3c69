/** `CoinCheckAPI`: the account calls on the Coincheck exchange. The ccxt
    client is a parameter: its balance report and trade list come in as
    values, and an order is the request the client is asked to send. The
    market is the configured "market_symbol" setting. */
module CoinCheck {
  import opened Wrappers
  import opened Artifacts
  import Strings

  /** One of `fetch_my_trades`' entries: its side, price and amount. */
  datatype Trade = Trade(side: string, price: real, amount: real)

  /** `client.create_order(market, kind, side, amount[, price])`. */
  datatype OrderRequest = OrderRequest(market: Option<string>, kind: string, side: string, amount: real, price: Option<real>)

  /** The calls `CoinCheckAPI` defines. */
  const Methods: set<string> := {"get_balance", "create_limit_order", "create_market_order", "get_trade_history",
                                 "get_open_orders", "get_cancel_order", "get_order_book", "get_exchange_rate",
                                 "get_latest_rate", "get_avg_cost"}

  /** `config.get("market_symbol")`, which is a text or is None. */
  function Market(config: map<string, Json>): Option<string> {
    if "market_symbol" in config && config["market_symbol"].JStr? then Some(config["market_symbol"].s) else None
  }

  /** Python's `sum(f(t) for t in trades)`. */
  function SumBy(trades: seq<Trade>, f: Trade -> real): real {
    if trades == [] then 0.0 else f(trades[0]) + SumBy(trades[1..], f)
  }

  function Cost(t: Trade): real { t.price * t.amount }

  function Amount(t: Trade): real { t.amount }

  function TotalCost(trades: seq<Trade>): real { SumBy(trades, Cost) }

  function TotalAmount(trades: seq<Trade>): real { SumBy(trades, Amount) }

  /** `get_avg_cost`: the amount-weighted average price of all trades,
      whatever their side; None when the amounts add up to zero, which
      includes an empty trade list. */
  function AvgCost(trades: seq<Trade>): (r: Option<real>)
    ensures r.None? <==> TotalAmount(trades) == 0.0
    ensures r.Some? ==> r.value * TotalAmount(trades) == TotalCost(trades)
    ensures trades == [] ==> r.None?
  {
    if TotalAmount(trades) == 0.0 then None else Some(TotalCost(trades) / TotalAmount(trades))
  }

  lemma {:induction false} SumByAppend(a: seq<Trade>, b: seq<Trade>, f: Trade -> real)
    ensures SumBy(a + b, f) == SumBy(a, f) + SumBy(b, f)
  {
    if a != [] {
      assert (a + b)[0] == a[0] && (a + b)[1..] == a[1..] + b;
      SumByAppend(a[1..], b, f);
    } else {
      assert a + b == b;
    }
  }

  /** Taking one term out of a sum. */
  lemma SumByRemove(b: seq<Trade>, j: int, f: Trade -> real)
    requires 0 <= j < |b|
    ensures SumBy(b, f) == f(b[j]) + SumBy(b[..j] + b[j + 1..], f)
  {
    var tail := b[j..];
    assert b == b[..j] + tail;
    assert tail[0] == b[j] && tail[1..] == b[j + 1..];
    SumByAppend(b[..j], tail, f);
    SumByAppend(b[..j], b[j + 1..], f);
  }

  /** Removing one occurrence of a term from both sides keeps two
      permutations permutations of each other. */
  lemma RemovedPermutation(a: seq<Trade>, b: seq<Trade>, j: int)
    requires a != [] && 0 <= j < |b| && b[j] == a[0]
    requires multiset(a) == multiset(b)
    ensures multiset(a[1..]) == multiset(b[..j] + b[j + 1..])
  {
    assert a == [a[0]] + a[1..];
    assert b == b[..j] + [b[j]] + b[j + 1..];
    assert multiset(a[1..]) == multiset(a) - multiset{a[0]};
    assert multiset(b) == multiset(b[..j]) + multiset{b[j]} + multiset(b[j + 1..]);
  }

  /** A sum does not depend on the order of its terms. */
  lemma {:induction false} SumByPermutation(a: seq<Trade>, b: seq<Trade>, f: Trade -> real)
    requires multiset(a) == multiset(b)
    ensures SumBy(a, f) == SumBy(b, f)
    decreases |a|
  {
    if a != [] {
      assert a[0] in multiset(b);
      var j :| 0 <= j < |b| && b[j] == a[0];
      RemovedPermutation(a, b, j);
      SumByPermutation(a[1..], b[..j] + b[j + 1..], f);
      SumByRemove(b, j, f);
    }
  }

  /** The average does not depend on the order in which the exchange lists
      the trades. */
  lemma AvgCostPermutation(a: seq<Trade>, b: seq<Trade>)
    requires multiset(a) == multiset(b)
    ensures AvgCost(a) == AvgCost(b)
  {
    SumByPermutation(a, b, Cost);
    SumByPermutation(a, b, Amount);
  }

  /** The side of a trade plays no part: trades with the same prices and
      amounts give the same average. */
  lemma {:induction false} AvgCostIgnoresSide(a: seq<Trade>, b: seq<Trade>)
    requires |a| == |b|
    requires forall i :: 0 <= i < |a| ==> a[i].price == b[i].price && a[i].amount == b[i].amount
    ensures TotalCost(a) == TotalCost(b) && TotalAmount(a) == TotalAmount(b)
    ensures AvgCost(a) == AvgCost(b)
  {
    if a != [] {
      AvgCostIgnoresSide(a[1..], b[1..]);
    }
  }

  /** With non-negative amounts, a lower bound of every price bounds the
      cost below and an upper bound bounds it above. */
  lemma {:induction false} CostBetween(trades: seq<Trade>, lo: real, hi: real)
    requires forall i :: 0 <= i < |trades| ==> trades[i].amount >= 0.0 && lo <= trades[i].price <= hi
    ensures lo * TotalAmount(trades) <= TotalCost(trades) <= hi * TotalAmount(trades)
  {
    if trades != [] {
      var t := trades[0];
      CostBetween(trades[1..], lo, hi);
      var c, a := TotalCost(trades[1..]), TotalAmount(trades[1..]);
      var total := TotalAmount(trades);
      assert TotalCost(trades) == t.price * t.amount + c;
      assert total == t.amount + a;
      ScaledBetween(t.amount, lo, t.price, hi);
      assert lo * total == lo * t.amount + lo * a;
      assert hi * total == hi * t.amount + hi * a;
    }
  }

  lemma ScaledBetween(x: real, lo: real, p: real, hi: real)
    requires x >= 0.0 && lo <= p <= hi
    ensures lo * x <= p * x <= hi * x
  {
  }

  lemma {:induction false} AmountPositive(trades: seq<Trade>)
    requires trades != []
    requires forall i :: 0 <= i < |trades| ==> trades[i].amount > 0.0
    ensures TotalAmount(trades) > 0.0
  {
    assert TotalAmount(trades) == Amount(trades[0]) + TotalAmount(trades[1..]);
    if |trades| > 1 {
      AmountPositive(trades[1..]);
    } else {
      assert trades[1..] == [];
    }
  }

  /** With positive amounts the average exists and lies between the lowest
      and the highest trade price. */
  lemma AvgCostBetween(trades: seq<Trade>, lo: real, hi: real)
    requires trades != []
    requires forall i :: 0 <= i < |trades| ==> trades[i].amount > 0.0 && lo <= trades[i].price <= hi
    ensures AvgCost(trades).Some?
    ensures lo <= AvgCost(trades).value <= hi
  {
    AmountPositive(trades);
    CostBetween(trades, lo, hi);
    var a := TotalAmount(trades);
    var avg := AvgCost(trades).value;
    assert avg * a == TotalCost(trades);
    assert lo * a <= avg * a <= hi * a;
  }

  /** `get_balance`: the market split on "_", each piece's balance read from
      the report's "info" entry, in the market's order. A market that is not
      a text has no `split`; a piece the report lacks raises KeyError. */
  function Balance(market: Option<string>, info: map<string, real>): (r: Result<seq<real>>)
    ensures market.Some? && r.Success? ==> |r.value| == Strings.Count(market.value, '_') + 1
  {
    if market.None? then Failure("AttributeError: 'NoneType' object has no attribute 'split'")
    else
      var parts := Strings.Split(market.value, '_');
      if forall k :: 0 <= k < |parts| ==> parts[k] in info then
        Success(seq(|parts|, k requires 0 <= k < |parts| => info[parts[k]]))
      else Failure("KeyError")
  }

  /** The balances are those of the market's pieces, in the market's order,
      and they are found exactly when the report has every piece. */
  lemma BalanceSpec(market: string, info: map<string, real>)
    ensures var parts := Strings.Split(market, '_');
      && (Balance(Some(market), info).Success? <==> forall k :: 0 <= k < |parts| ==> parts[k] in info)
      && (Balance(Some(market), info).Success? ==>
            forall k :: 0 <= k < |parts| ==> Balance(Some(market), info).value[k] == info[parts[k]])
  {
  }

  /** The market "btc_jpy" reads the "btc" balance, then the "jpy" one. */
  lemma BalanceOfBtcJpy(info: map<string, real>)
    requires "btc" in info && "jpy" in info
    ensures Balance(Some("btc_jpy"), info) == Success([info["btc"], info["jpy"]])
  {
    Strings.SplitNoSeparator("jpy", '_');
    Strings.SplitAtSeparator("btc", "jpy", '_');
    assert "btc_jpy" == "btc" + ['_'] + "jpy";
    var parts := Strings.Split("btc_jpy", '_');
    assert parts == ["btc", "jpy"];
    BalanceSpec("btc_jpy", info);
    var r := Balance(Some("btc_jpy"), info).value;
    assert |r| == 2 && r[0] == info["btc"] && r[1] == info["jpy"];
    assert r == [info["btc"], info["jpy"]];
  }

  /** `create_limit_order`: the market, "limit", and the caller's side,
      amount and price, as given. */
  function LimitOrder(market: Option<string>, side: string, amount: real, price: real): (r: OrderRequest)
    ensures r.kind == "limit" && r.price == Some(price)
  {
    OrderRequest(market, "limit", side, amount, Some(price))
  }

  /** `create_market_order`: the same request without a price. */
  function MarketOrder(market: Option<string>, side: string, amount: real): (r: OrderRequest)
    ensures r.kind == "market" && r.price.None?
  {
    OrderRequest(market, "market", side, amount, None)
  }

  /** The two kinds of order go to the same market with the same side and
      amount; only the kind and the price differ. */
  lemma OrdersDifferOnlyInKindAndPrice(market: Option<string>, side: string, amount: real, price: real)
    ensures LimitOrder(market, side, amount, price) == MarketOrder(market, side, amount).(kind := "limit", price := Some(price))
    ensures LimitOrder(market, side, amount, price).market == market
    ensures LimitOrder(market, side, amount, price).side == side && LimitOrder(market, side, amount, price).amount == amount
  {
  }
}
