/** `render_order_form`: the limit-order form of the trading screen. The
    balances and the last rate come from the account view's balance report;
    the two text fields, the side chosen on the radio button and whether the
    order button was pressed are the user's input. Python's `float()` on a
    text is a parameter: it gives the number or None where `float` raises
    ValueError. */
module OrderForm {
  import opened Wrappers

  /** The radio options, as the page labels them: buy (買い) and sell (売り). */
  const BuyLabel := "買い"
  const SellLabel := "売り"

  const MinimumAmount: real := 0.001
  const OrderLimit: real := 1000000.0
  const LowBand: real := 0.8
  const HighBand: real := 1.2

  /** `float(text)`, or None where it raises ValueError. */
  type Parse = string -> Option<real>

  /** `dict.get(key, 0)`: a missing balance or rate reads 0. */
  function GetOrZero(m: map<string, real>, key: string): (r: real)
    ensures key in m ==> r == m[key]
    ensures key !in m ==> r == 0.0
  {
    if key in m then m[key] else 0.0
  }

  /** The form's inputs after the defaults: BTC and JPY totals and the rate. */
  datatype Funds = Funds(btc: real, jpy: real, rate: real)

  function FundsOf(total: map<string, real>, ticker: map<string, real>): Funds {
    Funds(GetOrZero(total, "BTC"), GetOrZero(total, "JPY"), GetOrZero(ticker, "last"))
  }

  /** The estimate field: blank until both fields are filled, then the cost
      or a request for numbers. */
  datatype Estimate = Blank | Cost(value: real) | NotNumeric

  function EstimateOf(price: string, amount: string, parse: Parse): (r: Estimate)
    ensures r == Blank <==> price == "" || amount == ""
    ensures r.Cost? <==> price != "" && amount != "" && parse(price).Some? && parse(amount).Some?
    ensures r.Cost? ==> r.value == parse(price).value * parse(amount).value
  {
    if price != "" && amount != "" then
      if parse(price).Some? && parse(amount).Some? then Cost(parse(price).value * parse(amount).value)
      else NotNumeric
    else Blank
  }

  /** Why an order is refused, in the order the checks run. */
  datatype Reason = EmptyFields | BelowMinimum | OverBudget | InsufficientBtc | TooLarge | PriceOutOfBand

  /** What pressing the button does: a warning (no side), an error message,
      an order sent with the exchange's side name and the texts as typed, or
      an exception the page does not catch. */
  datatype Outcome = Warn | Reject(reason: Reason) | Submit(side: string, amount: string, price: string) | Crash(error: string)

  const ValueErrorText := "ValueError: could not convert string to float"

  /** The checks of the button handler, in order; each comparison converts
      the texts again, so a text that is not a number raises at the first
      comparison that reads it. */
  function Validate(side: string, price: string, amount: string, f: Funds, parse: Parse): (r: Outcome) {
    if side == "" then Warn
    else if price == "" || amount == "" then Reject(EmptyFields)
    else if parse(amount).None? then Crash(ValueErrorText)
    else
      var a := parse(amount).value;
      if a < MinimumAmount then Reject(BelowMinimum)
      else if side == BuyLabel && parse(price).None? then Crash(ValueErrorText)
      else if side == BuyLabel && parse(price).value * a > f.jpy then Reject(OverBudget)
      else if side == SellLabel && a > f.btc then Reject(InsufficientBtc)
      else if parse(price).None? then Crash(ValueErrorText)
      else
        var p := parse(price).value;
        if p * a > OrderLimit then Reject(TooLarge)
        else if f.rate == 0.0 then Crash("ZeroDivisionError: float division by zero")
        else if p / f.rate > HighBand || p / f.rate < LowBand then Reject(PriceOutOfBand)
        else if side == BuyLabel then Submit("buy", amount, price)
        else if side == SellLabel then Submit("sell", amount, price)
        else Crash("KeyError: '" + side + "'")
  }

  /** Every check an order must pass, each bound inclusive. */
  predicate Acceptable(side: string, p: real, a: real, f: Funds) {
    && (side == BuyLabel || side == SellLabel)
    && a >= MinimumAmount
    && (side == BuyLabel ==> p * a <= f.jpy)
    && (side == SellLabel ==> a <= f.btc)
    && p * a <= OrderLimit
    && f.rate != 0.0
    && LowBand <= p / f.rate <= HighBand
  }

  /** An order is sent exactly when both texts are filled in and are
      numbers passing every check, and then with "buy" for 買い and "sell"
      for 売り and the texts as typed. */
  lemma SubmitExactlyWhenAcceptable(side: string, price: string, amount: string, f: Funds, parse: Parse)
    ensures Validate(side, price, amount, f, parse).Submit?
        <==> price != "" && amount != "" && parse(price).Some? && parse(amount).Some? && Acceptable(side, parse(price).value, parse(amount).value, f)
    ensures Validate(side, price, amount, f, parse).Submit? ==>
      Validate(side, price, amount, f, parse)
      == Submit(if side == BuyLabel then "buy" else "sell", amount, price)
  {
    assert BuyLabel != "" && SellLabel != "";
  }

  /** Only the first failing check is reported: an amount below the minimum
      is reported as such whatever the price, the side's balance or the rate. */
  lemma MinimumComesFirst(side: string, price: string, amount: string, f: Funds, parse: Parse)
    requires side != "" && price != "" && amount != ""
    requires parse(amount).Some? && parse(amount).value < MinimumAmount
    ensures Validate(side, price, amount, f, parse) == Reject(BelowMinimum)
  {
  }

  /** The JPY balance is checked for buying only and the BTC balance for
      selling only. */
  lemma BalanceChecksBySide(side: string, price: string, amount: string, f: Funds, parse: Parse)
    ensures side != BuyLabel ==> Validate(side, price, amount, f, parse) != Reject(OverBudget)
    ensures side != SellLabel ==> Validate(side, price, amount, f, parse) != Reject(InsufficientBtc)
  {
  }

  /** The bounds themselves pass: an amount of exactly 0.001, a cost of
      exactly 1,000,000 and a price exactly 0.8 or 1.2 times the rate are
      none of them refused for that reason. */
  lemma BoundsInclusive(side: string, price: string, amount: string, f: Funds, parse: Parse)
    requires parse(price).Some? && parse(amount).Some?
    ensures parse(amount).value == MinimumAmount ==> Validate(side, price, amount, f, parse) != Reject(BelowMinimum)
    ensures parse(price).value * parse(amount).value == OrderLimit ==> Validate(side, price, amount, f, parse) != Reject(TooLarge)
    ensures f.rate != 0.0 && (parse(price).value == LowBand * f.rate || parse(price).value == HighBand * f.rate)
            ==> Validate(side, price, amount, f, parse) != Reject(PriceOutOfBand)
  {
    var p := parse(price).value;
    if f.rate != 0.0 && (p == LowBand * f.rate || p == HighBand * f.rate) {
      assert p / f.rate == LowBand || p / f.rate == HighBand;
    }
  }

  /** An order the estimate shows at no more than 1,000,000 is never refused
      as too large, and an order refused as too large was shown above it. */
  lemma EstimateAgreesWithLimit(side: string, price: string, amount: string, f: Funds, parse: Parse)
    requires EstimateOf(price, amount, parse).Cost?
    ensures EstimateOf(price, amount, parse).value <= OrderLimit ==> Validate(side, price, amount, f, parse) != Reject(TooLarge)
    ensures Validate(side, price, amount, f, parse) == Reject(TooLarge) ==> EstimateOf(price, amount, parse).value > OrderLimit
  {
  }

  /** A ticker without a last rate reads 0, so an order that passes every
      other check raises ZeroDivisionError instead of being sent. */
  lemma MissingRateNeverSubmits(total: map<string, real>, ticker: map<string, real>, side: string, price: string,
                                amount: string, parse: Parse)
    requires "last" !in ticker
    ensures !Validate(side, price, amount, FundsOf(total, ticker), parse).Submit?
  {
    SubmitExactlyWhenAcceptable(side, price, amount, FundsOf(total, ticker), parse);
  }
}
