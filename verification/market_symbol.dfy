/** `market_symbol`: a market written as "base_quote" (e.g. "btc_jpy") turned
    into the form a caller needs. Without a symbol the configured
    "market_symbol" setting is used; the configuration is a parameter. */
module MarketSymbols {
  import opened Wrappers
  import opened Artifacts
  import Strings

  /** The symbol to format: the given one when it is non-empty, else the
      configured setting; a missing or non-text setting has no `lower()`. */
  function ChosenSymbol(symbol: Option<string>, config: map<string, Json>): (r: Result<string>)
    ensures symbol.Some? && symbol.value != "" ==> r == Success(symbol.value)
  {
    if symbol.Some? && symbol.value != "" then Success(symbol.value)
    else if "market_symbol" in config && config["market_symbol"].JStr? then Success(config["market_symbol"].s)
    else Failure("AttributeError: 'NoneType' object has no attribute 'lower'")
  }

  /** `f"{prefix}"`: the default prefix prints as "None". */
  function PrefixText(prefix: Option<string>): string {
    if prefix.Some? then prefix.value else "None"
  }

  /** The formatting once a symbol is chosen. */
  function Format(symbol: string, fmt: string, prefix: Option<string>): (r: Result<string>) {
    var parts := Strings.Split(Strings.Lower(symbol), '_');
    if |parts| != 2 then Failure("ValueError: Invalid market symbol format: " + symbol)
    else
      var base := Strings.Upper(parts[0]);
      var quote := Strings.Upper(parts[1]);
      if fmt == "raw" then Success(PrefixText(prefix) + Strings.Lower(symbol))
      else if fmt == "ccxt" then Success(base + "/" + quote)
      else if fmt == "base" then Success(base)
      else if fmt == "quote" then Success(quote)
      else Failure("ValueError: Unsupported format: " + fmt)
  }

  function MarketSymbol(symbol: Option<string>, fmt: string, prefix: Option<string>, config: map<string, Json>): Result<string> {
    match ChosenSymbol(symbol, config)
    case Failure(e) => Failure(e)
    case Success(s) => Format(s, fmt, prefix)
  }

  const Formats: seq<string> := ["raw", "ccxt", "base", "quote"]

  /** A symbol is accepted exactly when it has one underscore and the format
      is one of the four; each format then gives what its name says, the
      ccxt form being the base and the quote joined by a slash. */
  lemma FormatSpec(symbol: string, fmt: string, prefix: Option<string>)
    ensures Format(symbol, fmt, prefix).Success? <==> Strings.Count(symbol, '_') == 1 && fmt in Formats
    ensures Strings.Count(symbol, '_') == 1 ==>
      var parts := Strings.Split(Strings.Lower(symbol), '_');
      && |parts| == 2
      && (fmt == "raw" ==> Format(symbol, fmt, prefix) == Success(PrefixText(prefix) + Strings.Lower(symbol)))
      && (fmt == "base" ==> Format(symbol, fmt, prefix) == Success(Strings.Upper(parts[0])))
      && (fmt == "quote" ==> Format(symbol, fmt, prefix) == Success(Strings.Upper(parts[1])))
      && (fmt == "ccxt" ==>
            Format(symbol, fmt, prefix)
            == Success(Format(symbol, "base", prefix).value + "/" + Format(symbol, "quote", prefix).value))
  {
    LowerKeepsUnderscores(symbol);
  }

  /** Lower-casing neither adds nor removes an underscore. */
  lemma {:induction false} LowerKeepsUnderscores(s: string)
    ensures Strings.Count(Strings.Lower(s), '_') == Strings.Count(s, '_')
  {
    if s != [] {
      LowerKeepsUnderscores(s[1..]);
      assert Strings.Lower(s)[1..] == Strings.Lower(s[1..]);
    }
  }

  lemma LowerIdempotent(s: string)
    ensures Strings.Lower(Strings.Lower(s)) == Strings.Lower(s)
  {
  }

  /** The raw form (with an empty prefix) is a normal form: formatting it
      again in any format gives what formatting the original gives. */
  lemma RawIsNormal(symbol: string, fmt: string, prefix: Option<string>)
    requires Format(symbol, "raw", Some("")).Success?
    ensures Format(Format(symbol, "raw", Some("")).value, fmt, prefix).Success? <==> Format(symbol, fmt, prefix).Success?
    ensures fmt != "raw" ==> Format(Format(symbol, "raw", Some("")).value, fmt, prefix) == Format(symbol, fmt, prefix)
  {
    var raw := Format(symbol, "raw", Some("")).value;
    assert raw == Strings.Lower(symbol);
    LowerIdempotent(symbol);
    LowerKeepsUnderscores(symbol);
  }

  /** The base and quote parts are upper case and hold no underscore. */
  lemma PartsAreUpper(symbol: string, fmt: string, prefix: Option<string>)
    requires fmt == "base" || fmt == "quote"
    requires Format(symbol, fmt, prefix).Success?
    ensures '_' !in Format(symbol, fmt, prefix).value
    ensures forall i :: 0 <= i < |Format(symbol, fmt, prefix).value| ==> !('a' <= Format(symbol, fmt, prefix).value[i] <= 'z')
  {
  }

  /** With no symbol and the default setting "BTC/JPY", which has a slash and
      no underscore, every format raises. */
  lemma DefaultSettingRaises(fmt: string, prefix: Option<string>)
    ensures MarketSymbol(None, fmt, prefix, map["market_symbol" := JStr("BTC/JPY")]).Failure?
  {
    Strings.CountAbsent("BTC/JPY", '_');
    FormatSpec("BTC/JPY", fmt, prefix);
  }
}
