/** The feature builder: six trailing-window columns computed over the
    BTC/USDT close series (and the VITE/USDT close for the true range),
    assigned into the caller's frame, then a NaN-free copy returned. */
module FeatureDataset {
  import opened Frames
  import opened Numerics
  import opened Wrappers

  const CloseBtc := "close_BTC_USDT"
  const HighBtc := "high_BTC_USDT"
  const LowBtc := "low_BTC_USDT"
  const CloseVite := "close_VITE_USDT"

  /** The model's target column and its explanatory feature columns. */
  const TargetColumn := CloseBtc
  const FeatureColumns := ["sma_5", "bollinger_upper", "bollinger_lower", "rsi", "tr", "atr"]

  predicate AllNum(w: seq<Val>) {
    forall i :: 0 <= i < |w| ==> w[i].Num?
  }

  function Sum(w: seq<Val>): real
    requires AllNum(w)
  {
    if w == [] then 0.0 else Sum(w[..|w| - 1]) + w[|w| - 1].x
  }

  /** Sum of squared deviations from `m`. */
  function SquaredDeviations(w: seq<Val>, m: real): (r: real)
    requires AllNum(w)
    ensures r >= 0.0
  {
    if w == [] then 0.0 else SquaredDeviations(w[..|w| - 1], m) + Square(w[|w| - 1].x - m)
  }

  function Square(d: real): (r: real)
    ensures r >= 0.0
  {
    if d >= 0.0 then d * d else (-d) * (-d)
  }

  /** The window of `w` values ending at index i (rows i-w+1 .. i). */
  function Window(vals: seq<Val>, i: nat, w: nat): seq<Val>
    requires i < |vals| && 1 <= w <= i + 1
  {
    vals[i + 1 - w..i + 1]
  }

  /** `series.rolling(window=w).mean()` at index i: missing during the warm-up
      and whenever the window holds a missing value. */
  function RollingMean(vals: seq<Val>, i: nat, w: nat): Val
    requires i < |vals| && w >= 1
  {
    if i + 1 < w then Missing
    else if AllNum(Window(vals, i, w)) then Num(Sum(Window(vals, i, w)) / w as real)
    else Missing
  }

  /** `series.rolling(window=w).std()` at index i: the sample (n-1) standard deviation. */
  function RollingStd(vals: seq<Val>, i: nat, w: nat, num: Numerics): Val
    requires i < |vals| && w >= 2
  {
    if i + 1 < w then Missing
    else if AllNum(Window(vals, i, w)) then
      var win := Window(vals, i, w);
      Num(num.sqrt(SquaredDeviations(win, Sum(win) / w as real) / (w - 1) as real))
    else Missing
  }

  function RollingMeanSeries(vals: seq<Val>, w: nat): (r: seq<Val>)
    requires w >= 1
    ensures |r| == |vals| && forall i :: 0 <= i < |vals| ==> r[i] == RollingMean(vals, i, w)
  {
    seq(|vals|, i requires 0 <= i < |vals| => RollingMean(vals, i, w))
  }

  function RollingStdSeries(vals: seq<Val>, w: nat, num: Numerics): (r: seq<Val>)
    requires w >= 2
    ensures |r| == |vals| && forall i :: 0 <= i < |vals| ==> r[i] == RollingStd(vals, i, w, num)
  {
    seq(|vals|, i requires 0 <= i < |vals| => RollingStd(vals, i, w, num))
  }

  /** `a + k * b` elementwise; a missing operand gives a missing result. */
  function PlusScaled(a: Val, k: real, b: Val): Val {
    if a.Num? && b.Num? then Num(a.x + k * b.x) else Missing
  }

  function PlusScaledSeries(a: seq<Val>, k: real, b: seq<Val>): (r: seq<Val>)
    requires |a| == |b|
    ensures |r| == |a| && forall i :: 0 <= i < |a| ==> r[i] == PlusScaled(a[i], k, b[i])
  {
    seq(|a|, i requires 0 <= i < |a| => PlusScaled(a[i], k, b[i]))
  }

  /** `100 - 100 / (1 + high / low)` with IEEE division by zero: a zero low
      with a non-zero high makes the ratio infinite and the value 100; 0/0
      is NaN. A zero denominator `1 + high/low` is treated as missing. */
  function Rsi(high: Val, low: Val): Val {
    if !high.Num? || !low.Num? then Missing
    else if low.x == 0.0 then (if high.x == 0.0 then Missing else Num(100.0))
    else if 1.0 + high.x / low.x == 0.0 then Missing
    else Num(100.0 - 100.0 / (1.0 + high.x / low.x))
  }

  function RsiSeries(high: seq<Val>, low: seq<Val>): (r: seq<Val>)
    requires |high| == |low|
    ensures |r| == |high| && forall i :: 0 <= i < |high| ==> r[i] == Rsi(high[i], low[i])
  {
    seq(|high|, i requires 0 <= i < |high| => Rsi(high[i], low[i]))
  }

  /** Row-wise `max(axis=1)` / `min(axis=1)` over three cells, skipping NaN. */
  function Max3(a: Val, b: Val, c: Val): Val {
    var ab := if !a.Num? then b else if !b.Num? then a else Num(if a.x >= b.x then a.x else b.x);
    if !ab.Num? then (if c.Num? then c else Missing)
    else if !c.Num? then ab
    else Num(if ab.x >= c.x then ab.x else c.x)
  }

  function Min3(a: Val, b: Val, c: Val): Val {
    var ab := if !a.Num? then b else if !b.Num? then a else Num(if a.x <= b.x then a.x else b.x);
    if !ab.Num? then (if c.Num? then c else Missing)
    else if !c.Num? then ab
    else Num(if ab.x <= c.x then ab.x else c.x)
  }

  /** The true range as written: the maximum takes the VITE close, the
      minimum the BTC close. */
  function TrueRange(highBtc: Val, lowBtc: Val, closeVite: Val, closeBtc: Val): Val {
    var hi := Max3(highBtc, lowBtc, closeVite);
    var lo := Min3(highBtc, lowBtc, closeBtc);
    if hi.Num? && lo.Num? then Num(hi.x - lo.x) else Missing
  }

  function TrueRangeSeries(hb: seq<Val>, lb: seq<Val>, cv: seq<Val>, cb: seq<Val>): (r: seq<Val>)
    requires |hb| == |lb| == |cv| == |cb|
    ensures |r| == |hb| && forall i :: 0 <= i < |hb| ==> r[i] == TrueRange(hb[i], lb[i], cv[i], cb[i])
  {
    seq(|hb|, i requires 0 <= i < |hb| => TrueRange(hb[i], lb[i], cv[i], cb[i]))
  }

  // The six assignments of `create_features`, each reading the frame as the
  // previous one left it.
  function AddSma(t: Table): Table {
    AssignColumn(t, "sma_5", RollingMeanSeries(Column(t, CloseBtc), 5))
  }

  function AddUpper(t: Table, num: Numerics): Table {
    AssignColumn(t, "bollinger_upper",
      PlusScaledSeries(Column(t, "sma_5"), 2.0, RollingStdSeries(Column(t, CloseBtc), 5, num)))
  }

  function AddLower(t: Table, num: Numerics): Table {
    AssignColumn(t, "bollinger_lower",
      PlusScaledSeries(Column(t, "sma_5"), -2.0, RollingStdSeries(Column(t, CloseBtc), 5, num)))
  }

  function AddRsi(t: Table): Table {
    AssignColumn(t, "rsi", RsiSeries(Column(t, HighBtc), Column(t, LowBtc)))
  }

  function AddTr(t: Table): Table {
    AssignColumn(t, "tr",
      TrueRangeSeries(Column(t, HighBtc), Column(t, LowBtc), Column(t, CloseVite), Column(t, CloseBtc)))
  }

  function AddAtr(t: Table): Table {
    AssignColumn(t, "atr", RollingMeanSeries(Column(t, "tr"), 14))
  }

  /** The frame after the six column assignments. */
  function WithFeatures(t: Table, num: Numerics): Table {
    AddAtr(AddTr(AddRsi(AddLower(AddUpper(AddSma(t), num), num))))
  }

  /** The caller's frame, which `create_features` extends in place. */
  class DataFrame {
    var table: Table

    constructor(t: Table)
      ensures table == t
    {
      table := t;
    }
  }

  /** The four price columns, in the order `create_features` first reads them. */
  predicate HasPrices(columns: seq<string>) {
    CloseBtc in columns && HighBtc in columns && LowBtc in columns && CloseVite in columns
  }

  /** `df[c]` of an absent column raises KeyError naming it. */
  function KeyError(c: string): string {
    "KeyError: '" + c + "'"
  }

  /** `create_features`: assign the six columns into `df`, return `df.dropna()`.
      A price column the frame lacks raises KeyError at the first statement
      that reads it, after the earlier assignments have already changed `df`:
      the close at the moving average, high and low at the RSI, the VITE
      close (inside a column list) at the true range. */
  method CreateFeatures(df: DataFrame, num: Numerics) returns (r: Result<Table>)
    modifies df
    ensures r.Success? <==> HasPrices(old(df.table).columns)
    ensures r.Success? ==> df.table == WithFeatures(old(df.table), num) && r.value == DropNa(df.table)
    ensures CloseBtc !in old(df.table).columns ==> df.table == old(df.table) && r == Failure(KeyError(CloseBtc))
    ensures CloseBtc in old(df.table).columns && (HighBtc !in old(df.table).columns || LowBtc !in old(df.table).columns) ==>
      && df.table == AddLower(AddUpper(AddSma(old(df.table)), num), num)
      && r == Failure(KeyError(if HighBtc !in old(df.table).columns then HighBtc else LowBtc))
    ensures CloseBtc in old(df.table).columns && HighBtc in old(df.table).columns && LowBtc in old(df.table).columns
            && CloseVite !in old(df.table).columns ==>
      && df.table == AddRsi(AddLower(AddUpper(AddSma(old(df.table)), num), num))
      && r == Failure("KeyError: \"['" + CloseVite + "'] not in index\"")
  {
    if CloseBtc !in df.table.columns {
      return Failure(KeyError(CloseBtc));
    }
    df.table := AddSma(df.table);
    df.table := AddUpper(df.table, num);
    df.table := AddLower(df.table, num);
    if HighBtc !in df.table.columns {
      return Failure(KeyError(HighBtc));
    }
    if LowBtc !in df.table.columns {
      return Failure(KeyError(LowBtc));
    }
    df.table := AddRsi(df.table);
    if CloseVite !in df.table.columns {
      return Failure("KeyError: \"['" + CloseVite + "'] not in index\"");
    }
    df.table := AddTr(df.table);
    df.table := AddAtr(df.table);
    r := Success(DropNa(df.table));
  }

  // ----- The derived values in terms of the input frame -----

  function Sma(t: Table, i: nat): Val
    requires i < |t.rows|
  {
    RollingMean(Column(t, CloseBtc), i, 5)
  }

  function Std(t: Table, i: nat, num: Numerics): Val
    requires i < |t.rows|
  {
    RollingStd(Column(t, CloseBtc), i, 5, num)
  }

  function TrAt(r: Row): Val {
    TrueRange(Get(r, HighBtc), Get(r, LowBtc), Get(r, CloseVite), Get(r, CloseBtc))
  }

  function TrColumn(t: Table): (col: seq<Val>)
    ensures |col| == |t.rows| && forall i :: 0 <= i < |t.rows| ==> col[i] == TrAt(t.rows[i])
  {
    seq(|t.rows|, i requires 0 <= i < |t.rows| => TrAt(t.rows[i]))
  }

  function Atr(t: Table, i: nat): Val
    requires i < |t.rows|
  {
    RollingMean(TrColumn(t), i, 14)
  }

  /** Assigning a derived column leaves the four price columns as they were. */
  lemma KeepsPrices(t: Table, c: string, vals: seq<Val>)
    requires |vals| == |t.rows| && c != CloseBtc && c != HighBtc && c != LowBtc && c != CloseVite
    ensures Column(AssignColumn(t, c, vals), CloseBtc) == Column(t, CloseBtc)
    ensures Column(AssignColumn(t, c, vals), HighBtc) == Column(t, HighBtc)
    ensures Column(AssignColumn(t, c, vals), LowBtc) == Column(t, LowBtc)
    ensures Column(AssignColumn(t, c, vals), CloseVite) == Column(t, CloseVite)
  {
    ColumnOfAssigned(t, c, vals, CloseBtc);
    ColumnOfAssigned(t, c, vals, HighBtc);
    ColumnOfAssigned(t, c, vals, LowBtc);
    ColumnOfAssigned(t, c, vals, CloseVite);
  }

  /** Each row of the extended frame is the input row plus the six derived
      values, all of them computed from the input frame's own columns. */
  lemma FeatureValues(t: Table, num: Numerics, i: nat)
    requires i < |t.rows|
    ensures |WithFeatures(t, num).rows| == |t.rows|
    ensures WithFeatures(t, num).rows[i] == t.rows[i]
      ["sma_5" := Sma(t, i)]
      ["bollinger_upper" := PlusScaled(Sma(t, i), 2.0, Std(t, i, num))]
      ["bollinger_lower" := PlusScaled(Sma(t, i), -2.0, Std(t, i, num))]
      ["rsi" := Rsi(Get(t.rows[i], HighBtc), Get(t.rows[i], LowBtc))]
      ["tr" := TrAt(t.rows[i])]
      ["atr" := Atr(t, i)]
  {
    var t1 := AddSma(t);
    var t2 := AddUpper(t1, num);
    var t3 := AddLower(t2, num);
    var t4 := AddRsi(t3);
    var t5 := AddTr(t4);
    var sma := RollingMeanSeries(Column(t, CloseBtc), 5);
    KeepsPrices(t, "sma_5", sma);
    ColumnOfAssigned(t, "sma_5", sma, "sma_5");
    var up := PlusScaledSeries(Column(t1, "sma_5"), 2.0, RollingStdSeries(Column(t1, CloseBtc), 5, num));
    KeepsPrices(t1, "bollinger_upper", up);
    ColumnOfAssigned(t1, "bollinger_upper", up, "sma_5");
    var lo := PlusScaledSeries(Column(t2, "sma_5"), -2.0, RollingStdSeries(Column(t2, CloseBtc), 5, num));
    KeepsPrices(t2, "bollinger_lower", lo);
    var rsi := RsiSeries(Column(t3, HighBtc), Column(t3, LowBtc));
    KeepsPrices(t3, "rsi", rsi);
    var tr := TrueRangeSeries(Column(t4, HighBtc), Column(t4, LowBtc), Column(t4, CloseVite), Column(t4, CloseBtc));
    ColumnOfAssigned(t4, "tr", tr, "tr");
    assert tr == TrColumn(t);
  }

  /** The columns after `create_features`: the input's, then the six feature
      columns (those not already present) in `feature_columns` order. */
  lemma FeatureColumnsAdded(t: Table, num: Numerics)
    ensures WithFeatures(t, num).columns
      == AddColumnName(AddColumnName(AddColumnName(AddColumnName(AddColumnName(AddColumnName(
           t.columns, FeatureColumns[0]), FeatureColumns[1]), FeatureColumns[2]), FeatureColumns[3]),
           FeatureColumns[4]), FeatureColumns[5])
    ensures forall c :: c in FeatureColumns ==> c in WithFeatures(t, num).columns
    ensures forall c :: c in WithFeatures(t, num).columns ==> c in t.columns || c in FeatureColumns
  {
  }

  /** `sma_5` at row i is the mean of the closes of rows i-4 .. i, and is
      missing for the first four rows. */
  lemma SmaIsTrailingMean(t: Table, i: nat)
    requires i < |t.rows|
    ensures i < 4 ==> Sma(t, i) == Missing
    ensures i >= 4 && (forall j :: i - 4 <= j <= i ==> Get(t.rows[j], CloseBtc).Num?) ==>
      Sma(t, i) == Num((Get(t.rows[i - 4], CloseBtc).x + Get(t.rows[i - 3], CloseBtc).x
        + Get(t.rows[i - 2], CloseBtc).x + Get(t.rows[i - 1], CloseBtc).x + Get(t.rows[i], CloseBtc).x) / 5.0)
  {
    if i >= 4 && (forall j :: i - 4 <= j <= i ==> Get(t.rows[j], CloseBtc).Num?) {
      var w := Window(Column(t, CloseBtc), i, 5);
      assert w == [Get(t.rows[i - 4], CloseBtc), Get(t.rows[i - 3], CloseBtc), Get(t.rows[i - 2], CloseBtc),
                   Get(t.rows[i - 1], CloseBtc), Get(t.rows[i], CloseBtc)];
      assert AllNum(w);
      assert w[..4][..3] == w[..3] && w[..3][..2] == w[..2] && w[..2][..1] == w[..1] && w[..1][..0] == [];
      assert Sum(w[..1]) == w[0].x;
      assert Sum(w[..2]) == w[0].x + w[1].x;
      assert Sum(w[..3]) == w[0].x + w[1].x + w[2].x;
      assert Sum(w[..4]) == w[0].x + w[1].x + w[2].x + w[3].x;
      assert Sum(w) == w[0].x + w[1].x + w[2].x + w[3].x + w[4].x;
    }
  }

  /** The Bollinger bands are symmetric about `sma_5`, upper above and lower below. */
  lemma BandsSymmetric(t: Table, i: nat, num: Numerics)
    requires i < |t.rows| && Sound(num)
    requires Sma(t, i).Num?
    ensures Std(t, i, num).Num?
    ensures var up := PlusScaled(Sma(t, i), 2.0, Std(t, i, num));
            var lo := PlusScaled(Sma(t, i), -2.0, Std(t, i, num));
            up.Num? && lo.Num?
            && up.x + lo.x == 2.0 * Sma(t, i).x
            && up.x >= Sma(t, i).x >= lo.x
  {
    var w := Window(Column(t, CloseBtc), i, 5);
    var v := SquaredDeviations(w, Sum(w) / 5.0) / 4.0;
    assert 0.0 <= num.sqrt(v);
  }

  /** With high >= low > 0 the simplified RSI lies in [50, 100). */
  lemma RsiRange(high: real, low: real)
    requires high >= low > 0.0
    ensures Rsi(Num(high), Num(low)).Num?
    ensures 50.0 <= Rsi(Num(high), Num(low)).x < 100.0
  {
    var q := high / low;
    assert q >= 1.0 by {
      assert high / low * low == high;
    }
    assert 100.0 / (1.0 + q) <= 50.0 by {
      assert 100.0 / (1.0 + q) * (1.0 + q) == 100.0;
    }
    assert 100.0 / (1.0 + q) > 0.0;
  }

  /** With all four prices present and high >= low, the true range is at least
      high - low, hence non-negative. */
  lemma TrueRangeBound(hb: real, lb: real, cv: real, cb: real)
    requires hb >= lb
    ensures TrueRange(Num(hb), Num(lb), Num(cv), Num(cb)).Num?
    ensures TrueRange(Num(hb), Num(lb), Num(cv), Num(cb)).x >= hb - lb >= 0.0
  {
  }

  /** `atr` at row i is missing for the first 13 rows and otherwise the mean of
      the true ranges of rows i-13 .. i. */
  lemma AtrIsTrailingMean(t: Table, i: nat)
    requires i < |t.rows|
    ensures i < 13 ==> Atr(t, i) == Missing
    ensures i >= 13 && AllNum(TrColumn(t)[i - 13..i + 1]) ==>
      Atr(t, i) == Num(Sum(TrColumn(t)[i - 13..i + 1]) / 14.0)
  {
  }

  // ----- Which rows survive `dropna` -----

  /** A frame with every cell present, numeric prices, and a positive low. */
  predicate CleanPrices(t: Table) {
    forall i :: 0 <= i < |t.rows| ==>
      && Complete(t.columns, t.rows[i])
      && Get(t.rows[i], CloseBtc).Num? && Get(t.rows[i], CloseVite).Num?
      && Get(t.rows[i], HighBtc).Num? && Get(t.rows[i], LowBtc).Num?
      && Get(t.rows[i], LowBtc).x > 0.0 && Get(t.rows[i], HighBtc).x >= 0.0
  }

  /** After the 13-row warm-up every derived value of a clean frame is present. */
  lemma WarmupValuesPresent(t: Table, num: Numerics, i: nat)
    requires CleanPrices(t) && 13 <= i < |t.rows|
    ensures Sma(t, i).Num? && Std(t, i, num).Num? && Atr(t, i).Num? && TrAt(t.rows[i]).Num?
    ensures Rsi(Get(t.rows[i], HighBtc), Get(t.rows[i], LowBtc)).Num?
  {
    var close := Column(t, CloseBtc);
    assert AllNum(Window(close, i, 5));
    var trs := TrColumn(t)[i - 13..i + 1];
    assert AllNum(trs) by {
      forall j | 0 <= j < |trs| ensures trs[j].Num? {
        assert trs[j] == TrAt(t.rows[i - 13 + j]);
      }
    }
    var r := t.rows[i];
    assert Get(r, HighBtc).x / Get(r, LowBtc).x >= 0.0;
  }

  lemma CompleteWithFeatureCells(columns: seq<string>, base: seq<string>, r: Row,
                                 sma: Val, up: Val, lo: Val, rsi: Val, tr: Val, atr: Val)
    requires forall c :: c in columns ==> c in base || c in FeatureColumns
    requires Complete(base, r)
    requires sma != Missing && up != Missing && lo != Missing && rsi != Missing && tr != Missing && atr != Missing
    ensures Complete(columns, r["sma_5" := sma]["bollinger_upper" := up]["bollinger_lower" := lo]
                                ["rsi" := rsi]["tr" := tr]["atr" := atr])
  {
  }

  lemma CompleteAfterWarmup(t: Table, num: Numerics, i: nat)
    requires CleanPrices(t) && 13 <= i < |t.rows|
    ensures Complete(WithFeatures(t, num).columns, WithFeatures(t, num).rows[i])
  {
    FeatureValues(t, num, i);
    FeatureColumnsAdded(t, num);
    WarmupValuesPresent(t, num, i);
    CompleteWithFeatureCells(WithFeatures(t, num).columns, t.columns, t.rows[i],
      Sma(t, i), PlusScaled(Sma(t, i), 2.0, Std(t, i, num)), PlusScaled(Sma(t, i), -2.0, Std(t, i, num)),
      Rsi(Get(t.rows[i], HighBtc), Get(t.rows[i], LowBtc)), TrAt(t.rows[i]), Atr(t, i));
  }

  /** On a clean frame exactly the first 13 rows are dropped: they are the
      warm-up of the 14-row ATR, and every later row is complete. */
  lemma DropsExactlyWarmup(t: Table, num: Numerics)
    requires CleanPrices(t)
    ensures DropNa(WithFeatures(t, num)).rows
      == if |t.rows| <= 13 then [] else WithFeatures(t, num).rows[13..]
  {
    var wf := WithFeatures(t, num);
    FeatureColumnsAdded(t, num);
    assert |wf.rows| == |t.rows| by {
      if |t.rows| > 0 { FeatureValues(t, num, 0); }
    }
    var k := if |t.rows| <= 13 then |t.rows| else 13;
    forall i | 0 <= i < k
      ensures !Complete(wf.columns, wf.rows[i])
    {
      FeatureValues(t, num, i);
      assert "atr" in wf.columns;
      assert Get(wf.rows[i], "atr") == Missing;
    }
    forall i | k <= i < |wf.rows|
      ensures Complete(wf.columns, wf.rows[i])
    {
      CompleteAfterWarmup(t, num, i);
    }
    KeepCompleteDropsPrefix(wf.columns, wf.rows, k);
  }

  // ----- No look-ahead -----

  lemma RollingMeanPrefix(vals: seq<Val>, w: nat, k: nat)
    requires w >= 1 && k <= |vals|
    ensures RollingMeanSeries(vals[..k], w) == RollingMeanSeries(vals, w)[..k]
  {
    forall i | 0 <= i < k
      ensures RollingMean(vals[..k], i, w) == RollingMean(vals, i, w)
    {
      if i + 1 >= w {
        assert Window(vals[..k], i, w) == Window(vals, i, w);
      }
    }
  }

  lemma RollingStdPrefix(vals: seq<Val>, w: nat, k: nat, num: Numerics)
    requires w >= 2 && k <= |vals|
    ensures RollingStdSeries(vals[..k], w, num) == RollingStdSeries(vals, w, num)[..k]
  {
    forall i | 0 <= i < k
      ensures RollingStd(vals[..k], i, w, num) == RollingStd(vals, i, w, num)
    {
      if i + 1 >= w {
        assert Window(vals[..k], i, w) == Window(vals, i, w);
      }
    }
  }

  /** No look-ahead: the features of the first k rows are the same whether or
      not the later rows exist, so no value at row t depends on a row after t. */
  lemma {:induction false} NoLookAhead(t: Table, num: Numerics, k: nat)
    requires k <= |t.rows|
    ensures WithFeatures(Table(t.columns, t.rows[..k]), num)
         == Table(WithFeatures(t, num).columns, WithFeatures(t, num).rows[..k])
  {
    var p := Table(t.columns, t.rows[..k]);
    ColumnOfPrefix(t, k, CloseBtc);
    RollingMeanPrefix(Column(t, CloseBtc), 5, k);
    AssignPrefix(t, "sma_5", RollingMeanSeries(Column(t, CloseBtc), 5), k);
    var t1 := AddSma(t);
    var p1 := AddSma(p);
    assert p1 == Table(t1.columns, t1.rows[..k]);

    ColumnOfPrefix(t1, k, "sma_5");
    ColumnOfPrefix(t1, k, CloseBtc);
    RollingStdPrefix(Column(t1, CloseBtc), 5, k, num);
    AssignPrefix(t1, "bollinger_upper",
      PlusScaledSeries(Column(t1, "sma_5"), 2.0, RollingStdSeries(Column(t1, CloseBtc), 5, num)), k);
    var t2 := AddUpper(t1, num);
    var p2 := AddUpper(p1, num);
    assert p2 == Table(t2.columns, t2.rows[..k]);

    ColumnOfPrefix(t2, k, "sma_5");
    ColumnOfPrefix(t2, k, CloseBtc);
    RollingStdPrefix(Column(t2, CloseBtc), 5, k, num);
    AssignPrefix(t2, "bollinger_lower",
      PlusScaledSeries(Column(t2, "sma_5"), -2.0, RollingStdSeries(Column(t2, CloseBtc), 5, num)), k);
    var t3 := AddLower(t2, num);
    var p3 := AddLower(p2, num);
    assert p3 == Table(t3.columns, t3.rows[..k]);

    ColumnOfPrefix(t3, k, HighBtc);
    ColumnOfPrefix(t3, k, LowBtc);
    AssignPrefix(t3, "rsi", RsiSeries(Column(t3, HighBtc), Column(t3, LowBtc)), k);
    var t4 := AddRsi(t3);
    var p4 := AddRsi(p3);
    assert p4 == Table(t4.columns, t4.rows[..k]);

    ColumnOfPrefix(t4, k, HighBtc);
    ColumnOfPrefix(t4, k, LowBtc);
    ColumnOfPrefix(t4, k, CloseVite);
    ColumnOfPrefix(t4, k, CloseBtc);
    AssignPrefix(t4, "tr",
      TrueRangeSeries(Column(t4, HighBtc), Column(t4, LowBtc), Column(t4, CloseVite), Column(t4, CloseBtc)), k);
    var t5 := AddTr(t4);
    var p5 := AddTr(p4);
    assert p5 == Table(t5.columns, t5.rows[..k]);

    ColumnOfPrefix(t5, k, "tr");
    RollingMeanPrefix(Column(t5, "tr"), 14, k);
    AssignPrefix(t5, "atr", RollingMeanSeries(Column(t5, "tr"), 14), k);
  }
}
