/** `MinMaxScalerProcessor`: a pair of min-max scalers (features X and target
    y) with a lazy `is_fitted`/`load` flag, persisted under stage-namespaced
    keys. The scaler arithmetic is sklearn's `MinMaxScaler`, written out. */
module MinMaxScaling {
  import opened Wrappers
  import opened Frames
  import opened Artifacts
  import opened Storage
  import opened Conversion

  // ----- sklearn's MinMaxScaler -----

  /** Every row has a column j. */
  predicate HasColumn(x: Matrix, j: nat) {
    forall i :: 0 <= i < |x| ==> j < |x[i]|
  }

  /** The smallest value of column j, one of the column's own values. */
  function ColMin(x: Matrix, j: nat): (r: real)
    requires |x| >= 1 && HasColumn(x, j)
    ensures forall i :: 0 <= i < |x| ==> r <= x[i][j]
    ensures exists i :: 0 <= i < |x| && r == x[i][j]
    decreases |x|
  {
    if |x| == 1 then x[0][j]
    else
      var m := ColMin(x[1..], j);
      assert forall i :: 1 <= i < |x| ==> x[i] == x[1..][i - 1];
      if x[0][j] <= m then x[0][j] else m
  }

  /** The largest value of column j, one of the column's own values. */
  function ColMax(x: Matrix, j: nat): (r: real)
    requires |x| >= 1 && HasColumn(x, j)
    ensures forall i :: 0 <= i < |x| ==> x[i][j] <= r
    ensures exists i :: 0 <= i < |x| && r == x[i][j]
    decreases |x|
  {
    if |x| == 1 then x[0][j]
    else
      var m := ColMax(x[1..], j);
      assert forall i :: 1 <= i < |x| ==> x[i] == x[1..][i - 1];
      if x[0][j] >= m then x[0][j] else m
  }

  /** `fit`: the per-column minimum and maximum. The range must be increasing
      and the data must hold at least one row and one column. */
  function Fit(lo: real, hi: real, x: Matrix): (r: Result<MinMaxFit>)
    requires Rectangular(x)
    ensures r.Success? <==> lo < hi && |x| >= 1 && Width(x) >= 1
    ensures r.Success? ==> |r.value.dataMin| == |r.value.dataMax| == Width(x)
    ensures r.Success? ==> forall j :: 0 <= j < Width(x) ==>
      r.value.dataMin[j] <= r.value.dataMax[j]
      && (forall i :: 0 <= i < |x| ==> r.value.dataMin[j] <= x[i][j] <= r.value.dataMax[j])
  {
    if lo >= hi then Failure("ValueError: Minimum of desired feature range must be smaller than maximum")
    else if |x| == 0 || Width(x) == 0 then Failure("ValueError: empty array")
    else
      Success(MinMaxFit(seq(Width(x), j requires 0 <= j < Width(x) => ColMin(x, j)),
                        seq(Width(x), j requires 0 <= j < Width(x) => ColMax(x, j))))
  }

  /** The data range of column j, a zero range counting as 1. */
  function Range(f: MinMaxFit, j: nat): (r: real)
    requires j < |f.dataMin| && j < |f.dataMax|
    ensures r != 0.0
  {
    if f.dataMax[j] - f.dataMin[j] == 0.0 then 1.0 else f.dataMax[j] - f.dataMin[j]
  }

  /** `scale_` and `min_` of column j. */
  function Scale(s: MinMaxState, f: MinMaxFit, j: nat): real
    requires j < |f.dataMin| && j < |f.dataMax|
  {
    (s.hi - s.lo) / Range(f, j)
  }

  function Offset(s: MinMaxState, f: MinMaxFit, j: nat): real
    requires j < |f.dataMin| && j < |f.dataMax|
  {
    s.lo - f.dataMin[j] * Scale(s, f, j)
  }

  /** The checks `transform` and `inverse_transform` share: fitted, at least one
      row, and as many columns as the fit. (A fitted scaler always has an
      increasing range, since `Fit` refuses any other.) */
  function CheckInput(s: MinMaxState, x: Matrix): (r: Result<MinMaxFit>)
    requires Rectangular(x)
    ensures r.Success? ==> s.lo < s.hi
  {
    if s.fit.None? then Failure("NotFittedError")
    else if s.lo >= s.hi then Failure("ValueError: Minimum of desired feature range must be smaller than maximum")
    else if |x| == 0 then Failure("ValueError: empty array")
    else if Width(x) != |s.fit.value.dataMin| || Width(x) != |s.fit.value.dataMax| then
      Failure("ValueError: feature count mismatch")
    else Success(s.fit.value)
  }

  /** `transform`: x * scale_ + min_, column by column. */
  function Transform(s: MinMaxState, x: Matrix): (r: Result<Matrix>)
    requires Rectangular(x)
    ensures r.Success? ==> |r.value| == |x| && Rectangular(r.value) && Width(r.value) == Width(x)
  {
    match CheckInput(s, x)
    case Failure(e) => Failure(e)
    case Success(f) =>
      Success(seq(|x|, i requires 0 <= i < |x| =>
        seq(Width(x), j requires 0 <= j < Width(x) => x[i][j] * Scale(s, f, j) + Offset(s, f, j))))
  }

  /** `inverse_transform`: (x - min_) / scale_, column by column. */
  function Inverse(s: MinMaxState, x: Matrix): (r: Result<Matrix>)
    requires Rectangular(x)
    ensures r.Success? ==> |r.value| == |x| && Rectangular(r.value) && Width(r.value) == Width(x)
  {
    match CheckInput(s, x)
    case Failure(e) => Failure(e)
    case Success(f) =>
      Success(seq(|x|, i requires 0 <= i < |x| =>
        seq(Width(x), j requires 0 <= j < Width(x) => (x[i][j] - Offset(s, f, j)) / Scale(s, f, j))))
  }

  lemma ScaleNonZero(s: MinMaxState, f: MinMaxFit, j: nat)
    requires j < |f.dataMin| && j < |f.dataMax| && s.lo < s.hi
    ensures Scale(s, f, j) != 0.0
  {
    var r := Range(f, j);
    if r > 0.0 {
      assert (s.hi - s.lo) / r > 0.0;
    } else {
      assert (s.hi - s.lo) / r < 0.0;
    }
  }

  lemma AffineInverse(x: real, a: real, b: real)
    requires a != 0.0
    ensures (x * a + b - b) / a == x
  {
    assert x * a + b - b == x * a;
  }

  /** With an increasing range, `inverse_transform` undoes `transform`. */
  lemma RoundTrip(s: MinMaxState, x: Matrix)
    requires Rectangular(x) && s.lo < s.hi
    requires Transform(s, x).Success?
    ensures Inverse(s, Transform(s, x).value) == Success(x)
  {
    var f := s.fit.value;
    var t := Transform(s, x).value;
    assert CheckInput(s, t) == Success(f);
    var back := Inverse(s, t).value;
    forall i | 0 <= i < |x|
      ensures back[i] == x[i]
    {
      assert |back[i]| == Width(x) == |x[i]|;
      forall j | 0 <= j < Width(x)
        ensures back[i][j] == x[i][j]
      {
        ScaleNonZero(s, f, j);
        assert t[i][j] == x[i][j] * Scale(s, f, j) + Offset(s, f, j);
        assert back[i][j] == (t[i][j] - Offset(s, f, j)) / Scale(s, f, j);
        AffineInverse(x[i][j], Scale(s, f, j), Offset(s, f, j));
      }
    }
    assert back == x;
  }

  lemma ScaledBounds(s: MinMaxState, f: MinMaxFit, j: nat, v: real)
    requires j < |f.dataMin| && j < |f.dataMax| && s.lo < s.hi
    requires f.dataMin[j] <= v <= f.dataMax[j]
    ensures s.lo <= v * Scale(s, f, j) + Offset(s, f, j) <= s.hi
  {
    var range := Range(f, j);
    var scale := Scale(s, f, j);
    var dmin := f.dataMin[j];
    assert v * scale + Offset(s, f, j) == s.lo + (v - dmin) * scale;
    assert range > 0.0;
    assert scale >= 0.0;
    assert (v - dmin) * scale >= 0.0;
    if f.dataMax[j] - dmin != 0.0 {
      assert scale * range == s.hi - s.lo;
      assert (v - dmin) * scale <= range * scale;
    }
  }

  /** One cell of `transform`: x * scale_ + min_ of its column. */
  lemma TransformAt(s: MinMaxState, f: MinMaxFit, x: Matrix, i: nat, j: nat)
    requires Rectangular(x) && CheckInput(s, x) == Success(f)
    requires i < |x| && j < Width(x)
    ensures Transform(s, x).Success?
    ensures Transform(s, x).value[i][j] == x[i][j] * Scale(s, f, j) + Offset(s, f, j)
  {
  }

  /** Fitting on x and then transforming x puts every value inside the feature
      range [lo, hi]. */
  lemma FitTransformInRange(lo: real, hi: real, x: Matrix)
    requires Rectangular(x) && Fit(lo, hi, x).Success?
    ensures var s := MinMaxState(lo, hi, Some(Fit(lo, hi, x).value));
      && Transform(s, x).Success?
      && forall i, j :: 0 <= i < |x| && 0 <= j < Width(x) ==> lo <= Transform(s, x).value[i][j] <= hi
  {
    var f := Fit(lo, hi, x).value;
    var s := MinMaxState(lo, hi, Some(f));
    assert CheckInput(s, x) == Success(f);
    TransformAt(s, f, x, 0, 0);
    forall i, j | 0 <= i < |x| && 0 <= j < Width(x)
      ensures lo <= Transform(s, x).value[i][j] <= hi
    {
      FittedCellInRange(s, f, x, i, j);
    }
  }

  /** One cell of the data the scaler was fitted on. */
  lemma FittedCellInRange(s: MinMaxState, f: MinMaxFit, x: Matrix, i: nat, j: nat)
    requires Rectangular(x) && CheckInput(s, x) == Success(f) && s.lo < s.hi
    requires i < |x| && j < Width(x) && j < |f.dataMin| && j < |f.dataMax|
    requires f.dataMin[j] <= x[i][j] <= f.dataMax[j]
    ensures Transform(s, x).Success? && s.lo <= Transform(s, x).value[i][j] <= s.hi
  {
    TransformAt(s, f, x, i, j);
    ScaledBounds(s, f, j, x[i][j]);
  }

  // ----- The processor -----

  /** The object a `load_pkl_from_s3` read gives, when it is a min-max scaler;
      `None` for anything else, such as the empty DataFrame a miss reads as. */
  function AsMinMax(p: Option<Pickled>): Option<MinMaxState> {
    if p.Some? && p.value.MinMaxPickle? then Some(p.value.minMax) else None
  }

  /** `get_s3_filename(type)`. */
  function ScalerKey(folder: string, stage: string, kind: string): string {
    folder + "/" + stage + "/min_max_scaler_" + kind + ".pkl"
  }

  /** The X and y scalers live under distinct keys inside the stage's folder. */
  lemma ScalerKeys(folder: string, stage: string)
    ensures ScalerKey(folder, stage, "X") != ScalerKey(folder, stage, "y")
    ensures ScalerKey(folder, stage, "X")[..|folder| + |stage| + 2] == folder + "/" + stage + "/"
  {
    var p := folder + "/" + stage + "/min_max_scaler_";
    assert ScalerKey(folder, stage, "X")[|p|] == 'X';
    assert ScalerKey(folder, stage, "y")[|p|] == 'y';
  }

  /** `fit_transform` of one scaler object; calling it on a non-scaler fails. */
  function FitState(s: Option<MinMaxState>, x: Matrix): (r: Result<MinMaxState>)
    requires Rectangular(x)
    ensures r.Success? ==> s.Some? && r.value.lo == s.value.lo && r.value.hi == s.value.hi && r.value.fit.Some?
  {
    if s.None? then Failure("AttributeError")
    else
      match Fit(s.value.lo, s.value.hi, x)
      case Failure(e) => Failure(e)
      case Success(f) => Success(MinMaxState(s.value.lo, s.value.hi, Some(f)))
  }

  function Apply(s: Option<MinMaxState>, x: Matrix): Result<Matrix>
    requires Rectangular(x)
  {
    if s.None? then Failure("AttributeError") else Transform(s.value, x)
  }

  function ApplyInverse(s: Option<MinMaxState>, x: Matrix): Result<Matrix>
    requires Rectangular(x)
  {
    if s.None? then Failure("AttributeError") else Inverse(s.value, x)
  }

  /** What `transform(X, y)` returns from the given scalers. */
  function TransformPair(sx: Option<MinMaxState>, sy: Option<MinMaxState>,
                         x: ScalerData, y: Option<ScalerData>): Result<(ScalerData, Option<ScalerData>)>
    requires WellShaped(x) && (y.Some? ==> WellShaped(y.value))
  {
    ToNumpyShape(x);
    match Apply(sx, ToNumpy(x))
    case Failure(e) => Failure(e)
    case Success(xs) =>
      if y.None? then Success((ConvertBack(x, xs), None))
      else
        ToNumpyShape(y.value);
        match Apply(sy, ToNumpy(y.value))
        case Failure(e) => Failure(e)
        case Success(ys) => Success((ConvertBack(x, xs), Some(ConvertBack(y.value, ys))))
  }

  /** What `inverse_transform(X, y)` returns from the given scalers. */
  function InversePair(sx: Option<MinMaxState>, sy: Option<MinMaxState>,
                       x: ScalerData, y: Option<ScalerData>): Result<(ScalerData, Option<ScalerData>)>
    requires WellShaped(x) && (y.Some? ==> WellShaped(y.value))
  {
    ToNumpyShape(x);
    match ApplyInverse(sx, ToNumpy(x))
    case Failure(e) => Failure(e)
    case Success(xs) =>
      if y.None? then Success((ConvertBack(x, xs), None))
      else
        ToNumpyShape(y.value);
        match ApplyInverse(sy, ToNumpy(y.value))
        case Failure(e) => Failure(e)
        case Success(ys) => Success((ConvertBack(x, xs), Some(ConvertBack(y.value, ys))))
  }

  /** Data the scalers hand back in a form `_convert_to_numpy` reads as the
      same array: DataFrames and arrays of any width, Series (one column). */
  predicate Tabular(d: ScalerData) {
    d.FrameData? || d.ArrayData? || d.SeriesData?
  }

  lemma {:induction false} ColumnVectorFlatten(m: Matrix)
    requires forall i :: 0 <= i < |m| ==> |m[i]| == 1
    ensures ColumnVector(Flatten(m)) == m
  {
    if m != [] {
      ColumnVectorFlatten(m[1..]);
      assert m[0] == [m[0][0]];
      assert Flatten(m) == [m[0][0]] + Flatten(m[1..]);
    }
  }

  /** Converting back and reading again gives the array that was converted. */
  lemma ReadBack(d: ScalerData, t: Matrix)
    requires Tabular(d) && WellShaped(d) && Rectangular(t)
    requires d.SeriesData? ==> |t| == |d.items| && forall i :: 0 <= i < |t| ==> |t[i]| == 1
    requires d.FrameData? ==> |t| == |d.index| && forall i :: 0 <= i < |t| ==> |t[i]| == |d.columns|
    ensures WellShaped(ConvertBack(d, t))
    ensures ToNumpy(ConvertBack(d, t)) == t
  {
    if d.SeriesData? {
      ColumnVectorFlatten(t);
      FlattenLength(t);
    }
  }

  lemma {:induction false} FlattenLength(m: Matrix)
    requires forall i :: 0 <= i < |m| ==> |m[i]| == 1
    ensures |Flatten(m)| == |m|
  {
    if m != [] {
      FlattenLength(m[1..]);
    }
  }

  /** For DataFrame, array or Series data and increasing ranges,
      `inverse_transform` of what `transform` returned gives back the data,
      labels included. */
  lemma ProcessorRoundTrip(sx: MinMaxState, sy: MinMaxState, x: ScalerData, y: Option<ScalerData>)
    requires sx.lo < sx.hi && sy.lo < sy.hi
    requires WellShaped(x) && Tabular(x) && (y.Some? ==> WellShaped(y.value) && Tabular(y.value))
    requires TransformPair(Some(sx), Some(sy), x, y).Success?
    ensures var (x2, y2) := TransformPair(Some(sx), Some(sy), x, y).value;
      && WellShaped(x2) && (y2.Some? ==> WellShaped(y2.value))
      && InversePair(Some(sx), Some(sy), x2, y2) == Success((x, y))
  {
    ToNumpyShape(x);
    var xs := Transform(sx, ToNumpy(x)).value;
    ReadBack(x, xs);
    RoundTrip(sx, ToNumpy(x));
    ConvertRoundTrip(x);
    if y.Some? {
      ToNumpyShape(y.value);
      var ys := Transform(sy, ToNumpy(y.value)).value;
      ReadBack(y.value, ys);
      RoundTrip(sy, ToNumpy(y.value));
      ConvertRoundTrip(y.value);
    }
  }

  class MinMaxScalerProcessor {
    var scalerX: Option<MinMaxState>
    var scalerY: Option<MinMaxState>
    var isFitted: bool
    const stage: string
    /** The configured model folder (`settings.S3_FOLDER_MODEL`). */
    const folder: string
    const s3: S3Store

    /** A new processor: two unfitted scalers over `(lo, hi)`, not fitted. */
    constructor(stage: string, lo: real, hi: real, folder: string, s3: S3Store)
      ensures this.stage == stage && this.folder == folder && this.s3 == s3
      ensures scalerX == Some(MinMaxState(lo, hi, None)) && scalerY == Some(MinMaxState(lo, hi, None))
      ensures !isFitted
    {
      this.stage := stage;
      this.folder := folder;
      this.s3 := s3;
      scalerX := Some(MinMaxState(lo, hi, None));
      scalerY := Some(MinMaxState(lo, hi, None));
      isFitted := false;
    }

    /** The defaults: stage "staging", range (0, 1). */
    constructor Default(folder: string, s3: S3Store)
      ensures stage == "staging" && this.folder == folder && this.s3 == s3
      ensures scalerX == Some(MinMaxState(0.0, 1.0, None)) && scalerY == Some(MinMaxState(0.0, 1.0, None))
      ensures !isFitted
    {
      stage := "staging";
      this.folder := folder;
      this.s3 := s3;
      scalerX := Some(MinMaxState(0.0, 1.0, None));
      scalerY := Some(MinMaxState(0.0, 1.0, None));
      isFitted := false;
    }

    function KeyX(): string { ScalerKey(folder, stage, "X") }
    function KeyY(): string { ScalerKey(folder, stage, "y") }

    /** `save`: both scalers, X first. */
    method Save()
      requires scalerX.Some? && scalerY.Some?
      modifies s3
      ensures s3.objects == old(s3.objects)[KeyX() := Pickle(MinMaxPickle(scalerX.value))]
                                           [KeyY() := Pickle(MinMaxPickle(scalerY.value))]
    {
      s3.SavePkl(MinMaxPickle(scalerX.value), KeyX());
      s3.SavePkl(MinMaxPickle(scalerY.value), KeyY());
    }

    /** `load`: replace both scalers by what the store holds, and mark the
        processor fitted whatever was found. */
    method Load()
      modifies this
      ensures scalerX == AsMinMax(PickleAt(s3.objects, KeyX()))
      ensures scalerY == AsMinMax(PickleAt(s3.objects, KeyY()))
      ensures isFitted
    {
      var px := s3.LoadPkl(KeyX());
      var py := s3.LoadPkl(KeyY());
      scalerX := AsMinMax(px);
      scalerY := AsMinMax(py);
      isFitted := true;
    }

    /** `fit_transform(X, y)`: fit X's scaler in place, then y's; only when
        both fits succeed is the processor marked fitted and saved. */
    method FitTransform(x: ScalerData, y: ScalerData) returns (r: Result<(ScalerData, ScalerData)>)
      requires WellShaped(x) && WellShaped(y)
      modifies this, s3
      ensures Rectangular(ToNumpy(x)) && Rectangular(ToNumpy(y))
      ensures var fx := FitState(old(scalerX), ToNumpy(x));
              var fy := FitState(old(scalerY), ToNumpy(y));
        && scalerX == (if fx.Success? then Some(fx.value) else old(scalerX))
        && (fx.Failure? || fy.Failure? ==>
              r.Failure? && scalerY == old(scalerY) && isFitted == old(isFitted) && s3.objects == old(s3.objects))
        && (fx.Success? && fy.Success? ==>
              && scalerY == Some(fy.value) && isFitted
              && s3.objects == old(s3.objects)[KeyX() := Pickle(MinMaxPickle(fx.value))]
                                              [KeyY() := Pickle(MinMaxPickle(fy.value))]
              && TransformPair(scalerX, scalerY, x, Some(y)).Success?
              && r == Success((TransformPair(scalerX, scalerY, x, Some(y)).value.0,
                               TransformPair(scalerX, scalerY, x, Some(y)).value.1.value)))
    {
      ToNumpyShape(x);
      ToNumpyShape(y);
      var fx := FitState(scalerX, ToNumpy(x));
      if fx.Failure? {
        return Failure(fx.error);
      }
      scalerX := Some(fx.value);
      var fy := FitState(scalerY, ToNumpy(y));
      if fy.Failure? {
        return Failure(fy.error);
      }
      scalerY := Some(fy.value);
      FitTransformInRange(fx.value.lo, fx.value.hi, ToNumpy(x));
      FitTransformInRange(fy.value.lo, fy.value.hi, ToNumpy(y));
      isFitted := true;
      Save();
      var xs := Transform(fx.value, ToNumpy(x)).value;
      var ys := Transform(fy.value, ToNumpy(y)).value;
      r := Success((ConvertBack(x, xs), ConvertBack(y, ys)));
    }

    /** `transform(X, y=None)`: load first when not fitted. */
    method TransformData(x: ScalerData, y: Option<ScalerData>) returns (r: Result<(ScalerData, Option<ScalerData>)>)
      requires WellShaped(x) && (y.Some? ==> WellShaped(y.value))
      modifies this
      ensures isFitted
      ensures old(isFitted) ==> scalerX == old(scalerX) && scalerY == old(scalerY)
      ensures !old(isFitted) ==>
        scalerX == AsMinMax(PickleAt(s3.objects, KeyX())) && scalerY == AsMinMax(PickleAt(s3.objects, KeyY()))
      ensures r == TransformPair(scalerX, scalerY, x, y)
      ensures r.Success? ==> (r.value.1.None? <==> y.None?)
    {
      if !isFitted {
        Load();
      }
      r := TransformPair(scalerX, scalerY, x, y);
    }

    /** `inverse_transform(X, y=None)`: load first when not fitted. */
    method InverseTransform(x: ScalerData, y: Option<ScalerData>) returns (r: Result<(ScalerData, Option<ScalerData>)>)
      requires WellShaped(x) && (y.Some? ==> WellShaped(y.value))
      modifies this
      ensures isFitted
      ensures old(isFitted) ==> scalerX == old(scalerX) && scalerY == old(scalerY)
      ensures !old(isFitted) ==>
        scalerX == AsMinMax(PickleAt(s3.objects, KeyX())) && scalerY == AsMinMax(PickleAt(s3.objects, KeyY()))
      ensures r == InversePair(scalerX, scalerY, x, y)
      ensures r.Success? ==> (r.value.1.None? <==> y.None?)
    {
      if !isFitted {
        Load();
      }
      r := InversePair(scalerX, scalerY, x, y);
    }
  }

  /** A scaler saved by `fit_transform` is what a fresh processor over the same
      stage and store loads back. */
  lemma SaveThenLoad(objects: map<string, Blob>, folder: string, stage: string, sx: MinMaxState, sy: MinMaxState)
    ensures var saved := objects[ScalerKey(folder, stage, "X") := Pickle(MinMaxPickle(sx))]
                                [ScalerKey(folder, stage, "y") := Pickle(MinMaxPickle(sy))];
      AsMinMax(PickleAt(saved, ScalerKey(folder, stage, "X"))) == Some(sx)
      && AsMinMax(PickleAt(saved, ScalerKey(folder, stage, "y"))) == Some(sy)
  {
    ScalerKeys(folder, stage);
  }
}
