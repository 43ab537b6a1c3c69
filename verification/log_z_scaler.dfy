/** `LogZScalerProcessor`: features only, clamped at 0, passed through
    log1p, then standardised with sklearn's `StandardScaler`; the inverse
    unstandardises and then applies expm1. The same lazy `is_fitted`/`load`
    flag as the min-max processor, one key per stage. */
module LogZScaling {
  import opened Wrappers
  import opened Frames
  import opened Numerics
  import opened Artifacts
  import opened Storage
  import opened Conversion

  // ----- sklearn's StandardScaler -----

  predicate HasColumn(x: Matrix, j: nat) {
    forall i :: 0 <= i < |x| ==> j < |x[i]|
  }

  function ColSum(x: Matrix, j: nat): real
    requires HasColumn(x, j)
  {
    if x == [] then 0.0 else x[0][j] + ColSum(x[1..], j)
  }

  function ColSquares(x: Matrix, j: nat, m: real): real
    requires HasColumn(x, j)
  {
    if x == [] then 0.0 else (x[0][j] - m) * (x[0][j] - m) + ColSquares(x[1..], j, m)
  }

  /** `fit`: per-column mean and population standard deviation, a zero
      deviation replaced by 1; at least one row and one column. */
  function Fit(num: Numerics, x: Matrix): (r: Result<StandardFit>)
    requires Rectangular(x)
    ensures r.Success? <==> |x| >= 1 && Width(x) >= 1
    ensures r.Success? ==> |r.value.mean| == |r.value.scale| == Width(x)
    ensures r.Success? ==> forall j :: 0 <= j < Width(x) ==> r.value.scale[j] != 0.0
  {
    if |x| == 0 || Width(x) == 0 then Failure("ValueError: empty array")
    else
      var mean := seq(Width(x), j requires 0 <= j < Width(x) => ColSum(x, j) / |x| as real);
      Success(StandardFit(mean, seq(Width(x), j requires 0 <= j < Width(x) =>
        var sd := num.sqrt(ColSquares(x, j, mean[j]) / |x| as real);
        if sd == 0.0 then 1.0 else sd)))
  }

  /** A fit that standardisation can use: as many means as scales, none zero.
      Every fit `Fit` produces is one. */
  predicate Usable(f: StandardFit) {
    |f.mean| == |f.scale| && forall j :: 0 <= j < |f.scale| ==> f.scale[j] != 0.0
  }

  function CheckInput(s: Option<StandardFit>, x: Matrix): (r: Result<StandardFit>)
    requires Rectangular(x)
    ensures r.Success? ==> Usable(r.value) && Width(x) == |r.value.mean|
  {
    if s.None? then Failure("NotFittedError")
    else if |x| == 0 then Failure("ValueError: empty array")
    else if !Usable(s.value) then Failure("ValueError: not a fitted scaler")
    else if Width(x) != |s.value.mean| then Failure("ValueError: feature count mismatch")
    else Success(s.value)
  }

  /** `transform`: (x - mean) / scale. */
  function Standardise(s: Option<StandardFit>, x: Matrix): (r: Result<Matrix>)
    requires Rectangular(x)
    ensures r.Success? ==> |r.value| == |x| && Rectangular(r.value) && Width(r.value) == Width(x)
  {
    match CheckInput(s, x)
    case Failure(e) => Failure(e)
    case Success(f) =>
      Success(seq(|x|, i requires 0 <= i < |x| =>
        seq(Width(x), j requires 0 <= j < Width(x) => (x[i][j] - f.mean[j]) / f.scale[j])))
  }

  /** `inverse_transform`: x * scale + mean. */
  function Unstandardise(s: Option<StandardFit>, x: Matrix): (r: Result<Matrix>)
    requires Rectangular(x)
    ensures r.Success? ==> |r.value| == |x| && Rectangular(r.value) && Width(r.value) == Width(x)
  {
    match CheckInput(s, x)
    case Failure(e) => Failure(e)
    case Success(f) =>
      Success(seq(|x|, i requires 0 <= i < |x| =>
        seq(Width(x), j requires 0 <= j < Width(x) => x[i][j] * f.scale[j] + f.mean[j])))
  }

  /** Unstandardising a standardised array gives it back. */
  lemma StandardRoundTrip(s: Option<StandardFit>, x: Matrix)
    requires Rectangular(x) && Standardise(s, x).Success?
    ensures Unstandardise(s, Standardise(s, x).value) == Success(x)
  {
    var f := s.value;
    var t := Standardise(s, x).value;
    assert CheckInput(s, t) == Success(f);
    var back := Unstandardise(s, t).value;
    forall i | 0 <= i < |x|
      ensures back[i] == x[i]
    {
      assert |back[i]| == Width(x) == |x[i]|;
      forall j | 0 <= j < Width(x)
        ensures back[i][j] == x[i][j]
      {
        var d := x[i][j] - f.mean[j];
        assert t[i][j] == d / f.scale[j];
        assert d / f.scale[j] * f.scale[j] == d;
      }
    }
    assert back == x;
  }

  // ----- The log step -----

  function Clamp(v: real): real {
    if v < 0.0 then 0.0 else v
  }

  /** Apply `g` to every cell. */
  function MapCells(x: Matrix, g: real -> real): (r: Matrix)
    ensures |r| == |x| && forall i :: 0 <= i < |x| ==> |r[i]| == |x[i]|
    ensures forall i, j :: 0 <= i < |x| && 0 <= j < |x[i]| ==> r[i][j] == g(x[i][j])
  {
    seq(|x|, i requires 0 <= i < |x| => seq(|x[i]|, j requires 0 <= j < |x[i]| => g(x[i][j])))
  }

  /** `_log_transform`: log1p of the value clamped at 0. */
  function LogTransform(num: Numerics, x: Matrix): Matrix {
    MapCells(x, v => num.log1p(Clamp(v)))
  }

  /** `_inverse_log_transform`: expm1. */
  function InverseLogTransform(num: Numerics, x: Matrix): Matrix {
    MapCells(x, v => num.expm1(v))
  }

  /** Negative inputs are clamped first, so every negative value transforms
      exactly like 0, and the log round trip returns max(x, 0). */
  lemma LogRoundTrip(num: Numerics, x: Matrix)
    requires Sound(num)
    ensures forall i, j :: 0 <= i < |x| && 0 <= j < |x[i]| && x[i][j] < 0.0 ==>
      LogTransform(num, x)[i][j] == num.log1p(0.0)
    ensures InverseLogTransform(num, LogTransform(num, x)) == MapCells(x, Clamp)
  {
    var l := LogTransform(num, x);
    var back := InverseLogTransform(num, l);
    forall i | 0 <= i < |x|
      ensures back[i] == MapCells(x, Clamp)[i]
    {
      forall j | 0 <= j < |x[i]|
        ensures back[i][j] == Clamp(x[i][j])
      {
        assert back[i][j] == num.expm1(num.log1p(Clamp(x[i][j])));
      }
    }
  }

  // ----- The processor -----

  /** What the processor holds in `scaler_X`: a `StandardScaler`, fitted or
      not, or whatever a load read that is not one (a miss reads as an empty
      DataFrame). */
  datatype ScalerObject = StandardScaler(fit: Option<StandardFit>) | NotAScaler

  function AsStandard(p: Option<Pickled>): ScalerObject {
    if p.Some? && p.value.StandardPickle? then StandardScaler(p.value.standard) else NotAScaler
  }

  /** `get_s3_filename`: always under the fixed "ml_models" folder. */
  function ScalerKey(stage: string): string {
    "ml_models/" + stage + "/log_z_scaler.pkl"
  }

  function AsMatrix(x: ScalerData): (m: Matrix)
    requires WellShaped(x)
    ensures Rectangular(m)
  {
    ToNumpyShape(x);
    ToNumpy(x)
  }

  lemma MapCellsRectangular(x: Matrix, g: real -> real)
    requires Rectangular(x)
    ensures Rectangular(MapCells(x, g)) && Width(MapCells(x, g)) == Width(x)
  {
  }

  /** What `transform(X)` returns from the given scaler. */
  function TransformWith(sc: ScalerObject, num: Numerics, x: ScalerData): Result<ScalerData>
    requires WellShaped(x)
  {
    var logged := LogTransform(num, AsMatrix(x));
    MapCellsRectangular(AsMatrix(x), v => num.log1p(Clamp(v)));
    if sc.NotAScaler? then Failure("AttributeError")
    else
      match Standardise(sc.fit, logged)
      case Failure(e) => Failure(e)
      case Success(t) => Success(ConvertBack(x, t))
  }

  /** What `inverse_transform(X)` returns from the given scaler. */
  function InverseWith(sc: ScalerObject, num: Numerics, x: ScalerData): Result<ScalerData>
    requires WellShaped(x)
  {
    if sc.NotAScaler? then Failure("AttributeError")
    else
      match Unstandardise(sc.fit, AsMatrix(x))
      case Failure(e) => Failure(e)
      case Success(t) => Success(ConvertBack(x, InverseLogTransform(num, t)))
  }

  /** For DataFrame or array data, `inverse_transform` of what `transform`
      returned is the data with negatives replaced by 0, labels kept: the
      inverse undoes the standardisation first and the log last, the reverse
      of the forward order. */
  lemma ProcessorRoundTrip(sc: ScalerObject, num: Numerics, x: ScalerData)
    requires Sound(num) && WellShaped(x) && (x.FrameData? || x.ArrayData?)
    requires TransformWith(sc, num, x).Success?
    ensures WellShaped(TransformWith(sc, num, x).value)
    ensures InverseWith(sc, num, TransformWith(sc, num, x).value) == Success(ConvertBack(x, MapCells(AsMatrix(x), Clamp)))
  {
    var m := AsMatrix(x);
    var logged := LogTransform(num, m);
    MapCellsRectangular(m, v => num.log1p(Clamp(v)));
    var t := Standardise(sc.fit, logged).value;
    StandardRoundTrip(sc.fit, logged);
    LogRoundTrip(num, m);
    var y := TransformWith(sc, num, x).value;
    assert AsMatrix(y) == t;
  }

  class LogZScalerProcessor {
    var scalerX: ScalerObject
    var isFitted: bool
    const stage: string
    const num: Numerics
    const s3: S3Store

    /** A new processor holds an unfitted scaler and is not fitted; the
        default stage is "staging". */
    constructor(stage: string, num: Numerics, s3: S3Store)
      ensures this.stage == stage && this.num == num && this.s3 == s3
      ensures scalerX == StandardScaler(None) && !isFitted
    {
      this.stage := stage;
      this.num := num;
      this.s3 := s3;
      scalerX := StandardScaler(None);
      isFitted := false;
    }

    function Key(): string { ScalerKey(stage) }

    /** `load`: replace the scaler by what the store holds; fitted regardless. */
    method Load()
      modifies this
      ensures scalerX == AsStandard(PickleAt(s3.objects, Key())) && isFitted
    {
      var p := s3.LoadPkl(Key());
      scalerX := AsStandard(p);
      isFitted := true;
    }

    /** `fit_transform(X)`: log, fit the scaler in place, mark fitted, save. */
    method FitTransform(x: ScalerData) returns (r: Result<ScalerData>)
      requires WellShaped(x)
      modifies this, s3
      ensures var logged := LogTransform(num, AsMatrix(x));
        && Rectangular(logged)
        && (old(scalerX).NotAScaler? || Fit(num, logged).Failure? ==>
              r.Failure? && scalerX == old(scalerX) && isFitted == old(isFitted) && s3.objects == old(s3.objects))
        && (old(scalerX).StandardScaler? && Fit(num, logged).Success? ==>
              && scalerX == StandardScaler(Some(Fit(num, logged).value)) && isFitted
              && s3.objects == old(s3.objects)[Key() := Pickle(StandardPickle(Some(Fit(num, logged).value)))]
              && r == TransformWith(scalerX, num, x) && r.Success?)
    {
      var logged := LogTransform(num, AsMatrix(x));
      MapCellsRectangular(AsMatrix(x), v => num.log1p(Clamp(v)));
      if scalerX.NotAScaler? {
        return Failure("AttributeError");
      }
      var f := Fit(num, logged);
      if f.Failure? {
        return Failure(f.error);
      }
      scalerX := StandardScaler(Some(f.value));
      isFitted := true;
      s3.SavePkl(StandardPickle(Some(f.value)), Key());
      r := TransformWith(scalerX, num, x);
    }

    /** `transform(X)`: load first when not fitted. */
    method Transform(x: ScalerData) returns (r: Result<ScalerData>)
      requires WellShaped(x)
      modifies this
      ensures isFitted
      ensures scalerX == if old(isFitted) then old(scalerX) else AsStandard(PickleAt(s3.objects, Key()))
      ensures r == TransformWith(scalerX, num, x)
    {
      if !isFitted {
        Load();
      }
      r := TransformWith(scalerX, num, x);
    }

    /** `inverse_transform(X)`: load first when not fitted. */
    method InverseTransform(x: ScalerData) returns (r: Result<ScalerData>)
      requires WellShaped(x)
      modifies this
      ensures isFitted
      ensures scalerX == if old(isFitted) then old(scalerX) else AsStandard(PickleAt(s3.objects, Key()))
      ensures r == InverseWith(scalerX, num, x)
    {
      if !isFitted {
        Load();
      }
      r := InverseWith(scalerX, num, x);
    }
  }
}
