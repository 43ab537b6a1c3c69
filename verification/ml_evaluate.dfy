/** `MlEvaluteService`: the comparison report of the staging and production
    models over the last three months, the `_predict` sequence behind it,
    and the promotion of the staging artifacts to production. */
module MlEvaluate {
  import opened Wrappers
  import opened Frames
  import Strings
  import Dates
  import opened Artifacts
  import opened Storage
  import opened Conversion
  import opened MinMaxScaling
  import opened ModelBase
  import opened Ensemble

  /** The report window starts three calendar months before its end
      (`end_date - relativedelta(months=3)`); a day past the shorter month's
      end is clamped to its last day. */
  function EvaluationStart(end: Dates.Date): (start: Dates.Date)
    requires Dates.Valid(end) && end.year * 12 + end.month - 4 >= 12
    ensures Dates.Valid(start)
    ensures start.year * 12 + start.month == end.year * 12 + end.month - 3
    ensures start.day <= end.day
  {
    Dates.AddMonths(end, -3)
  }

  /** Python's `s[k:]` (and `iloc[k:]`): a negative start counts from the end,
      and a start past either end is clamped. */
  function SliceFrom<T>(s: seq<T>, k: int): (r: seq<T>)
    ensures |r| <= |s| && r == s[|s| - |r|..]
    ensures 0 <= k <= |s| ==> |r| == |s| - k
    ensures k < 0 && -k <= |s| ==> |r| == -k
    ensures k > |s| ==> r == []
    ensures k < 0 && -k > |s| ==> r == s
  {
    if k >= 0 then (if k >= |s| then [] else s[k..])
    else if -k >= |s| then s else s[|s| + k..]
  }

  /** `range(lag)` has this many elements. */
  function Count(lag: int): nat {
    if lag > 0 then lag else 0
  }

  /** One minute in timestamp units (milliseconds). */
  const Minute := 60000

  /** The `lag` future stamps, `frame` minutes apart after `last`. */
  function FutureDates(last: int, frame: int, lag: int): (r: seq<Val>)
    ensures |r| == Count(lag)
    ensures forall i :: 0 <= i < |r| ==> r[i] == Time(last + frame * Minute * (i + 1))
  {
    seq(Count(lag), i requires 0 <= i < Count(lag) => Time(last + frame * Minute * (i + 1)))
  }

  /** The date labels: the tail of the timestamps from position `lag - n`,
      then `lag` future stamps after the last one. `dates[-1]` on an empty
      tail is an IndexError; a non-timestamp cell cannot be shifted. */
  function AlignDates(ts: seq<Val>, lag: int, n: nat, frame: int): (r: Result<seq<Val>>)
    ensures r.Success? ==> |r.value| == |SliceFrom(ts, lag - n)| + Count(lag)
    ensures r.Success? ==> r.value[..|SliceFrom(ts, lag - n)|] == SliceFrom(ts, lag - n)
  {
    var d := SliceFrom(ts, lag - n);
    if lag <= 0 then Success(d)
    else if d == [] then Failure("IndexError: list index out of range")
    else
      match d[|d| - 1]
      case Time(t) => Success(d + FutureDates(t, frame, lag))
      case _ => Failure("TypeError: unsupported operand type(s) for +")
  }

  /** The actual prices: the same tail, then `lag` sentinel values -1. */
  function AlignActual(closes: seq<Val>, lag: int, n: nat): (r: seq<Val>)
    ensures |r| == |SliceFrom(closes, lag - n)| + Count(lag)
    ensures r[..|SliceFrom(closes, lag - n)|] == SliceFrom(closes, lag - n)
    ensures forall i :: |SliceFrom(closes, lag - n)| <= i < |r| ==> r[i] == Num(-1.0)
  {
    SliceFrom(closes, lag - n) + seq(Count(lag), _ => Num(-1.0))
  }

  /** With 0 < lag < n and at least n - lag rows, the labels are the last
      n - lag timestamps followed by `lag` stamps spaced `frame` minutes
      after the last of them: n labels in all. */
  lemma AlignedDates(ts: seq<Val>, lag: int, n: nat, frame: int)
    requires 0 < lag < n && n - lag <= |ts| && ts[|ts| - 1].Time?
    ensures AlignDates(ts, lag, n, frame).Success?
    ensures var d := AlignDates(ts, lag, n, frame).value;
      && |d| == n
      && d[..n - lag] == ts[|ts| - (n - lag)..]
      && forall i :: n - lag <= i < n ==> d[i] == Time(ts[|ts| - 1].t + frame * Minute * (i - (n - lag) + 1))
  {
    var tail := SliceFrom(ts, lag - n);
    assert tail == ts[|ts| - (n - lag)..];
    assert tail[|tail| - 1] == ts[|ts| - 1];
  }

  /** The metric values are fixed placeholders. */
  datatype Scores = Scores(mse: int, mae: int)

  datatype Report = Report(dates: seq<Val>, actual: seq<Val>, currentModel: seq<real>, newModel: seq<real>,
                           currentScores: Scores, newScores: Scores)

  /** The report of `get_predictions`, given the raw prices and both models'
      predictions; a missing column is a KeyError, checked in the source's order. */
  function ReportFor(raw: Table, market: string, lag: int, frame: int, yStg: seq<real>, yPrd: seq<real>): (r: Result<Report>)
    ensures "timestamp" !in raw.columns ==> r.Failure?
    ensures ("close_" + market) !in raw.columns ==> r.Failure?
    ensures r.Success? ==>
      && r.value.newModel == yStg && r.value.currentModel == yPrd
      && r.value.currentScores == Scores(1, 2) && r.value.newScores == Scores(3, 4)
      && |r.value.dates| == |r.value.actual|
      && r.value.actual == AlignActual(Column(raw, "close_" + market), lag, |yStg|)
      && AlignDates(Column(raw, "timestamp"), lag, |yStg|, frame) == Success(r.value.dates)
  {
    if "timestamp" !in raw.columns then Failure("KeyError: 'timestamp'")
    else
      match AlignDates(Column(raw, "timestamp"), lag, |yStg|, frame)
      case Failure(e) => Failure(e)
      case Success(dates) =>
        var close := "close_" + market;
        if close !in raw.columns then Failure("KeyError: '" + close + "'")
        else
          Success(Report(dates, AlignActual(Column(raw, close), lag, |yStg|), yPrd, yStg, Scores(1, 2), Scores(3, 4)))
  }

  /** Scaling a DataFrame gives back a DataFrame of the same labels holding
      the scaled array. */
  lemma FrameTransformShaped(sx: Option<MinMaxState>, sy: Option<MinMaxState>, x: ScalerData)
    requires x.FrameData? && WellShaped(x)
    requires TransformPair(sx, sy, x, None).Success?
    ensures var xs := TransformPair(sx, sy, x, None).value.0;
      && xs.FrameData? && WellShaped(xs) && xs.columns == x.columns && xs.index == x.index
      && ToNumpy(xs) == Apply(sx, ToNumpy(x)).value
  {
    ToNumpyShape(x);
  }

  /** What `_predict` computes from the scalers and the loaded models: scale X,
      average the models' predictions, map them back through the y scaler as
      an n x 1 column, and flatten. */
  function PredictFlow(sx: Option<MinMaxState>, sy: Option<MinMaxState>, states: seq<Option<ModelState>>,
                       learner: Learner, x: ScalerData): (r: Result<seq<real>>)
    requires x.FrameData? && WellShaped(x) && |states| >= 1
  {
    match TransformPair(sx, sy, x, None)
    case Failure(e) => Failure(e)
    case Success(scaled) =>
      FrameTransformShaped(sx, sy, x);
      PredictScaled(sx, sy, states, learner, scaled.0)
  }

  /** The steps of `_predict` after the transform: average the models'
      predictions on the scaled X and unscale the mean. */
  function PredictScaled(sx: Option<MinMaxState>, sy: Option<MinMaxState>, states: seq<Option<ModelState>>,
                         learner: Learner, xs: ScalerData): Result<seq<real>>
    requires WellShaped(xs) && |states| >= 1
  {
    match AllPredictions(states, learner, ToNumpy(xs))
    case Failure(e) => Failure(e)
    case Success(ps) => Unscale(sx, sy, xs, MeanPredictions(ps))
  }

  /** `inverse_transform(X, y_pred)` with the predictions as an n x 1 column,
      then `ravel`. */
  function Unscale(sx: Option<MinMaxState>, sy: Option<MinMaxState>, xs: ScalerData, p: seq<real>): Result<seq<real>>
    requires WellShaped(xs)
  {
    match InversePair(sx, sy, xs, Some(ArrayData(ColumnVector(p))))
    case Failure(e) => Failure(e)
    case Success(back) => Success(Flatten(ToNumpy(back.1.value)))
  }

  /** Mapping an n x 1 column back through a fitted scaler and flattening it
      gives (p - min_) / scale_ for each element. */
  lemma InverseColumn(s: MinMaxState, p: seq<real>)
    requires Inverse(s, ColumnVector(p)).Success?
    ensures s.fit.Some? && |s.fit.value.dataMin| == 1 && |s.fit.value.dataMax| == 1
    ensures var r := Flatten(Inverse(s, ColumnVector(p)).value);
      && |r| == |p|
      && forall j :: 0 <= j < |p| ==> r[j] == (p[j] - Offset(s, s.fit.value, 0)) / Scale(s, s.fit.value, 0)
  {
    var f := s.fit.value;
    var cv := ColumnVector(p);
    assert CheckInput(s, cv) == Success(f);
    assert Width(cv) == 1;
    var q := seq(|p|, j requires 0 <= j < |p| => (p[j] - Offset(s, f, 0)) / Scale(s, f, 0));
    var back := Inverse(s, cv).value;
    forall i | 0 <= i < |p|
      ensures back[i] == ColumnVector(q)[i]
    {
      assert cv[i] == [p[i]];
      assert |back[i]| == 1;
      assert back[i][0] == (cv[i][0] - Offset(s, f, 0)) / Scale(s, f, 0);
    }
    assert back == ColumnVector(q);
    FlattenColumnVector(q);
  }

  /** The unscaled predictions, element by element. */
  lemma UnscaleColumn(sx: Option<MinMaxState>, sy: Option<MinMaxState>, xs: ScalerData, p: seq<real>)
    requires WellShaped(xs) && Unscale(sx, sy, xs, p).Success?
    ensures sy.Some? && sy.value.fit.Some?
    ensures |sy.value.fit.value.dataMin| == 1 && |sy.value.fit.value.dataMax| == 1
    ensures var r := Unscale(sx, sy, xs, p).value;
      && |r| == |p|
      && forall j :: 0 <= j < |p| ==> r[j] == (p[j] - Offset(sy.value, sy.value.fit.value, 0)) / Scale(sy.value, sy.value.fit.value, 0)
  {
    UnscaleThroughY(sx, sy, xs, p);
    InverseColumn(sy.value, p);
  }

  /** Unscaling maps the column through the y scaler alone. */
  lemma UnscaleThroughY(sx: Option<MinMaxState>, sy: Option<MinMaxState>, xs: ScalerData, p: seq<real>)
    requires WellShaped(xs) && Unscale(sx, sy, xs, p).Success?
    ensures sy.Some? && Inverse(sy.value, ColumnVector(p)).Success?
    ensures Unscale(sx, sy, xs, p).value == Flatten(Inverse(sy.value, ColumnVector(p)).value)
  {
    var cv := ColumnVector(p);
    var back := InversePair(sx, sy, xs, Some(ArrayData(cv))).value;
    assert back.1 == Some(ArrayData(ApplyInverse(sy, cv).value));
  }

  /** A successful `_predict` scaled X, got a prediction from every model,
      and unscaled their mean. */
  lemma PredictFlowSteps(sx: Option<MinMaxState>, sy: Option<MinMaxState>, states: seq<Option<ModelState>>,
                         learner: Learner, x: ScalerData)
    requires x.FrameData? && WellShaped(x) && |states| >= 1
    requires PredictFlow(sx, sy, states, learner, x).Success?
    ensures TransformPair(sx, sy, x, None).Success?
    ensures WellShaped(TransformPair(sx, sy, x, None).value.0)
    ensures AllPredictions(states, learner, ToNumpy(TransformPair(sx, sy, x, None).value.0)).Success?
    ensures PredictFlow(sx, sy, states, learner, x)
         == Unscale(sx, sy, TransformPair(sx, sy, x, None).value.0,
                    MeanPredictions(AllPredictions(states, learner, ToNumpy(TransformPair(sx, sy, x, None).value.0)).value))
  {
    FrameTransformShaped(sx, sy, x);
  }

  /** `_predict`: transform X (loading the scalers when unfitted), load the
      models from the ensemble's stage, predict, inverse-transform and ravel. */
  method PredictStage(scaler: MinMaxScalerProcessor, ensemble: EnsembleModel, learner: Learner, x: ScalerData)
    returns (r: Result<seq<real>>)
    requires x.FrameData? && WellShaped(x) && ensemble.Valid()
    modifies scaler, ensemble.models, ensemble.disk
    ensures scaler.isFitted
    ensures TransformPair(scaler.scalerX, scaler.scalerY, x, None).Failure? ==>
      r.Failure? && States(ensemble.models) == old(States(ensemble.models))
    ensures TransformPair(scaler.scalerX, scaler.scalerY, x, None).Success? ==>
      LoadedInOrder(ensemble.models, old(States(ensemble.models)), ensemble.s3.objects, ensemble.stage)
    ensures !LoadsSucceed(ensemble.models, ensemble.s3.objects, ensemble.stage) ==> r.Failure?
    ensures TransformPair(scaler.scalerX, scaler.scalerY, x, None).Success?
            && LoadsSucceed(ensemble.models, ensemble.s3.objects, ensemble.stage)
            ==> && (r.Success? <==> PredictFlow(scaler.scalerX, scaler.scalerY, States(ensemble.models), learner, x).Success?)
                && (r.Success? ==> r == PredictFlow(scaler.scalerX, scaler.scalerY, States(ensemble.models), learner, x))
  {
    var t := scaler.TransformData(x, None);
    if t.Failure? {
      return Failure(t.error);
    }
    FrameTransformShaped(scaler.scalerX, scaler.scalerY, x);
    r := LoadThenPredict(scaler, ensemble, learner, t.value.0);
  }

  /** `_predict` after the transform: load the models, predict with them,
      and map the mean back through the scaler. */
  method LoadThenPredict(scaler: MinMaxScalerProcessor, ensemble: EnsembleModel, learner: Learner, xs: ScalerData)
    returns (r: Result<seq<real>>)
    requires WellShaped(xs) && ensemble.Valid() && scaler.isFitted
    modifies scaler, ensemble.models, ensemble.disk
    ensures scaler.isFitted && scaler.scalerX == old(scaler.scalerX) && scaler.scalerY == old(scaler.scalerY)
    ensures LoadedInOrder(ensemble.models, old(States(ensemble.models)), ensemble.s3.objects, ensemble.stage)
    ensures !LoadsSucceed(ensemble.models, ensemble.s3.objects, ensemble.stage) ==> r.Failure?
    ensures LoadsSucceed(ensemble.models, ensemble.s3.objects, ensemble.stage) ==>
      && (r.Success? <==> PredictScaled(scaler.scalerX, scaler.scalerY, States(ensemble.models), learner, xs).Success?)
      && (r.Success? ==> r == PredictScaled(scaler.scalerX, scaler.scalerY, States(ensemble.models), learner, xs))
  {
    var loaded := ensemble.LoadModel();
    if loaded.Failure? {
      return Failure(loaded.error);
    }
    r := PredictLoaded(scaler, ensemble, learner, xs);
  }

  /** Predict with the loaded models and map the mean back through the scaler. */
  method PredictLoaded(scaler: MinMaxScalerProcessor, ensemble: EnsembleModel, learner: Learner, xs: ScalerData)
    returns (r: Result<seq<real>>)
    requires WellShaped(xs) && ensemble.Valid() && scaler.isFitted
    modifies scaler
    ensures scaler.isFitted && scaler.scalerX == old(scaler.scalerX) && scaler.scalerY == old(scaler.scalerY)
    ensures r.Success? <==> PredictScaled(scaler.scalerX, scaler.scalerY, States(ensemble.models), learner, xs).Success?
    ensures r.Success? ==> r == PredictScaled(scaler.scalerX, scaler.scalerY, States(ensemble.models), learner, xs)
  {
    var yPred := ensemble.Predict(learner, ToNumpy(xs));
    if yPred.Failure? {
      return Failure(yPred.error);
    }
    var back := scaler.InverseTransform(xs, Some(ArrayData(ColumnVector(yPred.value))));
    if back.Failure? {
      return Failure(back.error);
    }
    r := Success(Flatten(ToNumpy(back.value.1.value)));
    assert r == Unscale(scaler.scalerX, scaler.scalerY, xs, yPred.value);
  }

  /** The promotion folders use the fixed constant `ml_models`. */
  const ModelFolder := "ml_models"
  const Staging := ModelFolder + "/staging"
  const Production := ModelFolder + "/production"

  function ArchiveFolder(today: Dates.Date): string
    requires Dates.Valid(today)
  {
    ModelFolder + "/archived/" + Dates.Format(today)
  }

  /** A key under one folder is not under another whose name differs at a
      position both share. */
  lemma DisjointFolders(k: string, a: string, b: string, i: nat)
    requires Strings.StartsWith(k, a) && i < |a| && i < |b| && a[i] != b[i]
    ensures !Strings.StartsWith(k, b)
  {
    assert k[i] == a[i];
  }

  /** Whether copying folder `src` to `dst` raises, and with which message. */
  type CopyFault = (string, string) -> Option<string>

  /** `promote_model`: archive production under today's date, then copy
      staging over production; the first error stops the promotion. */
  method PromoteModel(s3: S3Store, today: Dates.Date, fault: CopyFault) returns (r: Result<bool>)
    requires Dates.Valid(today)
    modifies s3
    ensures var arc := ArchiveFolder(today);
      && (r.Success? <==> fault(Production, arc).None? && fault(Staging, Production).None?)
      && (fault(Production, arc).Some? ==> r == Failure(fault(Production, arc).value) && s3.objects == old(s3.objects))
      && (fault(Production, arc).None? && fault(Staging, Production).Some? ==>
            r == Failure(fault(Staging, Production).value) && s3.objects == CopiedFolder(old(s3.objects), Production, arc))
      && (r.Success? ==> r.value && s3.objects == CopiedFolder(CopiedFolder(old(s3.objects), Production, arc), Staging, Production))
  {
    var arc := ArchiveFolder(today);
    var e1 := fault(Production, arc);
    if e1.Some? {
      return Failure(e1.value);
    }
    s3.CopyFolder(Production, arc);
    var e2 := fault(Staging, Production);
    if e2.Some? {
      return Failure(e2.value);
    }
    s3.CopyFolder(Staging, Production);
    r := Success(true);
  }

  /** An archived copy of a production artifact survives the second copy,
      which writes only under production. */
  lemma ArchivedSurvives(objects: map<string, Blob>, arc: string, k: string)
    requires Strings.StartsWith(arc + "/", ModelFolder + "/archived/")
    requires k in objects && Strings.StartsWith(k, Production + "/")
    ensures var after := CopiedFolder(CopiedFolder(objects, Production, arc), Staging, Production);
      Moved(k, Production, arc) in after && after[Moved(k, Production, arc)] == objects[k]
  {
    var m := Moved(k, Production, arc);
    MovedInDst(k, Production, arc);
    assert (arc + "/")[10] == 'a';
    DisjointFolders(m, arc + "/", Production + "/", 10);
  }

  /** A staging artifact reaches production with its value from before the
      archive copy, which writes only under the archive. */
  lemma StagingPromoted(objects: map<string, Blob>, arc: string, k: string)
    requires Strings.StartsWith(arc + "/", ModelFolder + "/archived/")
    requires k in objects && Strings.StartsWith(k, Staging + "/")
    ensures var after := CopiedFolder(CopiedFolder(objects, Production, arc), Staging, Production);
      Moved(k, Staging, Production) in after && after[Moved(k, Staging, Production)] == objects[k]
  {
    assert (arc + "/")[10] == 'a';
    DisjointFolders(k, Staging + "/", arc + "/", 10);
  }

  lemma ArchiveFolderShape(today: Dates.Date)
    requires Dates.Valid(today)
    ensures Strings.StartsWith(ArchiveFolder(today) + "/", ModelFolder + "/archived/")
  {
    assert (ArchiveFolder(today) + "/")[..|ModelFolder + "/archived/"|] == ModelFolder + "/archived/";
  }

  /** After a promotion the archive holds the production artifacts as they
      were before it, and production holds the staging ones. */
  lemma PromotionArchivesOldProduction(objects: map<string, Blob>, today: Dates.Date)
    requires Dates.Valid(today)
    ensures var arc := ArchiveFolder(today);
      var after := CopiedFolder(CopiedFolder(objects, Production, arc), Staging, Production);
      && (forall k :: k in objects && Strings.StartsWith(k, Production + "/") ==>
            Moved(k, Production, arc) in after && after[Moved(k, Production, arc)] == objects[k])
      && (forall k :: k in objects && Strings.StartsWith(k, Staging + "/") ==>
            Moved(k, Staging, Production) in after && after[Moved(k, Staging, Production)] == objects[k])
  {
    var arc := ArchiveFolder(today);
    ArchiveFolderShape(today);
    forall k | k in objects && Strings.StartsWith(k, Production + "/")
      ensures var after := CopiedFolder(CopiedFolder(objects, Production, arc), Staging, Production);
        Moved(k, Production, arc) in after && after[Moved(k, Production, arc)] == objects[k]
    {
      ArchivedSurvives(objects, arc, k);
    }
    forall k | k in objects && Strings.StartsWith(k, Staging + "/")
      ensures var after := CopiedFolder(CopiedFolder(objects, Production, arc), Staging, Production);
        Moved(k, Staging, Production) in after && after[Moved(k, Staging, Production)] == objects[k]
    {
      StagingPromoted(objects, arc, k);
    }
  }

  /** Models are saved under the settings folder; unless that folder is
      `ml_models` itself (or lies inside it), their keys are outside both
      folders a promotion copies. */
  lemma PromotionMissesSettingsFolder(folder: string, stage: string, filename: string)
    requires !Strings.StartsWith(folder + "/", ModelFolder + "/")
    ensures !Strings.StartsWith(ArtifactKey(folder, stage, filename), Staging + "/")
    ensures !Strings.StartsWith(ArtifactKey(folder, stage, filename), Production + "/")
  {
    var k := ArtifactKey(folder, stage, filename);
    var p := folder + "/";
    assert k == p + (stage + "/" + filename);
    assert (Staging + "/")[..10] == ModelFolder + "/";
    assert (Production + "/")[..10] == ModelFolder + "/";
    if |p| >= 10 {
      assert k[..10] == p[..10];
    } else {
      var i := |folder|;
      assert k[i] == '/';
      assert (Staging + "/")[i] != '/' && (Production + "/")[i] != '/';
    }
  }
}
