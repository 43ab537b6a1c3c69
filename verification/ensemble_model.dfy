/** `EnsembleModel`: the constituent models in dict order (only XGBoost is
    enabled), trained and saved per stage, loaded, and averaged. */
module Ensemble {
  import opened Wrappers
  import opened Frames
  import opened Artifacts
  import opened Storage
  import opened ModelBase

  // ----- Averaging -----

  /** The length of the shortest prediction. */
  function MinLength(ps: seq<seq<real>>): (n: nat)
    requires |ps| >= 1
    ensures forall k :: 0 <= k < |ps| ==> n <= |ps[k]|
    ensures exists k :: 0 <= k < |ps| && n == |ps[k]|
    decreases |ps|
  {
    if |ps| == 1 then |ps[0]|
    else
      var m := MinLength(ps[1..]);
      assert forall k :: 1 <= k < |ps| ==> ps[k] == ps[1..][k - 1];
      if |ps[0]| <= m then |ps[0]| else m
  }

  /** The sum over the predictions of element j. */
  function SumAt(ps: seq<seq<real>>, j: nat): real
    requires forall k :: 0 <= k < |ps| ==> j < |ps[k]|
  {
    if ps == [] then 0.0 else ps[0][j] + SumAt(ps[1..], j)
  }

  /** `predict`'s aggregation: when the lengths differ every prediction is
      cut to the shortest one (with a warning, not an error), then the
      elementwise mean is taken. */
  function MeanPredictions(ps: seq<seq<real>>): (r: seq<real>)
    requires |ps| >= 1
    ensures |r| == MinLength(ps)
  {
    seq(MinLength(ps), j requires 0 <= j < MinLength(ps) => SumAt(ps, j) / |ps| as real)
  }

  lemma {:induction false} SumAtBounds(ps: seq<seq<real>>, j: nat, lo: real, hi: real)
    requires forall k :: 0 <= k < |ps| ==> j < |ps[k]| && lo <= ps[k][j] <= hi
    ensures |ps| as real * lo <= SumAt(ps, j) <= |ps| as real * hi
  {
    if ps != [] {
      SumAtBounds(ps[1..], j, lo, hi);
    }
  }

  lemma DivBounds(s: real, n: real, lo: real, hi: real)
    requires n > 0.0 && n * lo <= s <= n * hi
    ensures lo <= s / n <= hi
  {
  }

  /** Each averaged element lies between the smallest and the largest of the
      predictions it averages. */
  lemma MeanBetween(ps: seq<seq<real>>, j: nat, lo: real, hi: real)
    requires |ps| >= 1
    requires forall k :: 0 <= k < |ps| ==> j < |ps[k]| && lo <= ps[k][j] <= hi
    ensures j < |MeanPredictions(ps)| && lo <= MeanPredictions(ps)[j] <= hi
  {
    SumAtBounds(ps, j, lo, hi);
    var m := MeanPredictions(ps);
    assert m[j] == SumAt(ps, j) / |ps| as real;
    DivBounds(SumAt(ps, j), |ps| as real, lo, hi);
  }

  /** All predictions of equal length give a result of that same length: the
      truncation only happens when lengths differ. */
  lemma EqualLengthsKeepLength(ps: seq<seq<real>>)
    requires |ps| >= 1 && forall k :: 0 <= k < |ps| ==> |ps[k]| == |ps[0]|
    ensures |MeanPredictions(ps)| == |ps[0]|
  {
  }

  /** With the one enabled model, the ensemble prediction is that model's
      output unchanged. */
  lemma SingleModelIdentity(p: seq<real>)
    ensures MeanPredictions([p]) == p
  {
    assert MinLength([p]) == |p|;
    forall j | 0 <= j < |p|
      ensures MeanPredictions([p])[j] == p[j]
    {
      assert [p][1..] == [];
      assert SumAt([p], j) == p[j];
    }
  }

  /** Sums at j agree for two lists of predictions that agree at j. */
  lemma {:induction false} SumAtPointwise(ps: seq<seq<real>>, qs: seq<seq<real>>, j: nat)
    requires |ps| == |qs|
    requires forall k :: 0 <= k < |ps| ==> j < |ps[k]| && j < |qs[k]| && ps[k][j] == qs[k][j]
    ensures SumAt(ps, j) == SumAt(qs, j)
  {
    if ps != [] {
      SumAtPointwise(ps[1..], qs[1..], j);
    }
  }

  /** Every prediction cut to the first n values. */
  function CutTo(ps: seq<seq<real>>, n: nat): (r: seq<seq<real>>)
    requires forall k :: 0 <= k < |ps| ==> n <= |ps[k]|
    ensures |r| == |ps| && forall k :: 0 <= k < |ps| ==> r[k] == ps[k][..n]
  {
    seq(|ps|, k requires 0 <= k < |ps| => ps[k][..n])
  }

  /** Averaging predictions of different lengths is averaging them after
      cutting each to the shortest: the cut lists all have that one length,
      and nothing beyond it takes part. */
  lemma CutToShortest(ps: seq<seq<real>>)
    requires |ps| >= 1
    ensures forall k :: 0 <= k < |ps| ==> |CutTo(ps, MinLength(ps))[k]| == MinLength(ps)
    ensures MeanPredictions(ps) == MeanPredictions(CutTo(ps, MinLength(ps)))
  {
    var n := MinLength(ps);
    var cut := CutTo(ps, n);
    assert MinLength(cut) == n;
    forall j | 0 <= j < n
      ensures MeanPredictions(ps)[j] == MeanPredictions(cut)[j]
    {
      SumAtPointwise(ps, cut, j);
    }
  }

  /** Two models: the elementwise mean over the shorter length. */
  lemma TwoModelMean(a: seq<real>, b: seq<real>)
    ensures |MeanPredictions([a, b])| == if |a| <= |b| then |a| else |b|
    ensures forall j :: 0 <= j < |MeanPredictions([a, b])| ==> MeanPredictions([a, b])[j] == (a[j] + b[j]) / 2.0
  {
    var ps := [a, b];
    assert ps[1..] == [b] && ps[1..][1..] == [];
    assert MinLength(ps) == if |a| <= |b| then |a| else |b|;
    forall j | 0 <= j < MinLength(ps)
      ensures MeanPredictions(ps)[j] == (a[j] + b[j]) / 2.0
    {
      assert SumAt([b], j) == b[j] + SumAt([], j);
      assert SumAt(ps, j) == a[j] + SumAt([b], j);
    }
  }

  /** Two worked instances of `CutToShortest` and `TwoModelMean`. */
  lemma MeanExamples()
    ensures MeanPredictions([[1.0, 2.0, 3.0], [3.0, 4.0, 5.0]]) == [2.0, 3.0, 4.0]
    ensures MeanPredictions([[1.0, 2.0, 3.0], [3.0, 4.0]]) == [2.0, 3.0]
  {
    var a: seq<seq<real>> := [[1.0, 2.0, 3.0], [3.0, 4.0, 5.0]];
    assert a[1..][1..] == [];
    assert MinLength(a) == 3;
    var b: seq<seq<real>> := [[1.0, 2.0, 3.0], [3.0, 4.0]];
    assert b[1..][1..] == [];
    assert MinLength(b) == 2;
  }

  // ----- The ensemble -----

  type Importance = (string, Option<ModelState>, Matrix) -> Result<seq<real>>

  function Names(models: seq<MlModel>): seq<string> {
    seq(|models|, i requires 0 <= i < |models| => models[i].kind)
  }

  /** The models' library objects, in order. */
  function States(models: seq<MlModel>): seq<Option<ModelState>>
    reads models
  {
    seq(|models|, i reads models requires 0 <= i < |models| => models[i].model)
  }

  /** The predictions of the models in order, or the first failure. */
  function AllPredictions(states: seq<Option<ModelState>>, learner: Learner, x: Matrix): (r: Result<seq<seq<real>>>)
    ensures r.Success? ==> |r.value| == |states|
    ensures r.Success? ==> forall k :: 0 <= k < |states| ==> PredictWith(states[k], learner, x) == Success(r.value[k])
    ensures r.Failure? <==> exists k :: 0 <= k < |states| && PredictWith(states[k], learner, x).Failure?
  {
    if states == [] then Success([])
    else
      match PredictWith(states[0], learner, x)
      case Failure(e) => Failure(e)
      case Success(p) =>
        match AllPredictions(states[1..], learner, x)
        case Failure(e) =>
          assert forall k :: 1 <= k < |states| ==> states[k] == states[1..][k - 1];
          Failure(e)
        case Success(ps) =>
          assert forall k :: 1 <= k < |states| ==> states[k] == states[1..][k - 1];
          Success([p] + ps)
  }

  /** The feature importances of the models in order, or the first failure. */
  function AllImportances(names: seq<string>, states: seq<Option<ModelState>>, importance: Importance, x: Matrix)
    : (r: Result<seq<seq<real>>>)
    requires |names| == |states|
    ensures r.Success? ==> |r.value| == |states|
    ensures r.Success? ==> forall k :: 0 <= k < |states| ==> importance(names[k], states[k], x) == Success(r.value[k])
    ensures r.Failure? <==> exists k :: 0 <= k < |states| && importance(names[k], states[k], x).Failure?
  {
    if states == [] then Success([])
    else
      match importance(names[0], states[0], x)
      case Failure(e) => Failure(e)
      case Success(p) =>
        assert forall k :: 1 <= k < |states| ==> states[k] == states[1..][k - 1] && names[k] == names[1..][k - 1];
        match AllImportances(names[1..], states[1..], importance, x)
        case Failure(e) => Failure(e)
        case Success(ps) => Success([p] + ps)
  }

  /** The objects after saving the given models one by one. */
  function SavedModels(objects: map<string, Blob>, models: seq<MlModel>, stage: string): map<string, Blob>
    reads models
  {
    if models == [] then objects
    else
      var m := models[|models| - 1];
      var before := SavedModels(objects, models[..|models| - 1], stage);
      if m.model.Some? then before[m.Key(stage) := ModelFile(m.model.value)] else before
  }

  /** A model's library object after `load_from_s3` from the given key. */
  function Loaded(before: Option<ModelState>, objects: map<string, Blob>, key: string): Option<ModelState> {
    if LoadOutcome(objects, key) == Success(true) then Some(objects[key].model) else before
  }

  /** Every model's artifact under `stage` loads: it is absent or a model file. */
  ghost predicate LoadsSucceed(models: seq<MlModel>, objects: map<string, Blob>, stage: string)
    reads models
  {
    forall i :: 0 <= i < |models| ==> LoadOutcome(objects, models[i].Key(stage)).Success?
  }

  /** The models after loading them in order from `stage`, starting from the
      library objects `before`: each model up to and including the first
      failing load has gone through `load_from_s3`, the later ones are as they were. */
  ghost predicate LoadedInOrder(models: seq<MlModel>, before: seq<Option<ModelState>>,
                                objects: map<string, Blob>, stage: string)
    reads models
    requires |before| == |models|
  {
    forall i :: 0 <= i < |models| ==>
      models[i].model == if forall k :: 0 <= k < i ==> LoadOutcome(objects, models[k].Key(stage)).Success?
                         then Loaded(before[i], objects, models[i].Key(stage))
                         else before[i]
  }

  /** The temporary files a load of these models downloads (and then deletes). */
  function FoundTmpPaths(models: seq<MlModel>, objects: map<string, Blob>, stage: string): set<string> {
    set i | 0 <= i < |models| && models[i].Key(stage) in objects :: TmpPath(models[i].Filename())
  }

  /** `stage or self.stage`: no stage, or the empty one, means the ensemble's own. */
  function EffectiveStage(stage: Option<string>, own: string): (r: string)
    ensures stage.Some? && stage.value != "" ==> r == stage.value
    ensures stage.None? || stage.value == "" ==> r == own
  {
    if stage.Some? && stage.value != "" then stage.value else own
  }

  function TmpPaths(models: seq<MlModel>): set<string> {
    set i | 0 <= i < |models| :: TmpPath(models[i].Filename())
  }

  /** One model more adds its temporary file when its artifact exists. */
  lemma FoundTmpPathsStep(models: seq<MlModel>, objects: map<string, Blob>, stage: string, n: nat)
    requires n < |models|
    ensures FoundTmpPaths(models[..n + 1], objects, stage)
         == FoundTmpPaths(models[..n], objects, stage)
            + (if models[n].Key(stage) in objects then {TmpPath(models[n].Filename())} else {})
  {
    assert models[..n + 1][..n] == models[..n];
  }

  /** Saving one model more adds its artifact, when it has one. */
  lemma SavedStep(objects: map<string, Blob>, models: seq<MlModel>, n: nat, stage: string)
    requires n < |models|
    ensures SavedModels(objects, models[..n + 1], stage)
         == if models[n].model.Some? then SavedModels(objects, models[..n], stage)[models[n].Key(stage) := ModelFile(models[n].model.value)]
            else SavedModels(objects, models[..n], stage)
  {
    assert models[..n + 1][..n] == models[..n];
  }

  /** One model more adds its temporary file. */
  lemma TmpPathsStep(models: seq<MlModel>, n: nat)
    requires n < |models|
    ensures TmpPaths(models[..n + 1]) == TmpPaths(models[..n]) + {TmpPath(models[n].Filename())}
  {
    var a := models[..n + 1];
    assert a[n] == models[n];
    forall p | p in TmpPaths(a) ensures p in TmpPaths(models[..n]) + {TmpPath(models[n].Filename())} {
      var k :| 0 <= k < |a| && p == TmpPath(a[k].Filename());
      if k < n { assert models[..n][k] == a[k]; }
    }
    forall p | p in TmpPaths(models[..n]) ensures p in TmpPaths(a) {
      var k :| 0 <= k < n && p == TmpPath(models[..n][k].Filename());
      assert a[k] == models[..n][k];
    }
  }

  class EnsembleModel {
    const stage: string
    const models: seq<MlModel>
    const s3: S3Store
    const disk: LocalDisk

    /** The constituents are distinct objects sharing one store and one disk. */
    ghost predicate Valid() {
      && |models| >= 1
      && (forall i, j :: 0 <= i < j < |models| ==> models[i] != models[j])
      && (forall i :: 0 <= i < |models| ==> models[i].s3 == s3 && models[i].disk == disk)
    }

    /** The constituents: XGBoost only, under the given stage. */
    constructor(stage: string, folder: string, s3: S3Store, disk: LocalDisk)
      ensures Valid() && this.stage == stage && this.s3 == s3 && this.disk == disk
      ensures Names(models) == ["xgboost"] && States(models) == [Some(ModelState("xgboost", None))]
    {
      this.stage := stage;
      this.s3 := s3;
      this.disk := disk;
      var xgb := new MlModel.Xgboost(folder, s3, disk);
      models := [xgb];
    }

    /** The default stage is "staging". */
    constructor Default(folder: string, s3: S3Store, disk: LocalDisk)
      ensures Valid() && stage == "staging" && this.s3 == s3 && this.disk == disk
      ensures Names(models) == ["xgboost"] && States(models) == [Some(ModelState("xgboost", None))]
    {
      stage := "staging";
      this.s3 := s3;
      this.disk := disk;
      var xgb := new MlModel.Xgboost(folder, s3, disk);
      models := [xgb];
    }

    /** `train`: each model in dict order is trained and then saved to this
        ensemble's stage before the next one starts. */
    method Train(x: Matrix, y: seq<real>) returns (ok: bool)
      requires Valid()
      modifies models, s3, disk
      ensures ok <==> forall i :: 0 <= i < |models| ==> old(models[i].model).Some?
      ensures ok ==> forall i :: 0 <= i < |models| ==> models[i].model == Some(Trained(old(models[i].model).value, x, y))
      ensures ok ==> s3.objects == SavedModels(old(s3.objects), models, stage)
      ensures ok ==> disk.files == old(disk.files) - TmpPaths(models)
    {
      ghost var states := States(models);
      assert forall k :: 0 <= k < |models| ==> states[k] == models[k].model;
      ok := TrainFrom(x, y, states, s3.objects, disk.files);
    }

    /** The loop of `train`, over the models' states `states` before it,
        the store `objects` and the disk `files`. */
    method TrainFrom(x: Matrix, y: seq<real>, ghost states: seq<Option<ModelState>>,
                     ghost objects: map<string, Blob>, ghost files: map<string, Blob>) returns (ok: bool)
      requires Valid() && TrainedUpTo(models, states, 0, x, y)
      requires s3.objects == objects && disk.files == files
      modifies models, s3, disk
      ensures ok <==> forall i :: 0 <= i < |states| ==> states[i].Some?
      ensures ok ==> TrainedUpTo(models, states, |models|, x, y)
      ensures ok ==> s3.objects == SavedModels(objects, models, stage)
      ensures ok ==> disk.files == files - TmpPaths(models)
    {
      var i := 0;
      while i < |models|
        invariant 0 <= i <= |models|
        invariant TrainedUpTo(models, states, i, x, y)
        invariant s3.objects == SavedModels(objects, models[..i], stage)
        invariant disk.files == files - TmpPaths(models[..i])
      {
        var trained := TrainAt(i, x, y, states, objects, files);
        if !trained {
          return false;
        }
        i := i + 1;
      }
      assert models[..i] == models;
      ok := true;
    }

    /** The first i constituents are trained from their states in `states`,
        and the others still hold theirs. */
    ghost predicate TrainedUpTo(ms: seq<MlModel>, states: seq<Option<ModelState>>, i: nat, x: Matrix, y: seq<real>)
      reads ms
    {
      && |states| == |ms| && i <= |ms|
      && (forall k :: 0 <= k < i ==> states[k].Some? && ms[k].model == Some(Trained(states[k].value, x, y)))
      && (forall k :: i <= k < |ms| ==> ms[k].model == states[k])
    }

    /** One step of `train`: constituent i is trained, then saved. */
    method TrainAt(i: nat, x: Matrix, y: seq<real>, ghost states: seq<Option<ModelState>>,
                   ghost objects: map<string, Blob>, ghost files: map<string, Blob>) returns (ok: bool)
      requires Valid() && i < |models|
      requires TrainedUpTo(models, states, i, x, y)
      requires s3.objects == SavedModels(objects, models[..i], stage)
      requires disk.files == files - TmpPaths(models[..i])
      modifies models[i], s3, disk
      ensures ok <==> states[i].Some?
      ensures ok ==> TrainedUpTo(models, states, i + 1, x, y)
      ensures ok ==> s3.objects == SavedModels(objects, models[..i + 1], stage)
      ensures ok ==> disk.files == files - TmpPaths(models[..i + 1])
      ensures !ok ==> models[i].model == states[i]
    {
      var m := models[i];
      assert m !in models[..i];
      ghost var before := SavedModels(objects, models[..i], stage);
      ok := m.Train(x, y);
      if ok {
        assert TrainedUpTo(models, states, i + 1, x, y);
        assert SavedModels(objects, models[..i], stage) == before;
        SaveAt(i, objects, files);
      }
    }

    /** The save half of one step of `train`: constituent i, just fitted,
        uploads its artifact and removes its temporary file. */
    method SaveAt(i: nat, ghost objects: map<string, Blob>, ghost files: map<string, Blob>)
      requires Valid() && i < |models|
      requires models[i].model.Some? && models[i].model.value.training.Some?
      requires s3.objects == SavedModels(objects, models[..i], stage)
      requires disk.files == files - TmpPaths(models[..i])
      modifies s3, disk
      ensures s3.objects == SavedModels(objects, models[..i + 1], stage)
      ensures disk.files == files - TmpPaths(models[..i + 1])
    {
      var saved := models[i].SaveToS3(stage);
      SavedStep(objects, models, i, stage);
      TmpPathsStep(models, i);
    }

    /** Each model in order loads from `stage`; a model whose artifact is
        missing keeps its state. */
    method LoadAll(stage: string) returns (r: Result<()>)
      requires Valid()
      modifies models, disk
      ensures r.Success? <==> forall i :: 0 <= i < |models| ==> LoadOutcome(s3.objects, models[i].Key(stage)).Success?
      ensures r.Success? ==> forall i :: 0 <= i < |models| ==>
        models[i].model == Loaded(old(models[i].model), s3.objects, models[i].Key(stage))
      ensures r.Success? ==> disk.files == old(disk.files) - FoundTmpPaths(models, s3.objects, stage)
      ensures forall i :: 0 <= i < |models| ==>
        models[i].model == if forall k :: 0 <= k < i ==> LoadOutcome(s3.objects, models[k].Key(stage)).Success?
                           then Loaded(old(models[i].model), s3.objects, models[i].Key(stage))
                           else old(models[i].model)
    {
      var i := 0;
      ghost var files := disk.files;
      while i < |models|
        invariant 0 <= i <= |models|
        invariant forall k :: 0 <= k < i ==> LoadOutcome(s3.objects, models[k].Key(stage)).Success?
        invariant forall k :: 0 <= k < i ==> models[k].model == Loaded(old(models[k].model), s3.objects, models[k].Key(stage))
        invariant forall k :: i <= k < |models| ==> models[k].model == old(models[k].model)
        invariant disk.files == files - FoundTmpPaths(models[..i], s3.objects, stage)
      {
        var loaded := LoadAt(i, stage, files);
        if loaded.Failure? {
          assert models[i].model == old(models[i].model);
          return Failure(loaded.error);
        }
        i := i + 1;
      }
      assert models[..i] == models;
      r := Success(());
    }

    /** One step of the load: constituent i loads from `stage`; the disk,
        which lacked the temporary files of the models before it relative to
        `files`, now lacks those up to and including it. */
    method LoadAt(i: nat, stage: string, ghost files: map<string, Blob>) returns (r: Result<bool>)
      requires Valid() && i < |models|
      requires disk.files == files - FoundTmpPaths(models[..i], s3.objects, stage)
      modifies models[i], disk
      ensures r == LoadOutcome(s3.objects, models[i].Key(stage))
      ensures models[i].model == Loaded(old(models[i].model), s3.objects, models[i].Key(stage))
      ensures r.Success? ==> disk.files == files - FoundTmpPaths(models[..i + 1], s3.objects, stage)
      ensures forall k :: 0 <= k < |models| && k != i ==> models[k].model == old(models[k].model)
    {
      var m := models[i];
      r := m.LoadFromS3(stage);
      FoundTmpPathsStep(models, s3.objects, stage, i);
    }

    /** `load_model`: every model loads from this ensemble's stage. */
    method LoadModel() returns (r: Result<()>)
      requires Valid()
      modifies models, disk
      ensures r.Success? <==> forall i :: 0 <= i < |models| ==> LoadOutcome(s3.objects, models[i].Key(stage)).Success?
      ensures r.Success? ==> forall i :: 0 <= i < |models| ==>
        models[i].model == Loaded(old(models[i].model), s3.objects, models[i].Key(stage))
      ensures r.Success? ==> disk.files == old(disk.files) - FoundTmpPaths(models, s3.objects, stage)
      ensures LoadedInOrder(models, old(States(models)), s3.objects, stage)
    {
      r := LoadAll(stage);
    }

    /** `save_model(stage)`: despite its name, it loads every model from the
        given stage (or this ensemble's own); nothing is written to the store. */
    method SaveModel(stage: Option<string>) returns (r: Result<()>)
      requires Valid()
      modifies models, disk
      ensures var st := EffectiveStage(stage, this.stage);
        && (r.Success? <==> forall i :: 0 <= i < |models| ==> LoadOutcome(s3.objects, models[i].Key(st)).Success?)
        && (r.Success? ==> forall i :: 0 <= i < |models| ==>
              models[i].model == Loaded(old(models[i].model), s3.objects, models[i].Key(st)))
        && (r.Success? ==> disk.files == old(disk.files) - FoundTmpPaths(models, s3.objects, st))
        && LoadedInOrder(models, old(States(models)), s3.objects, st)
    {
      r := LoadAll(EffectiveStage(stage, this.stage));
    }

    /** `predict`: each model's prediction in order, then their mean. */
    method Predict(learner: Learner, x: Matrix) returns (r: Result<seq<real>>)
      requires Valid()
      ensures r.Success? <==> AllPredictions(States(models), learner, x).Success?
      ensures r.Success? ==> r.value == MeanPredictions(AllPredictions(States(models), learner, x).value)
    {
      var predictions: seq<seq<real>> := [];
      var i := 0;
      while i < |models|
        invariant 0 <= i <= |models|
        invariant |predictions| == i
        invariant forall k :: 0 <= k < i ==> PredictWith(models[k].model, learner, x) == Success(predictions[k])
      {
        var p := models[i].Predict(learner, x);
        if p.Failure? {
          assert States(models)[i] == models[i].model;
          return Failure(p.error);
        }
        predictions := predictions + [p.value];
        i := i + 1;
      }
      assert forall k :: 0 <= k < |models| ==> States(models)[k] == models[k].model;
      assert AllPredictions(States(models), learner, x).Success?;
      assert AllPredictions(States(models), learner, x).value == predictions;
      r := Success(MeanPredictions(predictions));
    }

    /** `get_feature_importance`: one entry per model, in dict order. */
    method FeatureImportance(importance: Importance, x: Matrix) returns (r: Result<seq<seq<real>>>)
      ensures r.Success? <==> AllImportances(Names(models), States(models), importance, x).Success?
      ensures r.Success? ==> r.value == AllImportances(Names(models), States(models), importance, x).value
    {
      var results: seq<seq<real>> := [];
      var i := 0;
      while i < |models|
        invariant 0 <= i <= |models|
        invariant |results| == i
        invariant forall k :: 0 <= k < i ==> importance(models[k].kind, models[k].model, x) == Success(results[k])
      {
        var p := importance(models[i].kind, models[i].model, x);
        if p.Failure? {
          assert Names(models)[i] == models[i].kind && States(models)[i] == models[i].model;
          return Failure(p.error);
        }
        results := results + [p.value];
        i := i + 1;
      }
      assert forall k :: 0 <= k < |models| ==> Names(models)[k] == models[k].kind && States(models)[k] == models[k].model;
      assert AllImportances(Names(models), States(models), importance, x).Success?;
      assert AllImportances(Names(models), States(models), importance, x).value == results;
      r := Success(results);
    }
  }
}
