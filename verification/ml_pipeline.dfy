/** `MlPipelineService.run_pipeline`: fetch, build features, lag, scale,
    split, train, predict and evaluate, replacing the whole status record
    at fixed points and ending in "Completed", or in "Failed" with the
    error text (the error is then raised again). The components are taken
    as given functions: each is modelled in its own module. */
module MlPipeline {
  import opened Wrappers
  import opened Frames

  /** The status record `{progress, status, result}`. */
  datatype Status = Status(progress: int, status: string, result: Option<string>)

  const NotStarted := Status(0, "Not started", None)
  const Fetching := Status(10, "Fetching raw crypto data...", None)
  const Processing := Status(20, "Processing feature dataset...", None)
  const Training := Status(60, "Training ensemble model...", None)
  const Evaluating := Status(80, "Evaluating model...", None)
  const Completed := Status(100, "Completed", None)

  function Failed(e: string): Status {
    Status(100, "Failed", Some(e))
  }

  /** The forecast horizon handed to the lagging step: one day of 15-minute bars. */
  const FutureDays := 1 * 24 * 4

  /** The components' behaviour: what each call returns. */
  datatype Components = Components(
    getData: Result<Table>,
    createFeatures: Table -> Result<Table>,
    createLaggedFeatures: (Table, nat) -> Result<(Matrix, seq<real>)>,
    fitTransform: (Matrix, seq<real>) -> Result<(Matrix, seq<real>)>,
    train: (Matrix, seq<real>) -> Result<()>,
    predict: Matrix -> Result<seq<real>>,
    evaluate: (seq<real>, seq<real>) -> Result<()>)

  /** The steps, in the order the pipeline runs them. */
  datatype Step = GetData | CreateFeatures | CreateLagged(horizon: nat) | FitTransform | Split | Train | Predict | Evaluate

  const AllSteps := [GetData, CreateFeatures, CreateLagged(FutureDays), FitTransform, Split, Train, Predict, Evaluate]

  /** The number of test rows of `train_test_split(test_size=0.2)`: ceil(n/5). */
  function TestCount(n: nat): (k: nat)
    ensures 5 * k >= n && 5 * k < n + 5
  {
    (n + 4) / 5
  }

  /** `train_test_split(X, y, test_size=0.2, shuffle=False)`: the first rows
      train, the last ceil(n/5) rows test; mismatched lengths or an empty
      train part are errors. */
  function TrainTestSplit(x: Matrix, y: seq<real>): (r: Result<(Matrix, Matrix, seq<real>, seq<real>)>)
    ensures r.Success? <==> |x| == |y| && |x| - TestCount(|x|) > 0
    ensures r.Success? ==>
      var (xTrain, xTest, yTrain, yTest) := r.value;
      && xTrain + xTest == x && yTrain + yTest == y
      && |xTest| == |yTest| == TestCount(|x|) && |xTrain| == |yTrain|
  {
    if |x| != |y| then Failure("ValueError: Found input variables with inconsistent numbers of samples")
    else
      var nTrain := |x| - TestCount(|x|);
      if nTrain <= 0 then Failure("ValueError: the resulting train set will be empty")
      else
        assert x[..nTrain] + x[nTrain..] == x;
        assert y[..nTrain] + y[nTrain..] == y;
        Success((x[..nTrain], x[nTrain..], y[..nTrain], y[nTrain..]))
  }

  /** One run: the status records written, in order, the steps started, in
      order, and the outcome. */
  datatype Run = Run(statuses: seq<Status>, steps: seq<Step>, outcome: Result<()>)

  /** The records a run writes when nothing fails. */
  const Normal := [Fetching, Processing, Training, Evaluating, Completed]

  /** The shape of every run: on success the five normal records and all
      steps; on failure a prefix of the normal records, then `Failed` with
      the error text, and a prefix of the steps ending with the one that failed. */
  predicate Shaped(run: Run) {
    if run.outcome.Success? then run.statuses == Normal && run.steps == AllSteps
    else
      && 2 <= |run.statuses| <= 5
      && run.statuses == Normal[..|run.statuses| - 1] + [Failed(run.outcome.error)]
      && 1 <= |run.steps| <= |AllSteps| && run.steps == AllSteps[..|run.steps|]
  }

  function Fail(statuses: seq<Status>, steps: seq<Step>, e: string): Run {
    Run(statuses + [Failed(e)], steps, Failure(e))
  }

  /** A failure after k records and m steps has the pipeline's shape. */
  lemma FailShaped(k: nat, m: nat, e: string)
    requires 1 <= k <= 4 && 1 <= m <= |AllSteps|
    ensures Shaped(Fail(Normal[..k], AllSteps[..m], e)) && |Fail(Normal[..k], AllSteps[..m], e).steps| == m
  {
    var run := Fail(Normal[..k], AllSteps[..m], e);
    assert run.statuses[..k] == Normal[..k];
    assert run.steps == AllSteps[..m];
  }

  /** Training, prediction on the test rows and evaluation, after the split. */
  function Finish(c: Components, parts: (Matrix, Matrix, seq<real>, seq<real>)): (run: Run)
    ensures Shaped(run) && |run.steps| >= 6
    ensures |run.statuses| >= 4 && run.statuses[..3] == Normal[..3]
  {
    var st := Normal[..3];
    match c.train(parts.0, parts.2)
    case Failure(e) => Fail(st, AllSteps[..6], e)
    case Success(_) =>
      match c.predict(parts.1)
      case Failure(e) => Fail(Normal[..4], AllSteps[..7], e)
      case Success(yPred) =>
        match c.evaluate(parts.3, yPred)
        case Failure(e) => Fail(Normal[..4], AllSteps, e)
        case Success(_) => Run(Normal, AllSteps, Success(()))
  }

  /** Lagging with the 96-bar horizon, scaling and splitting, after the features. */
  function Prepare(c: Components, features: Table): (run: Run)
    ensures Shaped(run) && |run.steps| >= 3
    ensures |run.statuses| >= 3 && run.statuses[..2] == Normal[..2]
  {
    var st := Normal[..2];
    match c.createLaggedFeatures(features, FutureDays)
    case Failure(e) => FailShaped(2, 3, e); Fail(st, AllSteps[..3], e)
    case Success(xy) =>
      match c.fitTransform(xy.0, xy.1)
      case Failure(e) => FailShaped(2, 4, e); Fail(st, AllSteps[..4], e)
      case Success(scaled) =>
        match TrainTestSplit(scaled.0, scaled.1)
        case Failure(e) => FailShaped(2, 5, e); Fail(st, AllSteps[..5], e)
        case Success(parts) => Finish(c, parts)
  }

  /** What `run_pipeline` does with the given components. */
  function RunWith(c: Components): (run: Run)
    ensures Shaped(run)
  {
    match c.getData
    case Failure(e) => Fail(Normal[..1], AllSteps[..1], e)
    case Success(raw) =>
      match c.createFeatures(raw)
      case Failure(e) => Fail(Normal[..2], AllSteps[..2], e)
      case Success(features) => Prepare(c, features)
  }

  /** A successful run writes exactly 10, 20, 60, 80 and then 100 "Completed"
      and runs every step, in order, lagging with the 96-bar horizon. */
  lemma SuccessTrace(c: Components)
    requires RunWith(c).outcome.Success?
    ensures RunWith(c).statuses == [Fetching, Processing, Training, Evaluating, Completed]
    ensures RunWith(c).steps == AllSteps && AllSteps[2] == CreateLagged(96)
  {
  }

  /** Progress never goes down within a run, no run ever writes the status
      "In Progress", and every run ends at progress 100. */
  lemma TraceShape(c: Components)
    ensures var s := RunWith(c).statuses;
      && (forall i, j :: 0 <= i < j < |s| ==> s[i].progress <= s[j].progress)
      && (forall i :: 0 <= i < |s| ==> s[i].status != "In Progress")
      && |s| >= 1 && s[|s| - 1].progress == 100
  {
    ShapedTrace(RunWith(c));
  }

  /** The same, for any run of the pipeline's shape. */
  lemma ShapedTrace(run: Run)
    requires Shaped(run)
    ensures var s := run.statuses;
      && (forall i, j :: 0 <= i < j < |s| ==> s[i].progress <= s[j].progress)
      && (forall i :: 0 <= i < |s| ==> s[i].status != "In Progress")
      && |s| >= 1 && s[|s| - 1].progress == 100
  {
    var s := run.statuses;
    if run.outcome.Failure? {
      var n := |s| - 1;
      forall i | 0 <= i < |s|
        ensures s[i] == (if i < n then Normal[i] else Failed(run.outcome.error))
      {
      }
    }
  }

  /** A run ends on "Completed" when it succeeds and on "Failed" with its
      error otherwise. */
  lemma LastStatus(run: Run)
    requires Shaped(run)
    ensures |run.statuses| >= 1
    ensures run.statuses[|run.statuses| - 1] == if run.outcome.Success? then Completed else Failed(run.outcome.error)
  {
  }

  /** A run whose data was fetched: "Processing" follows "Fetching", then
      "Failed" alone when the features fail, and otherwise the records of
      `Prepare` after its first two. */
  lemma FeatureStage(c: Components, raw: Table)
    requires c.getData == Success(raw)
    ensures c.createFeatures(raw).Failure? ==>
      && RunWith(c).statuses == [Fetching, Processing, Failed(c.createFeatures(raw).error)]
      && RunWith(c).outcome == Failure(c.createFeatures(raw).error)
    ensures c.createFeatures(raw).Success? ==>
      && RunWith(c).outcome == Prepare(c, c.createFeatures(raw).value).outcome
      && RunWith(c).statuses == [Fetching, Processing] + Prepare(c, c.createFeatures(raw).value).statuses[2..]
  {
    if c.createFeatures(raw).Success? {
      var run := Prepare(c, c.createFeatures(raw).value);
      assert run.statuses[..2] == [Fetching, Processing];
      assert run.statuses == run.statuses[..2] + run.statuses[2..];
    }
  }

  class MlPipelineService {
    var trainingStatus: Status
    /** Every record the service has held, in order. */
    ghost var history: seq<Status>

    constructor()
      ensures trainingStatus == NotStarted && history == [NotStarted]
    {
      trainingStatus := NotStarted;
      history := [NotStarted];
    }

    /** `self.training_status = ...`: the record is replaced whole. */
    method SetStatus(s: Status)
      modifies this
      ensures trainingStatus == s && history == old(history) + [s]
    {
      trainingStatus := s;
      history := history + [s];
    }

    /** The `except` branch: record "Failed" with the error text and raise it again. */
    method RecordFailure(e: string) returns (r: Result<()>)
      modifies this
      ensures r == Failure(e)
      ensures trainingStatus == Failed(e) && history == old(history) + [Failed(e)]
    {
      SetStatus(Failed(e));
      r := Failure(e);
    }

    /** `run_pipeline`: each stage's record is written before its steps run,
        and the first failing step ends the run with "Failed". */
    method RunPipeline(c: Components) returns (r: Result<()>)
      modifies this
      ensures r == RunWith(c).outcome
      ensures history == old(history) + RunWith(c).statuses
      ensures trainingStatus == (if r.Success? then Completed else Failed(r.error))
    {
      SetStatus(Fetching);
      var raw := c.getData;
      if raw.Failure? {
        r := RecordFailure(raw.error);
        assert RunWith(c).statuses == [Fetching, Failed(raw.error)];
        return;
      }
      r := RunFeatures(c, raw.value);
      FeatureStage(c, raw.value);
    }

    /** The feature stage after the data is fetched, then the rest of the run. */
    method RunFeatures(c: Components, raw: Table) returns (r: Result<()>)
      modifies this
      ensures c.createFeatures(raw).Failure? ==>
        && r == Failure(c.createFeatures(raw).error)
        && history == old(history) + [Processing, Failed(c.createFeatures(raw).error)]
      ensures c.createFeatures(raw).Success? ==>
        && r == Prepare(c, c.createFeatures(raw).value).outcome
        && history == old(history) + [Processing] + Prepare(c, c.createFeatures(raw).value).statuses[2..]
      ensures trainingStatus == (if r.Success? then Completed else Failed(r.error))
    {
      SetStatus(Processing);
      var features := c.createFeatures(raw);
      if features.Failure? {
        r := RecordFailure(features.error);
        return;
      }
      r := RunPrepared(c, features.value);
    }

    /** Lagging, scaling and splitting, then the training stage. */
    method RunPrepared(c: Components, features: Table) returns (r: Result<()>)
      modifies this
      ensures r == Prepare(c, features).outcome
      ensures history == old(history) + Prepare(c, features).statuses[2..]
      ensures trainingStatus == (if r.Success? then Completed else Failed(r.error))
    {
      var xy := c.createLaggedFeatures(features, FutureDays);
      if xy.Failure? {
        r := RecordFailure(xy.error);
        return;
      }
      var scaled := c.fitTransform(xy.value.0, xy.value.1);
      if scaled.Failure? {
        r := RecordFailure(scaled.error);
        return;
      }
      var parts := TrainTestSplit(scaled.value.0, scaled.value.1);
      if parts.Failure? {
        r := RecordFailure(parts.error);
        return;
      }
      r := RunFinish(c, parts.value);
      var run := Finish(c, parts.value);
      assert run.statuses[2..] == [run.statuses[2]] + run.statuses[3..];
    }

    /** Training, then evaluation: the "Training" record is written before
        training and "Evaluating" before prediction. */
    method RunFinish(c: Components, parts: (Matrix, Matrix, seq<real>, seq<real>)) returns (r: Result<()>)
      modifies this
      ensures r == Finish(c, parts).outcome
      ensures history == old(history) + Finish(c, parts).statuses[2..]
      ensures trainingStatus == (if r.Success? then Completed else Failed(r.error))
    {
      SetStatus(Training);
      var trained := c.train(parts.0, parts.2);
      if trained.Failure? {
        r := RecordFailure(trained.error);
        return;
      }
      SetStatus(Evaluating);
      var yPred := c.predict(parts.1);
      if yPred.Failure? {
        r := RecordFailure(yPred.error);
        return;
      }
      var evaluated := c.evaluate(parts.3, yPred.value);
      if evaluated.Failure? {
        r := RecordFailure(evaluated.error);
        return;
      }
      SetStatus(Completed);
      r := Success(());
    }
  }
}
