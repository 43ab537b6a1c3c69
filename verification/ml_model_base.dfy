/** `MLModelBase`: a learned model with stage-namespaced artifact keys. It
    saves by exporting to a temporary local file and uploading it, and loads
    only when the download finds the artifact. The learner itself (XGBoost
    and the others) is abstract: a `Learner` maps the training data and the
    inputs to predictions. */
module ModelBase {
  import opened Wrappers
  import opened Frames
  import opened Artifacts
  import opened Storage

  /** Predictions of a model of the given kind trained on (X, y), for inputs. */
  type Learner = (string, Matrix, seq<real>, Matrix) -> seq<real>

  /** `_get_model_filename` of a model kind (`xgboost_model.json`). */
  function ModelFilename(kind: string): string {
    kind + "_model.json"
  }

  /** The temporary local path of an artifact. */
  function TmpPath(filename: string): string {
    "tmp/" + filename
  }

  /** The artifact key: `{model folder}/{stage}/{filename}`. */
  function ArtifactKey(folder: string, stage: string, filename: string): string {
    folder + "/" + stage + "/" + filename
  }

  lemma KeyShape(folder: string, stage: string, filename: string)
    ensures var k := ArtifactKey(folder, stage, filename);
      && |k| == |folder| + |stage| + |filename| + 2
      && k[|folder| + 1..|folder| + 1 + |stage|] == stage
      && k[|folder| + 1 + |stage|] == '/'
      && k[|folder| + |stage| + 2..] == filename
  {
  }

  /** Two stages without a "/" never share an artifact key, and the key ends
      with the file name. */
  lemma ArtifactKeysByStage(folder: string, s1: string, s2: string, filename: string)
    requires s1 != s2 && '/' !in s1 && '/' !in s2
    ensures ArtifactKey(folder, s1, filename) != ArtifactKey(folder, s2, filename)
    ensures ArtifactKey(folder, s1, filename)[|folder| + |s1| + 2..] == filename
  {
    var k1 := ArtifactKey(folder, s1, filename);
    var k2 := ArtifactKey(folder, s2, filename);
    var n := |folder| + 1;
    KeyShape(folder, s1, filename);
    KeyShape(folder, s2, filename);
    if |s1| < |s2| {
      assert s2[|s1|] in s2;
      assert k2[n..n + |s2|][|s1|] == s2[|s1|];
      assert k2[n + |s1|] != k1[n + |s1|];
    } else if |s2| < |s1| {
      assert s1[|s2|] in s1;
      assert k1[n..n + |s1|][|s2|] == s1[|s2|];
      assert k1[n + |s2|] != k2[n + |s2|];
    } else {
      var j :| 0 <= j < |s1| && s1[j] != s2[j];
      assert k1[n..n + |s1|][j] == s1[j];
      assert k2[n..n + |s2|][j] == s2[j];
      assert k1[n + j] != k2[n + j];
    }
  }

  /** What training does to a model: it now remembers its training data. */
  function Trained(m: ModelState, x: Matrix, y: seq<real>): ModelState {
    m.(training := Some((x, y)))
  }

  /** `predict` of one model: the library object must exist and be fitted. */
  function PredictWith(model: Option<ModelState>, learner: Learner, x: Matrix): (r: Result<seq<real>>)
    ensures r.Success? <==> model.Some? && model.value.training.Some?
  {
    if model.None? then Failure("AttributeError: model is None")
    else if model.value.training.None? then Failure("NotFittedError")
    else Success(learner(model.value.kind, model.value.training.value.0, model.value.training.value.1, x))
  }

  class MlModel {
    /** The library object; `None` until a subclass creates one. */
    var model: Option<ModelState>
    const kind: string
    const sequenceModel: bool
    /** The configured model folder (`settings.S3_FOLDER_MODEL`). */
    const folder: string
    const s3: S3Store
    const disk: LocalDisk

    /** The base constructor: no model yet, the sequence flag as given. */
    constructor(kind: string, sequenceModel: bool, folder: string, s3: S3Store, disk: LocalDisk)
      ensures model == None && this.kind == kind && this.sequenceModel == sequenceModel
      ensures this.folder == folder && this.s3 == s3 && this.disk == disk
    {
      model := None;
      this.kind := kind;
      this.sequenceModel := sequenceModel;
      this.folder := folder;
      this.s3 := s3;
      this.disk := disk;
    }

    /** `XGBoostModel()`: an unfitted regressor, not a sequence model. */
    constructor Xgboost(folder: string, s3: S3Store, disk: LocalDisk)
      ensures model == Some(ModelState("xgboost", None)) && kind == "xgboost" && !sequenceModel
      ensures this.folder == folder && this.s3 == s3 && this.disk == disk
    {
      model := Some(ModelState("xgboost", None));
      kind := "xgboost";
      sequenceModel := false;
      this.folder := folder;
      this.s3 := s3;
      this.disk := disk;
    }

    function IsSequenceModel(): bool {
      sequenceModel
    }

    function Filename(): string { ModelFilename(kind) }

    function Key(stage: string): string { ArtifactKey(folder, stage, Filename()) }

    /** `train`: fit the library object; fails when there is none. */
    method Train(x: Matrix, y: seq<real>) returns (ok: bool)
      modifies this
      ensures ok <==> old(model).Some?
      ensures model == if ok then Some(Trained(old(model).value, x, y)) else old(model)
    {
      ok := model.Some?;
      if ok {
        model := Some(Trained(model.value, x, y));
      }
    }

    function Predict(learner: Learner, x: Matrix): Result<seq<real>>
      reads this
    {
      PredictWith(model, learner, x)
    }

    /** `save_to_s3(stage)`: export to `tmp/{filename}`, upload it to the
        stage's key, delete the local file. Exporting an unfitted or missing
        model fails before anything is written. */
    method SaveToS3(stage: string) returns (ok: bool)
      modifies s3, disk
      ensures ok <==> model.Some? && model.value.training.Some?
      ensures ok ==> s3.objects == old(s3.objects)[Key(stage) := ModelFile(model.value)]
      ensures ok ==> disk.files == old(disk.files) - {TmpPath(Filename())}
      ensures !ok ==> s3.objects == old(s3.objects) && disk.files == old(disk.files)
    {
      if model.None? || model.value.training.None? {
        return false;
      }
      var tmp := TmpPath(Filename());
      disk.files := disk.files[tmp := ModelFile(model.value)];
      ok := s3.Upload(disk, tmp, Key(stage), true);
    }

    /** `load_from_s3(stage)`: download to `tmp/{filename}` and import it only
        when the download found the artifact; a missing artifact leaves the
        model as it was. Importing a file that is not a model fails. */
    method LoadFromS3(stage: string) returns (r: Result<bool>)
      modifies this, disk
      ensures r == LoadOutcome(s3.objects, Key(stage))
      ensures model == (if r == Success(true) then Some(s3.objects[Key(stage)].model) else old(model))
      ensures disk.files == match r
        case Success(true) => old(disk.files) - {TmpPath(Filename())}
        case Success(false) => old(disk.files)
        case Failure(_) => old(disk.files)[TmpPath(Filename()) := s3.objects[Key(stage)]]
    {
      var tmp := TmpPath(Filename());
      var found := s3.DownloadFile(Key(stage), disk, tmp);
      if !found {
        return Success(false);
      }
      var blob := disk.files[tmp];
      if !blob.ModelFile? {
        return Failure("cannot import tmp file");
      }
      model := Some(blob.model);
      disk.files := disk.files - {tmp};
      r := Success(true);
    }
  }

  /** Whether a load finds a model (`true`), finds nothing (`false`) or finds
      something that is not a model. */
  function LoadOutcome(objects: map<string, Blob>, key: string): (r: Result<bool>)
    ensures r == Success(false) <==> key !in objects
    ensures r == Success(true) <==> key in objects && objects[key].ModelFile?
  {
    if key !in objects then Success(false)
    else if objects[key].ModelFile? then Success(true)
    else Failure("cannot import tmp file")
  }
}
