/** The training routes: start a background run, read the status record,
    read the result once the run has completed. One pipeline service is
    shared by all requests. */
module MlTrainRoutes {
  import opened Wrappers
  import opened MlPipeline

  /** A JSON response body: `{"message": ...}` or `{"result": ...}`. */
  datatype Body = Message(message: string) | ResultBody(result: Option<string>)

  /** `GET /result`: the result only once the status is "Completed". */
  function ResultFor(s: Status): (r: Body)
    ensures r.ResultBody? <==> s.status == "Completed"
    ensures r.ResultBody? ==> r.result == s.result
    ensures r.Message? ==> r.message == "Training is not completed yet"
  {
    if s.status != "Completed" then Message("Training is not completed yet") else ResultBody(s.result)
  }

  /** A status the shared service can hold: the initial one or one a run wrote. */
  ghost predicate Reachable(s: Status) {
    s == NotStarted || exists c: Components :: s in RunWith(c).statuses
  }

  /** The guard of `POST /start` never fires: no reachable status is "In Progress". */
  lemma NeverInProgress(s: Status)
    requires Reachable(s)
    ensures s.status != "In Progress"
  {
    if s != NotStarted {
      var c: Components :| s in RunWith(c).statuses;
      TraceShape(c);
    }
  }

  /** The result route reports the completed run's result, which is always
      None: a successful run ends with `{100, "Completed", None}`. */
  lemma ResultAfterSuccess(c: Components)
    requires RunWith(c).outcome.Success?
    ensures ResultFor(RunWith(c).statuses[|RunWith(c).statuses| - 1]) == ResultBody(None)
  {
    SuccessTrace(c);
  }

  class TrainRouter {
    const pipeline: MlPipelineService
    /** The number of runs handed to the background task queue. */
    var queued: nat

    /** The shared service holds a status it can reach. */
    ghost predicate Valid()
      reads this, pipeline
    {
      Reachable(pipeline.trainingStatus)
    }

    constructor(pipeline: MlPipelineService)
      requires pipeline.trainingStatus == NotStarted
      ensures this.pipeline == pipeline && queued == 0 && Valid()
    {
      this.pipeline := pipeline;
      queued := 0;
    }

    /** `POST /start`: refuses only while the status reads "In Progress",
        otherwise queues a run. */
    method StartTraining() returns (r: Body)
      modifies this
      ensures pipeline.trainingStatus.status == "In Progress" ==>
        r == Message("Training is already in progress") && queued == old(queued)
      ensures pipeline.trainingStatus.status != "In Progress" ==>
        r == Message("Training started") && queued == old(queued) + 1
      ensures Valid() ==> r == Message("Training started")
    {
      if Valid() {
        NeverInProgress(pipeline.trainingStatus);
      }
      if pipeline.trainingStatus.status == "In Progress" {
        r := Message("Training is already in progress");
      } else {
        queued := queued + 1;
        r := Message("Training started");
      }
    }

    /** A queued run executes in the background. */
    method RunQueued(c: Components) returns (r: Result<()>)
      requires queued > 0
      modifies this, pipeline
      ensures queued == old(queued) - 1
      ensures r == RunWith(c).outcome
      ensures pipeline.trainingStatus == RunWith(c).statuses[|RunWith(c).statuses| - 1]
      ensures Valid()
    {
      queued := queued - 1;
      r := pipeline.RunPipeline(c);
      assert pipeline.trainingStatus in RunWith(c).statuses;
    }

    /** `GET /status`: the record as it stands, never "In Progress". */
    method GetStatus() returns (s: Status)
      requires Valid()
      ensures s == pipeline.trainingStatus && s.status != "In Progress"
    {
      s := pipeline.trainingStatus;
      NeverInProgress(s);
    }

  }
}
