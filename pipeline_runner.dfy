/** The CodePipeline custom action that starts a SageMaker pipeline and polls it
    through continuation tokens (`check_pipeline` and `lambda_handler` of
    lambda/build/lambda_start_pipeline.py and lambda/lambda_start_pipeline.py,
    which behave the same).

    SageMaker is an oracle: the reply to a start request and the status reply
    for an execution ARN. CodePipeline is a trace of the report calls made to it;
    an oracle says which report calls raise. The side effects are the calls
    appended to the two traces of a `Services` object. */
module PipelineRunner {
  import opened Common

  /** An exception that escapes a client call: a botocore `ClientError`, or
      anything else. */
  datatype Fault = Client(error: ClientError) | Other(description: string)

  /** A Python dict with string keys and values (the result and report payloads). */
  type Dict = map<string, string>

  datatype Parameter = Parameter(name: string, value: string)

  /** The arguments of `start_pipeline_execution`. */
  datatype StartRequest = StartRequest(
    pipelineName: string,
    displayName: string,
    parameters: seq<Parameter>,
    description: string,
    clientRequestToken: string)

  datatype SageMakerCall = Start(request: StartRequest) | Describe(executionArn: string)

  /** A `put_job_success_result` with a continuation token, one with output
      variables, or a `put_job_failure_result`. */
  datatype Report =
    | ContinueJob(jobId: string, continuationToken: string)
    | SucceedJob(jobId: string, outputVariables: Dict)
    | FailJob(jobId: string, failureDetails: Dict)

  /** What the services answer. */
  datatype Oracles = Oracles(
    startExecution: StartRequest -> Result<string, Fault>,
    describeExecution: string -> Result<string, Fault>,
    rejectReport: Report -> Option<Fault>)

  /** `check_pipeline` returns a status code and a dict, or raises. */
  datatype Outcome = Returned(code: int, body: Dict) | Raised(fault: Fault)

  /** The calls made by one invocation and how it ended. */
  datatype Run = Run(calls: seq<SageMakerCall>, reports: seq<Report>, outcome: Outcome)

  /** How the `try` block ends: a return, or an exception caught below it. */
  datatype Attempt = Attempt(calls: seq<SageMakerCall>, reports: seq<Report>, result: Result<(int, Dict), Fault>)

  const InvalidJobState := "InvalidJobStateException"

  function StartRequestFor(jobId: string, pipelineName: string): StartRequest
  {
    StartRequest(pipelineName, "codepipeline-" + jobId, [Parameter("InputSource", "CodePipeline")],
                 "SageMaker Drift Detection Pipeline", jobId)
  }

  predicate IsTerminalFailure(status: string) { status == "Failed" || status == "Stopped" }
  predicate IsTerminalSuccess(status: string) { status == "Executing" || status == "Succeeded" }

  function FailedStatusDetails(status: string, arn: string): Dict
  {
    map["type" := "JobFailed", "message" := "Pipeline Status is " + status, "externalExecutionId" := arn]
  }

  function SucceededVariables(status: string, arn: string): Dict
  {
    map["Status" := status, "PipelineExecutionArn" := arn]
  }

  function ClientErrorDetails(e: ClientError): Dict
  {
    map["type" := "JobFailed", "message" := e.message]
  }

  /** Makes one report call; it raises when the oracle says so. */
  function Put(o: Oracles, calls: seq<SageMakerCall>, reports: seq<Report>, report: Report, code: int, body: Dict): Attempt
  {
    match o.rejectReport(report)
    case Some(f) => Attempt(calls, reports + [report], Failure(f))
    case None => Attempt(calls, reports + [report], Success((code, body)))
  }

  /** The `try` block of `check_pipeline`. */
  function TryBlock(o: Oracles, jobId: string, pipelineName: string, executionArn: Option<string>): Attempt
  {
    match executionArn
    case None =>
      var calls := [Start(StartRequestFor(jobId, pipelineName))];
      (match o.startExecution(StartRequestFor(jobId, pipelineName))
       case Failure(f) => Attempt(calls, [], Failure(f))
       case Success(arn) => Put(o, calls, [], ContinueJob(jobId, arn), 202, map["PipelineExecutionArn" := arn]))
    case Some(arn) =>
      var calls := [Describe(arn)];
      (match o.describeExecution(arn)
       case Failure(f) => Attempt(calls, [], Failure(f))
       case Success(status) =>
         if IsTerminalFailure(status) then
           Put(o, calls, [], FailJob(jobId, FailedStatusDetails(status, arn)), 400, FailedStatusDetails(status, arn))
         else if IsTerminalSuccess(status) then
           Put(o, calls, [], SucceedJob(jobId, SucceededVariables(status, arn)), 200, SucceededVariables(status, arn))
         else
           Put(o, calls, [], ContinueJob(jobId, arn), 202, map["PipelineExecutionArn" := arn]))
  }

  /** `check_pipeline`: the `try` block and its two `except` clauses. A report
      call that raises inside the `except ClientError` clause escapes. */
  function Check(o: Oracles, jobId: string, pipelineName: string, executionArn: Option<string>): Run
  {
    var a := TryBlock(o, jobId, pipelineName, executionArn);
    match a.result
    case Success((code, body)) => Run(a.calls, a.reports, Returned(code, body))
    case Failure(Other(d)) => Run(a.calls, a.reports, Raised(Other(d)))
    case Failure(Client(e)) =>
      var details := ClientErrorDetails(e);
      if e.code == InvalidJobState then Run(a.calls, a.reports, Returned(500, details))
      else
        var report := FailJob(jobId, details);
        match o.rejectReport(report)
        case Some(f) => Run(a.calls, a.reports + [report], Raised(f))
        case None => Run(a.calls, a.reports + [report], Returned(500, details))
  }

  /** The CodePipeline job event, with the JSON `UserParameters` already decoded. */
  datatype JobEvent = JobEvent(jobId: string, data: Dict, userParameters: Dict)

  /** What `lambda_handler` returns: the status code and the result dict (its
      JSON encoding is not modelled). */
  datatype Response = Response(statusCode: int, body: Dict)

  /** `lambda_handler`: the pipeline name is read from the user parameters (a
      missing key raises `KeyError`), the continuation token is passed iff the
      job data holds one. */
  function Handle(o: Oracles, event: JobEvent): (Run, Result<Response, Fault>)
  {
    if "PipelineName" !in event.userParameters then
      (Run([], [], Raised(Other("KeyError: PipelineName"))), Failure(Other("KeyError: PipelineName")))
    else
      var token := if "continuationToken" in event.data then Some(event.data["continuationToken"]) else None;
      var run := Check(o, event.jobId, event.userParameters["PipelineName"], token);
      (run, match run.outcome
            case Returned(code, body) => Success(Response(code, body))
            case Raised(f) => Failure(f))
  }

  // ---------------------------------------------------------------------------
  // Properties of one invocation.

  /** Without a token: exactly one start request, keyed by the job id, then a
      success report re-arming the job with the new execution ARN, and 202. */
  lemma StartThenRearm(o: Oracles, jobId: string, pipelineName: string, arn: string)
    requires o.startExecution(StartRequestFor(jobId, pipelineName)) == Success(arn)
    requires o.rejectReport(ContinueJob(jobId, arn)).None?
    ensures var r := Check(o, jobId, pipelineName, None);
      && r.calls == [Start(StartRequest(pipelineName, "codepipeline-" + jobId,
                       [Parameter("InputSource", "CodePipeline")], "SageMaker Drift Detection Pipeline", jobId))]
      && r.reports == [ContinueJob(jobId, arn)]
      && r.outcome == Returned(202, map["PipelineExecutionArn" := arn])
  {
  }

  /** Without a token the job is never finished: no terminal success report, no
      status failure report, and no 200 or 400. */
  lemma NoTokenNeverTerminal(o: Oracles, jobId: string, pipelineName: string)
    ensures var r := Check(o, jobId, pipelineName, None);
      && |r.calls| == 1 && r.calls[0].Start?
      && (forall rep :: rep in r.reports ==> rep.ContinueJob? || (rep.FailJob? && "externalExecutionId" !in rep.failureDetails))
      && (r.outcome.Returned? ==> r.outcome.code in {202, 500})
  {
  }

  /** A Failed or Stopped execution: one failure report naming the status and the
      ARN, and 400. */
  lemma TerminalFailureReported(o: Oracles, jobId: string, pipelineName: string, arn: string, status: string)
    requires o.describeExecution(arn) == Success(status) && IsTerminalFailure(status)
    requires o.rejectReport(FailJob(jobId, FailedStatusDetails(status, arn))).None?
    ensures var r := Check(o, jobId, pipelineName, Some(arn));
      && r.calls == [Describe(arn)]
      && r.reports == [FailJob(jobId, map["type" := "JobFailed", "message" := "Pipeline Status is " + status,
                                          "externalExecutionId" := arn])]
      && r.outcome == Returned(400, r.reports[0].failureDetails)
  {
  }

  /** An Executing or Succeeded execution: one success report with the status and
      ARN as output variables, and 200. */
  lemma TerminalSuccessReported(o: Oracles, jobId: string, pipelineName: string, arn: string, status: string)
    requires o.describeExecution(arn) == Success(status) && IsTerminalSuccess(status)
    requires o.rejectReport(SucceedJob(jobId, SucceededVariables(status, arn))).None?
    ensures var r := Check(o, jobId, pipelineName, Some(arn));
      && r.calls == [Describe(arn)]
      && r.reports == [SucceedJob(jobId, map["Status" := status, "PipelineExecutionArn" := arn])]
      && r.outcome == Returned(200, r.reports[0].outputVariables)
  {
  }

  /** Any other status re-arms the job with the same ARN, and 202. */
  lemma OtherStatusRearms(o: Oracles, jobId: string, pipelineName: string, arn: string, status: string)
    requires o.describeExecution(arn) == Success(status)
    requires !IsTerminalFailure(status) && !IsTerminalSuccess(status)
    requires o.rejectReport(ContinueJob(jobId, arn)).None?
    ensures var r := Check(o, jobId, pipelineName, Some(arn));
      && r.reports == [ContinueJob(jobId, arn)]
      && r.outcome == Returned(202, map["PipelineExecutionArn" := arn])
  {
  }

  /** A client error from SageMaker: 500 with the error message, and a failure
      report iff the error code is not `InvalidJobStateException`. */
  lemma ClientErrorReturns500(o: Oracles, jobId: string, pipelineName: string, arn: Option<string>, e: ClientError)
    requires arn.None? ==> o.startExecution(StartRequestFor(jobId, pipelineName)) == Failure(Client(e))
    requires arn.Some? ==> o.describeExecution(arn.value) == Failure(Client(e))
    requires o.rejectReport(FailJob(jobId, ClientErrorDetails(e))).None?
    ensures var r := Check(o, jobId, pipelineName, arn);
      && r.outcome == Returned(500, map["type" := "JobFailed", "message" := e.message])
      && (r.reports == [] <==> e.code == "InvalidJobStateException")
      && (r.reports != [] ==> r.reports == [FailJob(jobId, r.outcome.body)])
  {
  }

  /** Any other exception is re-raised unchanged, with nothing reported. */
  lemma OtherFaultReraised(o: Oracles, jobId: string, pipelineName: string, arn: Option<string>, d: string)
    requires arn.None? ==> o.startExecution(StartRequestFor(jobId, pipelineName)) == Failure(Other(d))
    requires arn.Some? ==> o.describeExecution(arn.value) == Failure(Other(d))
    ensures var r := Check(o, jobId, pipelineName, arn);
      r.outcome == Raised(Other(d)) && r.reports == []
  {
  }

  /** When no call raises, exactly one report is made, and the code is the one
      of the three outcomes the status selects. */
  lemma ExactlyOneReport(o: Oracles, jobId: string, pipelineName: string, arn: Option<string>)
    requires forall rep :: o.rejectReport(rep).None?
    requires arn.None? ==> o.startExecution(StartRequestFor(jobId, pipelineName)).Success?
    requires arn.Some? ==> o.describeExecution(arn.value).Success?
    ensures var r := Check(o, jobId, pipelineName, arn);
      && |r.reports| == 1 && |r.calls| == 1
      && r.outcome.Returned? && r.outcome.code in {200, 202, 400}
      && (r.outcome.code == 400 <==> r.reports[0].FailJob?)
      && (r.outcome.code == 200 <==> r.reports[0].SucceedJob?)
      && (r.outcome.code == 202 <==> r.reports[0].ContinueJob?)
  {
  }

  /** In every case: one SageMaker call, at most two reports (a report that
      raises a client error is followed by the failure report), and either one of
      the four status codes or an exception. */
  lemma EveryRunBounded(o: Oracles, jobId: string, pipelineName: string, arn: Option<string>)
    ensures var r := Check(o, jobId, pipelineName, arn);
      && |r.calls| == 1
      && |r.reports| <= 2
      && (r.outcome.Returned? ==> r.outcome.code in {200, 202, 400, 500})
      && (r.outcome.Returned? && r.outcome.code != 500 ==> |r.reports| == 1)
      && (|r.reports| == 2 ==> r.reports[1].FailJob?)
  {
  }

  /** The handler describes the execution named by the continuation token iff
      the job data holds one, and otherwise starts the pipeline named in the
      user parameters; its status code is the one `check_pipeline` returned. */
  lemma HandlerFollowsToken(o: Oracles, event: JobEvent)
    requires "PipelineName" in event.userParameters
    ensures var (run, response) := Handle(o, event);
      && |run.calls| == 1
      && (run.calls[0].Describe? <==> "continuationToken" in event.data)
      && (run.calls[0].Describe? ==> run.calls[0].executionArn == event.data["continuationToken"])
      && (run.calls[0].Start? ==> run.calls[0].request.pipelineName == event.userParameters["PipelineName"])
      && (response.Success? <==> run.outcome.Returned?)
      && (response.Success? ==> response.value.statusCode == run.outcome.code)
  {
    var name := event.userParameters["PipelineName"];
    var token := if "continuationToken" in event.data then Some(event.data["continuationToken"]) else None;
    var run := Check(o, event.jobId, name, token);
    assert Handle(o, event).0 == run;
    CheckCalls(o, event.jobId, name, token);
  }

  /** The one SageMaker call of a run: a start without a token, a describe of
      the token's execution with one. */
  lemma CheckCalls(o: Oracles, jobId: string, pipelineName: string, arn: Option<string>)
    ensures Check(o, jobId, pipelineName, arn).calls
         == if arn.None? then [Start(StartRequestFor(jobId, pipelineName))] else [Describe(arn.value)]
  {
    assert Check(o, jobId, pipelineName, arn).calls == TryBlock(o, jobId, pipelineName, arn).calls;
  }

  // ---------------------------------------------------------------------------
  // The services as mutable state.

  /** The two clients as seen by the Lambda function: SageMaker's calls and
      CodePipeline's reports accumulate in call order. */
  class Services {
    const oracles: Oracles
    var sageMakerCalls: seq<SageMakerCall>
    var reports: seq<Report>

    constructor (oracles: Oracles)
      ensures this.oracles == oracles && sageMakerCalls == [] && reports == []
    {
      this.oracles := oracles;
      sageMakerCalls := [];
      reports := [];
    }

    method PutReport(report: Report) returns (raised: Option<Fault>)
      modifies this
      ensures reports == old(reports) + [report] && sageMakerCalls == old(sageMakerCalls)
      ensures raised == oracles.rejectReport(report)
    {
      reports := reports + [report];
      raised := oracles.rejectReport(report);
    }

    /** The `try` block of `check_pipeline`: the exception it ends in, or the
        status code and body it returns. */
    method TryCheck(jobId: string, pipelineName: string, executionArn: Option<string>)
      returns (caught: Option<Fault>, code: int, body: Dict)
      modifies this
      ensures var a := TryBlock(oracles, jobId, pipelineName, executionArn);
        && sageMakerCalls == old(sageMakerCalls) + a.calls
        && reports == old(reports) + a.reports
        && (if a.result.Success? then caught.None? && (code, body) == a.result.value else caught == Some(a.result.error))
    {
      caught, code, body := None, 0, map[];
      var arn := "";
      var rearm := false;
      if executionArn.None? {
        var request := StartRequestFor(jobId, pipelineName);
        sageMakerCalls := sageMakerCalls + [Start(request)];
        var response := oracles.startExecution(request);
        if response.Failure? {
          caught := Some(response.error);
        } else {
          arn := response.value;
          rearm := true;
        }
      } else {
        arn := executionArn.value;
        sageMakerCalls := sageMakerCalls + [Describe(arn)];
        var response := oracles.describeExecution(arn);
        if response.Failure? {
          caught := Some(response.error);
        } else {
          var status := response.value;
          if IsTerminalFailure(status) {
            var result := FailedStatusDetails(status, arn);
            caught := PutReport(FailJob(jobId, result));
            code, body := 400, result;
          } else if IsTerminalSuccess(status) {
            var result := SucceededVariables(status, arn);
            caught := PutReport(SucceedJob(jobId, result));
            code, body := 200, result;
          } else {
            rearm := true;
          }
        }
      }
      if rearm {
        caught := PutReport(ContinueJob(jobId, arn));
        code, body := 202, map["PipelineExecutionArn" := arn];
      }
    }

    /** `check_pipeline`. */
    method CheckPipeline(jobId: string, pipelineName: string, executionArn: Option<string>) returns (outcome: Outcome)
      modifies this
      ensures var r := Check(oracles, jobId, pipelineName, executionArn);
        && sageMakerCalls == old(sageMakerCalls) + r.calls
        && reports == old(reports) + r.reports
        && outcome == r.outcome
    {
      var caught, code, body := TryCheck(jobId, pipelineName, executionArn);
      match caught {
        case None =>
          outcome := Returned(code, body);
        case Some(Other(d)) =>
          outcome := Raised(Other(d));
        case Some(Client(e)) =>
          var result := ClientErrorDetails(e);
          outcome := Returned(500, result);
          if e.code != InvalidJobState {
            var raised := PutReport(FailJob(jobId, result));
            if raised.Some? {
              outcome := Raised(raised.value);
            }
          }
      }
    }

    /** `lambda_handler`. */
    method LambdaHandler(event: JobEvent) returns (response: Result<Response, Fault>)
      modifies this
      ensures var (r, expected) := Handle(oracles, event);
        && sageMakerCalls == old(sageMakerCalls) + r.calls
        && reports == old(reports) + r.reports
        && response == expected
    {
      if "PipelineName" !in event.userParameters {
        return Failure(Other("KeyError: PipelineName"));
      }
      var pipelineName := event.userParameters["PipelineName"];
      var executionArn: Option<string> := None;
      if "continuationToken" in event.data {
        executionArn := Some(event.data["continuationToken"]);
      }
      var outcome := CheckPipeline(event.jobId, pipelineName, executionArn);
      match outcome {
        case Returned(code, body) => response := Success(Response(code, body));
        case Raised(f) => response := Failure(f);
      }
    }
  }
}
