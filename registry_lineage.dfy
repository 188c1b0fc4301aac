/** The rest of the `ModelRegistry` client: idempotent creation of a model
    package group, the lineage lookups that find the pipeline execution, the
    training artifact and the baseline output behind a model package
    (batch_pipeline/infra/model_registry.py), and the data-quality baseline
    folder of a package (deployment_pipeline/infra/model_registry.py).

    Every SageMaker call is replaced by a stand-in function from the request to
    the reply, which may be the client error the call raised. */
module RegistryLineage {
  import opened Common

  // ---------------------------------------------------------------------------
  // create_model_package_group

  datatype Tag = Tag(key: string, value: string)

  /** The SageMaker calls group creation makes, in order. */
  datatype GroupCall =
    | CreateGroup(groupName: string, description: string)
    | AddTags(resourceArn: string, tags: seq<Tag>)

  /** True when the group was created, False when it already existed, or the
      message of the exception raised; with the calls made. */
  datatype CreateOutcome = CreateOutcome(result: Result<bool, string>, calls: seq<GroupCall>)

  const AlreadyExistsPhrase := "Model Package Group already exists"

  /** The client error SageMaker raises for a group that already exists. */
  predicate AlreadyExists(e: ClientError) {
    e.code == "ValidationException" && Contains(e.message, AlreadyExistsPhrase)
  }

  function ProjectTags(projectName: string, projectId: string): seq<Tag> {
    [Tag("sagemaker:project-name", projectName), Tag("sagemaker:project-id", projectId)]
  }

  /** The error that reaches the `except` clause: the create call's, or else
      the tagging call's. */
  function FirstError(createReply: Result<string, ClientError>, tagsReply: Option<ClientError>): Option<ClientError> {
    if createReply.Failure? then Some(createReply.error) else tagsReply
  }

  /** `createReply` is the reply to `create_model_package_group` (the new
      group's ARN), `tagsReply` the error `add_tags` raised, if any. */
  function CreateModelPackageGroup(
    groupName: string, description: string, projectName: string, projectId: string,
    createReply: Result<string, ClientError>, tagsReply: Option<ClientError>): (out: CreateOutcome)
    ensures |out.calls| >= 1 && out.calls[0] == CreateGroup(groupName, description)
    ensures |out.calls| == 2 <==> createReply.Success?
    ensures createReply.Success? ==> out.calls[1] == AddTags(createReply.value, ProjectTags(projectName, projectId))
    ensures out.result == Success(true) <==> FirstError(createReply, tagsReply).None?
    ensures out.result == Success(false) <==>
      FirstError(createReply, tagsReply).Some? && AlreadyExists(FirstError(createReply, tagsReply).value)
    ensures out.result.Failure? <==>
      FirstError(createReply, tagsReply).Some? && !AlreadyExists(FirstError(createReply, tagsReply).value)
    ensures out.result.Failure? ==> out.result.error == FirstError(createReply, tagsReply).value.message
  {
    var create := CreateGroup(groupName, description);
    var calls := if createReply.Success? then [create, AddTags(createReply.value, ProjectTags(projectName, projectId))]
                 else [create];
    // the `try` block: create, then tag
    var attempt: Result<bool, ClientError> :=
      match createReply
      case Failure(e) => Failure(e)
      case Success(_) => if tagsReply.Some? then Failure(tagsReply.value) else Success(true);
    // the `except ClientError` clause
    var result: Result<bool, string> :=
      match attempt
      case Success(created) => Success(created)
      case Failure(e) => if AlreadyExists(e) then Success(false) else Failure(e.message);
    CreateOutcome(result, calls)
  }

  /** The phrase is recognised anywhere in the message, as `in` does. */
  lemma AlreadyExistsAnywhere(before: string, after: string)
    ensures AlreadyExists(ClientError("ValidationException", before + AlreadyExistsPhrase + after))
  {
    var m := before + AlreadyExistsPhrase + after;
    assert m[|before|..|before| + |AlreadyExistsPhrase|] == AlreadyExistsPhrase;
    ContainsAt(m, AlreadyExistsPhrase, |before|);
  }

  /** The unit test: the first call creates and tags the group and returns
      True; the second, answered with the already-exists error, returns False
      without tagging. */
  lemma CreateTwiceScenario(arn: string)
    ensures var first := CreateModelPackageGroup("test-package-group", "test package group",
                                                 "test-project-name", "test-project-id", Success(arn), None);
      first.result == Success(true) &&
      first.calls == [CreateGroup("test-package-group", "test package group"),
                      AddTags(arn, [Tag("sagemaker:project-name", "test-project-name"),
                                    Tag("sagemaker:project-id", "test-project-id")])]
    ensures var second := CreateModelPackageGroup("test-package-group", "test package group",
                                                  "test-project-name", "test-project-id",
                                                  Failure(ClientError("ValidationException", AlreadyExistsPhrase)), None);
      second.result == Success(false) && |second.calls| == 1
  {
    AlreadyExistsAnywhere("", "");
    assert "" + AlreadyExistsPhrase + "" == AlreadyExistsPhrase;
  }

  // ---------------------------------------------------------------------------
  // Lineage lookups

  /** One entry of `PipelineExecutionSteps`: its name and its `Metadata`, as a
      map from job kind ("TrainingJob", "ProcessingJob") to the job's ARN. */
  datatype Step = Step(stepName: string, metadata: map<string, string>)

  /** One entry of `ProcessingOutputConfig.Outputs`. */
  datatype ProcessingOutput = ProcessingOutput(outputName: string, s3Uri: string)

  /** What a lookup raises: `IndexError` from `[...][0]` on an empty list, a
      `KeyError` on a missing key, the client error of a call, or a generic
      exception carrying a client error's message. */
  datatype LookupError =
    | IndexError
    | KeyError(key: string)
    | ClientFailure(error: ClientError)
    | Raised(message: string)

  /** The SageMaker calls the lookups make, each keyed by its one argument.
      `describeArtifact` answers the artifact's `MetadataProperties`;
      `describeModelPackage` answers the `S3Uri` of its data-quality
      constraints, or the first key of `BaselinePath` its response lacks. */
  datatype SageMaker = SageMaker(
    listArtifacts: string -> Result<seq<string>, ClientError>,
    describeArtifact: string -> Result<map<string, string>, ClientError>,
    listExecutionSteps: string -> Result<seq<Step>, ClientError>,
    describeTrainingJob: string -> Result<string, ClientError>,
    describeProcessingJob: string -> Result<seq<ProcessingOutput>, ClientError>,
    describeModelPackage: string -> Result<BaselineEntry, ClientError>)

  /** The keys `get_data_check_baseline_uri` reads, outermost first. */
  const BaselinePath := ["DriftCheckBaselines", "ModelDataQuality", "Constraints", "S3Uri"]

  /** A position in `BaselinePath`. */
  type BaselineLevel = d: nat | d < 4

  /** What a `describe_model_package` response holds along `BaselinePath`:
      the constraints URI, or the level of the first key that is missing. */
  datatype BaselineEntry = ConstraintsUri(uri: string) | LacksKey(level: BaselineLevel)

  const TrainingStep := "TrainModel"
  const BaselineStep := "BaselineJob"
  const MonitoringOutput := "monitoring_output"

  /** The pipeline execution that generated a model package: the `GeneratedBy`
      of the first artifact whose source is the package. */
  function GetPipelineExecutionArn(sm: SageMaker, modelPackageArn: string): (r: Result<string, LookupError>)
    ensures sm.listArtifacts(modelPackageArn) == Success([]) ==> r == Failure(IndexError)
    ensures r.Success? <==>
      && sm.listArtifacts(modelPackageArn).Success?
      && |sm.listArtifacts(modelPackageArn).value| > 0
      && sm.describeArtifact(sm.listArtifacts(modelPackageArn).value[0]).Success?
      && "GeneratedBy" in sm.describeArtifact(sm.listArtifacts(modelPackageArn).value[0]).value
  {
    match sm.listArtifacts(modelPackageArn)
    case Failure(e) => Failure(ClientFailure(e))
    case Success(artifacts) =>
      if artifacts == [] then Failure(IndexError)
      else
        match sm.describeArtifact(artifacts[0])
        case Failure(e) => Failure(ClientFailure(e))
        case Success(properties) =>
          if "GeneratedBy" in properties then Success(properties["GeneratedBy"])
          else Failure(KeyError("GeneratedBy"))
  }

  /** Index of the first step with the given name, or -1. */
  function FirstStep(steps: seq<Step>, stepName: string): (i: int)
    ensures -1 <= i < |steps|
    ensures i >= 0 ==> steps[i].stepName == stepName
    ensures forall j :: 0 <= j < |steps| && (i < 0 || j < i) ==> steps[j].stepName != stepName
    decreases |steps|
  {
    if steps == [] then -1
    else if steps[0].stepName == stepName then 0
    else
      var i := FirstStep(steps[1..], stepName);
      if i < 0 then -1 else i + 1
  }

  /** `[s["Metadata"][kind]["Arn"] for s in steps if s["StepName"] == step_name]`:
      every matching step is evaluated, so any matching step without a job of
      that kind raises `KeyError`, even one after the first match. */
  function JobArns(steps: seq<Step>, stepName: string, kind: string): (r: Result<seq<string>, LookupError>)
    ensures r.Success? <==>
      forall j :: 0 <= j < |steps| && steps[j].stepName == stepName ==> kind in steps[j].metadata
    ensures r.Failure? ==> r.error == KeyError(kind)
    ensures r.Success? ==> (r.value == [] <==> FirstStep(steps, stepName) < 0)
    ensures r.Success? && r.value != [] ==> r.value[0] == steps[FirstStep(steps, stepName)].metadata[kind]
    decreases |steps|
  {
    if steps == [] then Success([])
    else
      var rest := JobArns(steps[1..], stepName, kind);
      assert forall j :: 1 <= j < |steps| ==> steps[j] == steps[1..][j - 1];
      if steps[0].stepName != stepName then rest
      else if kind !in steps[0].metadata then Failure(KeyError(kind))
      else
        match rest
        case Failure(e) => Failure(e)
        case Success(arns) => Success([steps[0].metadata[kind]] + arns)
  }

  /** The ARN of the job of the given kind run by the first step with the given name. */
  function JobArn(sm: SageMaker, executionArn: string, stepName: string, kind: string): Result<string, LookupError> {
    match sm.listExecutionSteps(executionArn)
    case Failure(e) => Failure(ClientFailure(e))
    case Success(steps) =>
      match JobArns(steps, stepName, kind)
      case Failure(e) => Failure(e)
      case Success(arns) => if arns == [] then Failure(IndexError) else Success(arns[0])
  }

  /** The S3 location of the model trained by the step with the given name. */
  function GetModelArtifact(sm: SageMaker, executionArn: string, stepName: string): Result<string, LookupError> {
    match JobArn(sm, executionArn, stepName, "TrainingJob")
    case Failure(e) => Failure(e)
    case Success(arn) =>
      match sm.describeTrainingJob(AfterLast(arn, '/'))
      case Failure(e) => Failure(ClientFailure(e))
      case Success(modelUri) => Success(modelUri)
  }

  /** The first output with the given name, as `[...][0]` picks it. */
  function FirstOutput(outputs: seq<ProcessingOutput>, outputName: string): (r: Option<string>)
    ensures r.None? <==> forall j :: 0 <= j < |outputs| ==> outputs[j].outputName != outputName
    ensures r.Some? ==> exists j :: 0 <= j < |outputs| && outputs[j].outputName == outputName && outputs[j].s3Uri == r.value &&
                          forall k :: 0 <= k < j ==> outputs[k].outputName != outputName
    decreases |outputs|
  {
    if outputs == [] then None
    else if outputs[0].outputName == outputName then Some(outputs[0].s3Uri)
    else
      var r := FirstOutput(outputs[1..], outputName);
      assert forall j :: 1 <= j < |outputs| ==> outputs[j] == outputs[1..][j - 1];
      if r.Some? then
        var j :| 0 <= j < |outputs[1..]| && outputs[1..][j].outputName == outputName && outputs[1..][j].s3Uri == r.value &&
                 forall k :: 0 <= k < j ==> outputs[1..][k].outputName != outputName;
        assert outputs[j + 1].outputName == outputName && outputs[j + 1].s3Uri == r.value;
        r
      else r
  }

  /** The S3 location of the named output of the processing job run by the
      step with the given name. */
  function GetProcessingOutput(sm: SageMaker, executionArn: string, stepName: string, outputName: string)
    : Result<string, LookupError>
  {
    match JobArn(sm, executionArn, stepName, "ProcessingJob")
    case Failure(e) => Failure(e)
    case Success(arn) =>
      match sm.describeProcessingJob(AfterLast(arn, '/'))
      case Failure(e) => Failure(ClientFailure(e))
      case Success(outputs) =>
        match FirstOutput(outputs, outputName)
        case None => Failure(IndexError)
        case Some(uri) => Success(uri)
  }

  lemma {:induction false} LastSeparator(prefix: string, name: string, c: char)
    requires c !in name
    ensures LastIndexOf(prefix + [c] + name, c) == |prefix|
    decreases |name|
  {
    var s := prefix + [c] + name;
    if name != [] {
      assert s[..|s| - 1] == prefix + [c] + name[..|name| - 1];
      assert s[|s| - 1] == name[|name| - 1];
      LastSeparator(prefix, name[..|name| - 1], c);
    } else {
      assert s[|s| - 1] == c;
    }
  }

  /** The job name taken from a job ARN `<prefix>/<name>` is `<name>`. */
  lemma JobNameOfArn(prefix: string, name: string)
    requires '/' !in name
    ensures AfterLast(prefix + "/" + name, '/') == name
  {
    LastSeparator(prefix, name, '/');
    var s := prefix + "/" + name;
    assert s[|prefix| + 1..] == name;
  }

  /** The training job behind the first step of that name is the one asked
      for, by the name its ARN ends with; its model location is returned. */
  lemma ModelArtifactOfFirstStep(sm: SageMaker, executionArn: string, stepName: string,
                                 steps: seq<Step>, prefix: string, name: string)
    requires sm.listExecutionSteps(executionArn) == Success(steps)
    requires forall j :: 0 <= j < |steps| && steps[j].stepName == stepName ==> "TrainingJob" in steps[j].metadata
    requires FirstStep(steps, stepName) >= 0
    requires steps[FirstStep(steps, stepName)].metadata["TrainingJob"] == prefix + "/" + name && '/' !in name
    ensures GetModelArtifact(sm, executionArn, stepName) ==
      match sm.describeTrainingJob(name)
      case Success(uri) => Success(uri)
      case Failure(e) => Failure(ClientFailure(e))
  {
    JobNameOfArn(prefix, name);
  }

  /** Without a step of that name, both lookups fail on indexing; with a
      matching step that lacks the job, they fail with `KeyError`. */
  lemma LookupFailures(sm: SageMaker, executionArn: string, stepName: string, steps: seq<Step>, outputName: string)
    requires sm.listExecutionSteps(executionArn) == Success(steps)
    ensures FirstStep(steps, stepName) < 0 ==>
      GetModelArtifact(sm, executionArn, stepName) == Failure(IndexError) &&
      GetProcessingOutput(sm, executionArn, stepName, outputName) == Failure(IndexError)
    ensures (exists j :: 0 <= j < |steps| && steps[j].stepName == stepName && "TrainingJob" !in steps[j].metadata) ==>
      GetModelArtifact(sm, executionArn, stepName) == Failure(KeyError("TrainingJob"))
  {
  }

  /** The baseline output is the first output of that name of the processing
      job behind the first step of that name; no such output fails on indexing. */
  lemma ProcessingOutputOfFirstStep(sm: SageMaker, executionArn: string, stepName: string, outputName: string,
                                    steps: seq<Step>, prefix: string, name: string, outputs: seq<ProcessingOutput>)
    requires sm.listExecutionSteps(executionArn) == Success(steps)
    requires forall j :: 0 <= j < |steps| && steps[j].stepName == stepName ==> "ProcessingJob" in steps[j].metadata
    requires FirstStep(steps, stepName) >= 0
    requires steps[FirstStep(steps, stepName)].metadata["ProcessingJob"] == prefix + "/" + name && '/' !in name
    requires sm.describeProcessingJob(name) == Success(outputs)
    ensures GetProcessingOutput(sm, executionArn, stepName, outputName) ==
      if FirstOutput(outputs, outputName).None? then Failure(IndexError)
      else Success(FirstOutput(outputs, outputName).value)
  {
    JobNameOfArn(prefix, name);
  }

  // ---------------------------------------------------------------------------
  // get_data_check_baseline_uri

  const ConstraintsFile := "/constraints.json"

  /** The folder holding a package's data-quality constraints and statistics:
      its constraints URI with every "/constraints.json" removed. A client
      error is re-raised as a generic exception with its message; a response
      lacking one of the keys raises `KeyError` naming the outermost one
      missing. */
  function GetDataCheckBaselineUri(sm: SageMaker, modelPackageArn: string): (r: Result<string, LookupError>)
    ensures r.Success? <==>
      sm.describeModelPackage(modelPackageArn).Success? && sm.describeModelPackage(modelPackageArn).value.ConstraintsUri?
    ensures sm.describeModelPackage(modelPackageArn).Failure? ==>
      r == Failure(Raised(sm.describeModelPackage(modelPackageArn).error.message))
    ensures r.Success? ==> |r.value| <= |sm.describeModelPackage(modelPackageArn).value.uri|
    ensures r.Failure? && r.error.KeyError? ==>
      && sm.describeModelPackage(modelPackageArn).Success?
      && r.error.key == BaselinePath[sm.describeModelPackage(modelPackageArn).value.level]
  {
    match sm.describeModelPackage(modelPackageArn)
    case Failure(e) => Failure(Raised(e.message))
    case Success(LacksKey(level)) => Failure(KeyError(BaselinePath[level]))
    case Success(ConstraintsUri(uri)) => Success(RemoveAll(uri, ConstraintsFile))
  }

  /** For the usual `<folder>/constraints.json`, the folder is returned. */
  lemma BaselineUriIsFolder(sm: SageMaker, modelPackageArn: string, folder: string)
    requires Absent(folder, ConstraintsFile)
    requires sm.describeModelPackage(modelPackageArn) == Success(ConstraintsUri(folder + ConstraintsFile))
    ensures GetDataCheckBaselineUri(sm, modelPackageArn) == Success(folder)
  {
    assert ConstraintsFile[0] == '/' && ConstraintsFile[1..] == "constraints.json";
    RemoveAllStripsSuffix(folder, ConstraintsFile);
  }

  /** A constraints URI that does not mention "/constraints.json" is returned unchanged. */
  lemma BaselineUriWithoutFile(sm: SageMaker, modelPackageArn: string, uri: string)
    requires Absent(uri, ConstraintsFile)
    requires sm.describeModelPackage(modelPackageArn) == Success(ConstraintsUri(uri))
    ensures GetDataCheckBaselineUri(sm, modelPackageArn) == Success(uri)
  {
    RemoveAllAbsent(uri, ConstraintsFile);
  }
}
