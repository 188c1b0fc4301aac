/** `create_pipeline` and `main` of batch_pipeline/app.py: the stage's batch
    configuration, the model package chosen through the registry, the model
    artifact and (with drift checking) the baseline found through the package's
    lineage, and the names and URIs the batch pipeline stack is built from. */
module BatchApp {
  import opened Common
  import opened Config
  import opened ModelRegistry
  import opened RegistryLineage

  /** `BatchConfig(**kwargs)` of batch_pipeline/infra/batch_config.py. */
  datatype BatchConfig = BatchConfig(
    stageName: Json,
    instanceCount: Json,
    instanceType: Json,
    modelPackageVersion: Json,
    modelPackageArn: Json,
    modelMonitorEnabled: Json)

  const BatchParams := [
    Param("stage_name", true), Param("instance_count", false), Param("instance_type", false),
    Param("model_package_version", false), Param("model_package_arn", false), Param("model_monitor_enabled", false)]

  function MakeBatchConfig(kwargs: map<string, Json>): Result<BatchConfig, CallError>
  {
    match CallCheck(BatchParams, kwargs)
    case Some(e) => Failure(e)
    case None =>
      assert BatchParams[0].required;
      Success(BatchConfig(
        kwargs["stage_name"],
        Arg(kwargs, "instance_count", DefaultInstanceCount),
        Arg(kwargs, "instance_type", DefaultInstanceType),
        Arg(kwargs, "model_package_version", JNull),
        Arg(kwargs, "model_package_arn", JNull),
        Arg(kwargs, "model_monitor_enabled", JBool(false))))
  }

  /** What the app reads: the stage configuration files (already decoded), the
      model registry listing, and the SageMaker lineage services. */
  datatype Services = Services(
    configFiles: string -> map<string, Json>,
    pages: seq<ListReply>,
    sm: SageMaker)

  /** The values the batch pipeline and its stack are built from. */
  datatype BatchStack = BatchStack(
    stackId: string,
    pipelineName: string,
    pipelineDescription: string,
    dataUri: string,
    transformUri: string,
    modelUri: string,
    baselineUri: Option<string>,
    uploadPrefix: string,
    tags: seq<StackTag>,
    driftConfig: Option<Json>)

  /** What `create_pipeline` raises. */
  datatype BatchError =
    | BadConfig(callError: CallError)
    | RegistryFailure(registryError: RegistryError)
    | NoPackage
    | UnhashableVersion(version: Json)
    | NoApprovedVersion(groupName: string, version: Json)
    | LineageFailure(lookupError: LookupError)
    | MissingAttribute(name: string)

  function ConfigFile(stageName: string): string { stageName + "-config.json" }
  function StackId(stageName: string): string { "drift-batch-" + stageName }
  function PipelineName(projectName: string, stageName: string): string { projectName + "-batch-" + stageName }
  function DataUri(bucket: string, projectId: string, stageName: string): string
  {
    "s3://" + bucket + "/" + projectId + "/batch/" + stageName
  }
  function TransformUri(bucket: string, projectId: string, stageName: string): string
  {
    "s3://" + bucket + "/" + projectId + "/transform/" + stageName
  }
  function UploadPrefix(projectId: string, stageName: string): string { projectId + "/batch-" + stageName }
  /** The pipeline description; `versionText` is the configured version as
      Python formats it. */
  function Description(stageName: string, versionText: string): string
  {
    "Batch Pipeline for " + stageName + " model version: " + versionText
  }

  /** The configuration with the package to run and that package's ARN and
      version. Without a configured version, the newest approved package
      (`max_results=1`) sets both the version and the ARN; with one, that
      version is looked up and only the ARN is set, the configured value
      staying as written (`2.0` finds version 2 and the description then reads
      "2.0"). A value no version equals reads the whole listing and raises; a
      list or an object is refused by `set()`. The `NoPackage` branches
      stand for the `IndexError` of `[0]` on an empty list;
      `NoPackageNeverRaised` shows they are never taken. */
  function ChoosePackage(sv: Services, packageGroup: string, config: BatchConfig)
    : Result<(BatchConfig, string, string), BatchError>
    requires ValidListing(sv.pages)
  {
    if config.modelPackageVersion.JNull? then
      match LatestApproved(packageGroup, 1, None, sv.pages)
      case Failure(e) => Failure(RegistryFailure(e))
      case Success(packages) =>
        if packages == [] then Failure(NoPackage)
        else
          var p := packages[0];
          Success((config.(modelPackageVersion := JInt(p.version), modelPackageArn := JString(p.arn)), p.arn, DecimalString(p.version)))
    else
      var v := config.modelPackageVersion;
      if !Hashable(v) then Failure(UnhashableVersion(v))
      else
        match RegistryVersion(v)
        case None =>
          (match ListingFault(sv.pages)
           case Some(m) => Failure(RegistryFailure(ServiceError(m)))
           case None => Failure(NoApprovedVersion(packageGroup, v)))
        case Some(n) =>
        match VersionedApproved(packageGroup, [n], sv.pages)
        case Failure(e) => Failure(RegistryFailure(e))
        case Success(packages) =>
          if packages == [] then Failure(NoPackage)
          else
            var p := packages[0];
            Success((config.(modelPackageArn := JString(p.arn)), p.arn, VersionText(v)))
  }

  /** The steps shared by both readings of `create_pipeline`, up to the model
      artifact: the configuration, the package, the execution that produced it
      and its training step's model. Gives the configuration, the execution ARN,
      the model URI and the version as the description prints it. */
  function Resolve(sv: Services, projectName: string, stageName: string)
    : Result<(BatchConfig, string, string, string), BatchError>
    requires ValidListing(sv.pages)
  {
    match MakeBatchConfig(sv.configFiles(ConfigFile(stageName)))
    case Failure(e) => Failure(BadConfig(e))
    case Success(config) =>
      match ChoosePackage(sv, projectName, config)
      case Failure(e) => Failure(e)
      case Success((chosen, arn, version)) =>
        match GetPipelineExecutionArn(sv.sm, arn)
        case Failure(e) => Failure(LineageFailure(e))
        case Success(executionArn) =>
          match GetModelArtifact(sv.sm, executionArn, TrainingStep)
          case Failure(e) => Failure(LineageFailure(e))
          case Success(modelUri) => Success((chosen, executionArn, modelUri, version))
  }

  /** `create_pipeline` as written: `BatchConfig` has no `drift_config`
      attribute, so reading it on line 77 raises `AttributeError` once the model
      artifact is found. */
  function CreatePipelineAsWritten(sv: Services, projectName: string, projectId: string, bucket: string, stageName: string)
    : Result<BatchStack, BatchError>
    requires ValidListing(sv.pages)
  {
    match Resolve(sv, projectName, stageName)
    case Failure(e) => Failure(e)
    case Success(_) => Failure(MissingAttribute("drift_config"))
  }

  /** `create_pipeline` with the drift configuration given alongside the batch
      configuration: the baseline is looked up only when one is given. */
  function CreatePipeline(sv: Services, projectName: string, projectId: string, bucket: string, stageName: string,
                          driftConfig: Option<Json>)
    : Result<BatchStack, BatchError>
    requires ValidListing(sv.pages)
  {
    match Resolve(sv, projectName, stageName)
    case Failure(e) => Failure(e)
    case Success((config, executionArn, modelUri, version)) =>
      var baseline :=
        if driftConfig.None? then Success(None)
        else match GetProcessingOutput(sv.sm, executionArn, BaselineStep, MonitoringOutput)
             case Failure(e) => Failure(e)
             case Success(uri) => Success(Some(uri));
      match baseline
      case Failure(e) => Failure(LineageFailure(e))
      case Success(baselineUri) =>
        Success(BatchStack(StackId(stageName), PipelineName(projectName, stageName), Description(stageName, version),
                           DataUri(bucket, projectId, stageName), TransformUri(bucket, projectId, stageName),
                           modelUri, baselineUri, UploadPrefix(projectId, stageName),
                           StageTags(projectName, projectId, stageName), driftConfig))
  }

  /** `main`: the staging pipeline, then the prod pipeline; an exception in the
      first stops the second. */
  function BuildAll(sv: Services, projectName: string, projectId: string, bucket: string,
                    stagingDrift: Option<Json>, prodDrift: Option<Json>)
    : Result<seq<BatchStack>, BatchError>
    requires ValidListing(sv.pages)
  {
    match CreatePipeline(sv, projectName, projectId, bucket, "staging", stagingDrift)
    case Failure(e) => Failure(e)
    case Success(staging) =>
      match CreatePipeline(sv, projectName, projectId, bucket, "prod", prodDrift)
      case Failure(e) => Failure(e)
      case Success(prod) => Success([staging, prod])
  }

  // ---------------------------------------------------------------------------
  // Properties.

  /** A configuration file holding only the stage: one `ml.t2.medium` instance,
      no version, no ARN, monitoring off. */
  lemma BatchDefaults(stage: Json)
    ensures MakeBatchConfig(map["stage_name" := stage]) ==
      Success(BatchConfig(stage, JInt(1), JString("ml.t2.medium"), JNull, JNull, JBool(false)))
  {
    assert IsParam(BatchParams, "stage_name");
    assert forall i :: 0 <= i < |BatchParams| && BatchParams[i].required ==> i == 0;
  }

  /** `BatchConfig(**kwargs)` binds iff the stage is given and every keyword is
      a parameter; each other field is then the given value when its key is
      present and its default otherwise. */
  lemma BatchFields(kwargs: map<string, Json>)
    ensures var r := MakeBatchConfig(kwargs);
      && (r.Success? <==> "stage_name" in kwargs && forall k :: k in kwargs ==> IsParam(BatchParams, k))
      && (r.Success? ==>
            && r.value.stageName == kwargs["stage_name"]
            && r.value.instanceCount == (if "instance_count" in kwargs then kwargs["instance_count"] else JInt(1))
            && r.value.instanceType == (if "instance_type" in kwargs then kwargs["instance_type"] else JString("ml.t2.medium"))
            && r.value.modelPackageVersion == (if "model_package_version" in kwargs then kwargs["model_package_version"] else JNull)
            && r.value.modelPackageArn == (if "model_package_arn" in kwargs then kwargs["model_package_arn"] else JNull)
            && r.value.modelMonitorEnabled == (if "model_monitor_enabled" in kwargs then kwargs["model_monitor_enabled"] else JBool(false)))
  {
  }

  /** Without a configured version, a chosen package is the first of the whole
      approved listing (newest first); its version and ARN are both recorded,
      and the description shows the version in decimal. A client error on a
      page the lookup never reaches does not matter. A listing that holds a
      package and ends without a client error always gives one. */
  lemma NoVersionTakesNewest(sv: Services, projectName: string, config: BatchConfig)
    requires ValidListing(sv.pages) && config.modelPackageVersion.JNull?
    ensures var r := ChoosePackage(sv, projectName, config);
      && (r.Success? ==>
            && Packages(sv.pages) != []
            && var p := Packages(sv.pages)[0];
               r.value == (config.(modelPackageVersion := JInt(p.version), modelPackageArn := JString(p.arn)),
                           p.arn, DecimalString(p.version)))
      && (sv.pages[|sv.pages| - 1].Page? && Packages(sv.pages) != [] ==> r.Success?)
  {
    LatestStartsWithNewest(projectName, 1, sv.pages);
    LatestSuccessNonEmpty(projectName, 1, sv.pages);
    if sv.pages[|sv.pages| - 1].Page? {
      LatestIsNewestPrefix(projectName, 1, None, sv.pages);
    }
  }


  /** With a configured version equal to registry version `n` (`2`, `2.0`),
      exactly `n` is looked up; the package found has it, only the ARN changes,
      and the description shows the value as configured. A version that no
      package has raises the registry's error. */
  lemma VersionKeepsVersion(sv: Services, projectName: string, config: BatchConfig, n: nat)
    requires ValidListing(sv.pages) && RegistryVersion(config.modelPackageVersion) == Some(n)
    ensures var r := ChoosePackage(sv, projectName, config);
      var found := VersionedApproved(projectName, [n], sv.pages);
      && (found.Failure? ==> r == Failure(RegistryFailure(found.error)))
      && (found.Success? ==>
            && found.value != []
            && found.value[0].version == n
            && r == Success((config.(modelPackageArn := JString(found.value[0].arn)), found.value[0].arn, VersionText(config.modelPackageVersion))))
  {
    var found := VersionedApproved(projectName, [n], sv.pages);
    VersionedReturnsRequested(projectName, [n], sv.pages);
    if found.Success? {
      assert found.value[0] in found.value;
    }
  }

  /** A built pipeline carries the stage's names, URIs and upload prefix, the
      model of the package's training step, and a description naming the
      version run. */
  lemma PipelineNamesAndUris(sv: Services, projectName: string, projectId: string, bucket: string, stageName: string,
                             driftConfig: Option<Json>)
    requires ValidListing(sv.pages)
    ensures var r := CreatePipeline(sv, projectName, projectId, bucket, stageName, driftConfig);
      r.Success? ==>
        && Resolve(sv, projectName, stageName).Success?
        && var (_, executionArn, modelUri, versionText) := Resolve(sv, projectName, stageName).value;
        && r.value.stackId == "drift-batch-" + stageName
        && r.value.pipelineName == projectName + "-batch-" + stageName
        && r.value.dataUri == "s3://" + bucket + "/" + projectId + "/batch/" + stageName
        && r.value.transformUri == "s3://" + bucket + "/" + projectId + "/transform/" + stageName
        && r.value.uploadPrefix == projectId + "/batch-" + stageName
        && r.value.pipelineDescription == "Batch Pipeline for " + stageName + " model version: " + versionText
        && GetModelArtifact(sv.sm, executionArn, TrainingStep) == Success(r.value.modelUri)
  {
  }

  /** The baseline is looked up, and present, exactly when a drift
      configuration is given; it is then the baseline job's
      `monitoring_output`. Without one, a failing baseline lookup cannot stop
      the build. */
  lemma BaselineOnlyWithDrift(sv: Services, projectName: string, projectId: string, bucket: string, stageName: string,
                              driftConfig: Option<Json>)
    requires ValidListing(sv.pages)
    ensures var r := CreatePipeline(sv, projectName, projectId, bucket, stageName, driftConfig);
      && (r.Success? ==> (r.value.baselineUri.Some? <==> driftConfig.Some?))
      && (r.Success? && driftConfig.Some? ==>
            GetProcessingOutput(sv.sm, Resolve(sv, projectName, stageName).value.1, BaselineStep, MonitoringOutput)
              == Success(r.value.baselineUri.value))
      && (driftConfig.None? ==> (r.Success? <==> Resolve(sv, projectName, stageName).Success?))
  {
  }

  /** Indexing the lookup's result with `[0]` never fails: both lookups raise
      rather than return an empty list. */
  lemma NoPackageNeverRaised(sv: Services, packageGroup: string, config: BatchConfig)
    requires ValidListing(sv.pages)
    ensures ChoosePackage(sv, packageGroup, config) != Failure(NoPackage)
  {
    if config.modelPackageVersion.JNull? {
      LatestSuccessNonEmpty(packageGroup, 1, sv.pages);
    } else if RegistryVersion(config.modelPackageVersion).Some? {
      VersionedReturnsRequested(packageGroup, [RegistryVersion(config.modelPackageVersion).value], sv.pages);
    }
  }

  /** A configured version that no registry version equals (`-1`, `"2"`)
      fails exactly as a version absent from the registry: with the client
      error the listing ends with, or with "no approved packages" naming the
      configured value. */
  lemma UnmatchedVersionRaises(sv: Services, packageGroup: string, config: BatchConfig, n: nat)
    requires ValidListing(sv.pages)
    requires var v := config.modelPackageVersion; !v.JNull? && Hashable(v) && RegistryVersion(v).None?
    requires forall p :: p in Packages(sv.pages) ==> p.version != n
    ensures var r := ChoosePackage(sv, packageGroup, config);
      var found := VersionedApproved(packageGroup, [n], sv.pages);
      && found.Failure? && r.Failure?
      && (found.error.ServiceError? ==> r.error == RegistryFailure(found.error))
      && (found.error.NoApprovedVersions? ==> r.error == NoApprovedVersion(packageGroup, config.modelPackageVersion))
  {
    AbsentVersionReadsAll(packageGroup, n, sv.pages);
  }

  /** As written, `create_pipeline` never builds a pipeline: after the model
      artifact is found it raises `AttributeError`. */
  lemma AsWrittenNeverBuilds(sv: Services, projectName: string, projectId: string, bucket: string, stageName: string)
    requires ValidListing(sv.pages)
    ensures var r := CreatePipelineAsWritten(sv, projectName, projectId, bucket, stageName);
      && r.Failure?
      && (Resolve(sv, projectName, stageName).Success? <==> r.error == MissingAttribute("drift_config"))
  {
  }

  lemma StackIdOfStage(sv: Services, projectName: string, projectId: string, bucket: string, stageName: string,
                       driftConfig: Option<Json>)
    requires ValidListing(sv.pages)
    ensures var r := CreatePipeline(sv, projectName, projectId, bucket, stageName, driftConfig);
      r.Success? ==> r.value.stackId == StackId(stageName)
  {
  }

  /** The staging pipeline comes before the prod pipeline. */
  lemma StagingBeforeProd(sv: Services, projectName: string, projectId: string, bucket: string,
                          stagingDrift: Option<Json>, prodDrift: Option<Json>)
    requires ValidListing(sv.pages)
    ensures var r := BuildAll(sv, projectName, projectId, bucket, stagingDrift, prodDrift);
      var staging := CreatePipeline(sv, projectName, projectId, bucket, "staging", stagingDrift);
      && (r.Success? ==> |r.value| == 2 && r.value[0].stackId == StackId("staging")
                                        && r.value[1].stackId == StackId("prod"))
      && (staging.Failure? ==> r == Failure(staging.error))
  {
    StackIdOfStage(sv, projectName, projectId, bucket, "staging", stagingDrift);
    StackIdOfStage(sv, projectName, projectId, bucket, "prod", prodDrift);
  }
}
