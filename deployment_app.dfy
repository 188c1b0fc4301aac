/** `create_endpoint` and `main` of deployment_pipeline/app.py: the endpoint name
    and its length bound, the stage's configuration, the choice of the model
    package to deploy through the registry, the URIs and the stack's name.
    The CDK stack itself is reduced to the values passed to it. */
module DeploymentApp {
  import opened Common
  import opened Config
  import opened ModelRegistry
  import opened RegistryLineage

  /** What the app reads: the stage configuration files (already decoded), the
      model registry listing, and the SageMaker lineage services. */
  datatype Services = Services(
    configFiles: string -> map<string, Json>,
    pages: seq<ListReply>,
    sm: SageMaker)

  /** The values the endpoint stack is built from. */
  datatype EndpointStack = EndpointStack(
    stackId: string,
    endpointName: string,
    deploymentConfig: DeploymentConfig,
    baselineUri: string,
    dataCaptureUri: string,
    reportingUri: string,
    tags: seq<StackTag>)

  /** What `create_endpoint` raises. */
  datatype EndpointError =
    | NameTooLong(message: string)
    | BadConfig(callError: CallError)
    | RegistryFailure(registryError: RegistryError)
    | NoPackage
    | UnhashableVersion(version: Json)
    | NoApprovedVersion(groupName: string, version: Json)
    | LineageFailure(lookupError: LookupError)
    | MissingMethod(name: string)

  const MaxEndpointName := 63

  function EndpointName(projectName: string, stageName: string): string
  {
    "sagemaker-" + projectName + "-" + stageName
  }

  function StackId(stageName: string): string { "drift-deploy-" + stageName }

  function ConfigFile(stageName: string): string { stageName + "-config.json" }

  function DataCaptureUri(bucket: string, projectId: string): string { "s3://" + bucket + "/" + projectId + "/datacapture" }
  function ReportingUri(bucket: string, projectId: string): string { "s3://" + bucket + "/" + projectId + "/monitoring" }

  /** The checks before any registry call: the name bound, then the stage's
      configuration. */
  function Prepare(sv: Services, projectName: string, stageName: string): Result<DeploymentConfig, EndpointError>
  {
    var name := EndpointName(projectName, stageName);
    if |name| > MaxEndpointName then
      Failure(NameTooLong("SageMaker endpoint: " + name + " must be less than 64 characters"))
    else
      match MakeDeploymentConfig(sv.configFiles(ConfigFile(stageName)))
      case Failure(e) => Failure(BadConfig(e))
      case Success(c) => Success(c)
  }

  /** The variant to deploy and its package ARN. Without a configured variant,
      the newest approved package (`max_results=1`) becomes one with weight 1
      and the deployment's instance settings; with one, its version is looked up
      and only its ARN is set. The version is compared as Python compares it:
      `2.0` and `True` find versions 2 and 1, while a value no version equals
      (`-1`, `"2"`, `None`) reads the whole listing and raises, as
      `AbsentVersionReadsAll` shows the lookup does; a list or an object is
      refused by `set()`. The `NoPackage` branches stand for the
      `IndexError` of `[0]` on an empty list; `NoPackageNeverRaised` shows
      they are never taken, since both lookups raise rather than return an
      empty list. */
  function ChooseVariant(sv: Services, packageGroup: string, config: DeploymentConfig): Result<(DeploymentConfig, string), EndpointError>
    requires ValidListing(sv.pages)
  {
    match config.variantConfig
    case None =>
      (match LatestApproved(packageGroup, 1, None, sv.pages)
       case Failure(e) => Failure(RegistryFailure(e))
       case Success(packages) =>
         if packages == [] then Failure(NoPackage)
         else
           var p := packages[0];
           var variant := VariantConfig(JInt(p.version), JInt(1), JNull, config.instanceCount, config.instanceType, JString(p.arn));
           Success((config.(variantConfig := Some(variant)), p.arn)))
    case Some(variant) =>
      var v := variant.modelPackageVersion;
      if !Hashable(v) then Failure(UnhashableVersion(v))
      else
        match RegistryVersion(v)
        case None =>
          (match ListingFault(sv.pages)
           case Some(m) => Failure(RegistryFailure(ServiceError(m)))
           case None => Failure(NoApprovedVersion(packageGroup, v)))
        case Some(n) =>
        match VersionedApproved(packageGroup, [n], sv.pages)
        case Failure(e) => Failure(RegistryFailure(e))
        case Success(packages) =>
          if packages == [] then Failure(NoPackage)
          else
            var p := packages[0];
            Success((config.(variantConfig := Some(variant.(modelPackageArn := JString(p.arn)))), p.arn))
  }

  /** `create_endpoint` as written: the registry it imports defines neither
      `get_pipeline_execution_arn` nor `get_processing_output`, so the call on
      line 74 raises `AttributeError` once a variant is chosen. */
  function CreateEndpointAsWritten(sv: Services, projectName: string, projectId: string, bucket: string, stageName: string)
    : Result<EndpointStack, EndpointError>
    requires ValidListing(sv.pages)
  {
    match Prepare(sv, projectName, stageName)
    case Failure(e) => Failure(e)
    case Success(config) =>
      match ChooseVariant(sv, projectName, config)
      case Failure(e) => Failure(e)
      case Success(_) => Failure(MissingMethod("get_pipeline_execution_arn"))
  }

  /** `create_endpoint` with the two lineage lookups of the batch pipeline's
      registry: the execution that produced the package, then the baseline
      job's `monitoring_output`. */
  function CreateEndpoint(sv: Services, projectName: string, projectId: string, bucket: string, stageName: string)
    : Result<EndpointStack, EndpointError>
    requires ValidListing(sv.pages)
  {
    match Prepare(sv, projectName, stageName)
    case Failure(e) => Failure(e)
    case Success(config) =>
      match ChooseVariant(sv, projectName, config)
      case Failure(e) => Failure(e)
      case Success((chosen, arn)) =>
        match GetPipelineExecutionArn(sv.sm, arn)
        case Failure(e) => Failure(LineageFailure(e))
        case Success(executionArn) =>
          match GetProcessingOutput(sv.sm, executionArn, BaselineStep, MonitoringOutput)
          case Failure(e) => Failure(LineageFailure(e))
          case Success(baselineUri) =>
            Success(EndpointStack(StackId(stageName), EndpointName(projectName, stageName), chosen, baselineUri,
                                  DataCaptureUri(bucket, projectId), ReportingUri(bucket, projectId),
                                  StageTags(projectName, projectId, stageName)))
  }

  /** `main`: the staging endpoint, then the prod endpoint; an exception in the
      first stops the second. */
  function Deploy(sv: Services, projectName: string, projectId: string, bucket: string): Result<seq<EndpointStack>, EndpointError>
    requires ValidListing(sv.pages)
  {
    match CreateEndpoint(sv, projectName, projectId, bucket, "staging")
    case Failure(e) => Failure(e)
    case Success(staging) =>
      match CreateEndpoint(sv, projectName, projectId, bucket, "prod")
      case Failure(e) => Failure(e)
      case Success(prod) => Success([staging, prod])
  }

  // ---------------------------------------------------------------------------
  // Properties.

  /** A name over 63 characters raises before the configuration or the registry
      is consulted: the outcome is the same whatever they hold. */
  lemma LongNameRaisesFirst(sv: Services, other: Services, projectName: string, projectId: string, bucket: string, stageName: string)
    requires ValidListing(sv.pages) && ValidListing(other.pages)
    requires |projectName| + |stageName| > 52
    ensures var r := CreateEndpoint(sv, projectName, projectId, bucket, stageName);
      && r == Failure(NameTooLong("SageMaker endpoint: sagemaker-" + projectName + "-" + stageName
                                  + " must be less than 64 characters"))
      && r == CreateEndpoint(other, projectName, projectId, bucket, stageName)
  {
    var name := EndpointName(projectName, stageName);
    assert |name| > MaxEndpointName;
    assert "SageMaker endpoint: " + name == "SageMaker endpoint: sagemaker-" + projectName + "-" + stageName;
  }

  /** A stack is built only for a name of at most 63 characters, and carries
      that name, its stack id and the stage's URIs and tags. */
  lemma StackNamesAndUris(sv: Services, projectName: string, projectId: string, bucket: string, stageName: string)
    requires ValidListing(sv.pages)
    ensures var r := CreateEndpoint(sv, projectName, projectId, bucket, stageName);
      r.Success? ==>
        && r.value.endpointName == "sagemaker-" + projectName + "-" + stageName
        && |r.value.endpointName| <= 63
        && r.value.stackId == "drift-deploy-" + stageName
        && r.value.dataCaptureUri == "s3://" + bucket + "/" + projectId + "/datacapture"
        && r.value.reportingUri == "s3://" + bucket + "/" + projectId + "/monitoring"
        && r.value.tags == [StackTag("sagemaker:deployment-stage", stageName),
                            StackTag("sagemaker:project-id", projectId),
                            StackTag("sagemaker:project-name", projectName)]
  {
  }

  /** The corrected lookup: a stack deploys the configuration `ChooseVariant`
      settled on, and its baseline is the `monitoring_output` of the
      `BaselineJob` step of the execution that produced the chosen package. */
  lemma BaselineOfChosenPackage(sv: Services, projectName: string, projectId: string, bucket: string, stageName: string)
    requires ValidListing(sv.pages)
    ensures var r := CreateEndpoint(sv, projectName, projectId, bucket, stageName);
      r.Success? ==>
        && Prepare(sv, projectName, stageName).Success?
        && var c := ChooseVariant(sv, projectName, Prepare(sv, projectName, stageName).value);
        && c.Success?
        && r.value.deploymentConfig == c.value.0
        && var execution := GetPipelineExecutionArn(sv.sm, c.value.1);
        && execution.Success?
        && GetProcessingOutput(sv.sm, execution.value, "BaselineJob", "monitoring_output") == Success(r.value.baselineUri)
  {
  }

  /** Without a configured variant, a chosen variant is the first package of
      the whole approved listing (newest first), with weight 1, no variant
      name and the deployment's instance settings; a client error on a page
      the lookup never reaches does not matter. A listing that holds a
      package and ends without a client error always gives one. */
  lemma NoVariantTakesNewest(sv: Services, projectName: string, stageName: string, config: DeploymentConfig)
    requires ValidListing(sv.pages) && config.variantConfig.None?
    ensures var r := ChooseVariant(sv, projectName, config);
      && (r.Success? ==>
            && Packages(sv.pages) != []
            && var p := Packages(sv.pages)[0];
               r.value == (config.(variantConfig := Some(VariantConfig(JInt(p.version), JInt(1), JNull, config.instanceCount,
                                                                       config.instanceType, JString(p.arn)))),
                           p.arn))
      && (sv.pages[|sv.pages| - 1].Page? && Packages(sv.pages) != [] ==> r.Success?)
  {
    LatestStartsWithNewest(projectName, 1, sv.pages);
    LatestSuccessNonEmpty(projectName, 1, sv.pages);
    if sv.pages[|sv.pages| - 1].Page? {
      LatestIsNewestPrefix(projectName, 1, None, sv.pages);
    }
  }


  /** With a configured variant, exactly its version is looked up; the package
      found has that version, and only the variant's ARN changes. A version that
      no package has raises the registry's error. */
  lemma VariantKeepsVersion(sv: Services, projectName: string, config: DeploymentConfig, n: nat)
    requires ValidListing(sv.pages)
    requires config.variantConfig.Some? && RegistryVersion(config.variantConfig.value.modelPackageVersion) == Some(n)
    ensures var r := ChooseVariant(sv, projectName, config);
      var found := VersionedApproved(projectName, [n], sv.pages);
      && (found.Failure? ==> r == Failure(RegistryFailure(found.error)))
      && (found.Success? ==>
            && found.value != []
            && found.value[0].version == n
            && r == Success((config.(variantConfig := Some(config.variantConfig.value.(modelPackageArn := JString(found.value[0].arn)))),
                             found.value[0].arn)))
  {
    var found := VersionedApproved(projectName, [n], sv.pages);
    VersionedReturnsRequested(projectName, [n], sv.pages);
    if found.Success? {
      assert found.value[0] in found.value;
    }
  }

  /** Indexing the lookup's result with `[0]` never fails: the newest-package
      lookup without a time filter and the versioned lookup both raise rather
      than return an empty list. */
  lemma NoPackageNeverRaised(sv: Services, packageGroup: string, config: DeploymentConfig)
    requires ValidListing(sv.pages)
    ensures ChooseVariant(sv, packageGroup, config) != Failure(NoPackage)
  {
    match config.variantConfig
    case None =>
      LatestSuccessNonEmpty(packageGroup, 1, sv.pages);
    case Some(variant) =>
      var n := RegistryVersion(variant.modelPackageVersion);
      if n.Some? {
        VersionedReturnsRequested(packageGroup, [n.value], sv.pages);
      }
  }

  /** A configured version that no registry version equals (`-1`, `"2"`,
      `None`) fails exactly as a version absent from the registry: with the
      client error the listing ends with, or with "no approved packages"
      naming the configured value. */
  lemma UnmatchedVersionRaises(sv: Services, packageGroup: string, config: DeploymentConfig, n: nat)
    requires ValidListing(sv.pages) && config.variantConfig.Some?
    requires var v := config.variantConfig.value.modelPackageVersion; Hashable(v) && RegistryVersion(v).None?
    requires forall p :: p in Packages(sv.pages) ==> p.version != n
    ensures var r := ChooseVariant(sv, packageGroup, config);
      var found := VersionedApproved(packageGroup, [n], sv.pages);
      && found.Failure? && r.Failure?
      && (found.error.ServiceError? ==> r.error == RegistryFailure(found.error))
      && (found.error.NoApprovedVersions? ==>
            r.error == NoApprovedVersion(packageGroup, config.variantConfig.value.modelPackageVersion))
  {
    AbsentVersionReadsAll(packageGroup, n, sv.pages);
  }

  /** As written, `create_endpoint` never returns: past the variant choice it
      raises `AttributeError`. */
  lemma AsWrittenNeverDeploys(sv: Services, projectName: string, projectId: string, bucket: string, stageName: string)
    requires ValidListing(sv.pages)
    ensures var r := CreateEndpointAsWritten(sv, projectName, projectId, bucket, stageName);
      && r.Failure?
      && (var config := Prepare(sv, projectName, stageName);
          config.Success? && ChooseVariant(sv, projectName, config.value).Success? ==>
            r.error == MissingMethod("get_pipeline_execution_arn"))
  {
  }

  lemma StackIdOfStage(sv: Services, projectName: string, projectId: string, bucket: string, stageName: string)
    requires ValidListing(sv.pages)
    ensures var r := CreateEndpoint(sv, projectName, projectId, bucket, stageName);
      r.Success? ==> r.value.stackId == StackId(stageName)
  {
  }

  /** The staging endpoint comes before the prod endpoint. */
  lemma StagingBeforeProd(sv: Services, projectName: string, projectId: string, bucket: string)
    requires ValidListing(sv.pages)
    ensures var r := Deploy(sv, projectName, projectId, bucket);
      && (r.Success? ==> |r.value| == 2 && r.value[0].stackId == StackId("staging")
                                        && r.value[1].stackId == StackId("prod"))
      && (CreateEndpoint(sv, projectName, projectId, bucket, "staging").Failure? ==>
            r == Failure(CreateEndpoint(sv, projectName, projectId, bucket, "staging").error))
  {
    var staging := CreateEndpoint(sv, projectName, projectId, bucket, "staging");
    var prod := CreateEndpoint(sv, projectName, projectId, bucket, "prod");
    assert Deploy(sv, projectName, projectId, bucket) ==
      if staging.Failure? then Failure(staging.error)
      else if prod.Failure? then Failure(prod.error)
      else Success([staging.value, prod.value]);
    StackIdOfStage(sv, projectName, projectId, bucket, "staging");
    StackIdOfStage(sv, projectName, projectId, bucket, "prod");
  }
}
