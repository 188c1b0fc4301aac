# Drift detection MLOps sample: the decision logic, in Dafny

This project models the decision procedures of the SageMaker drift-detection
sample, and proves properties about them. The sample is mostly CDK stack
declarations, built around a small amount of real logic:

- **Model registry client** (`ModelRegistry`, `RegistryLineage`):
  - the paginated "collect until enough" lookup of the latest approved model packages;
  - the paginated "collect until every requested version is seen" lookup;
  - the order- and duplicate-preserving version filter;
  - idempotent creation of a model package group;
  - the lineage lookups from a package to its pipeline execution, training
    artifact and baseline output;
  - the data-quality baseline folder.
- **Pipeline runner** (`PipelineRunner`): the CodePipeline custom action that
  starts a SageMaker pipeline, then polls it through a continuation token.
  It reports success, failure or "still running" back to CodePipeline.
- **Pipeline gate** (`PipelineGate`): the EventBridge handler. While a
  SageMaker pipeline is executing, it closes the "Build" stage's inbound
  transition and the drift and schedule rules. When the pipeline stops, it
  reopens them.
- **Template cleaning** (`CleanTemplate`): deletes every `AWS::IAM::Policy`
  from a CloudFormation template's resources, and scrubs their names from the
  `DependsOn` lists.
- **Deployment configuration** (`Config`): the `DeploymentConfig` family of
  constructors. They merge defaults, keyword arguments and nested dicts.
- **Deployment and batch apps** (`DeploymentApp`, `BatchApp`): endpoint and
  pipeline names, the name-length bound, URIs, and which model package each
  stage deploys.
- **Asset upload filter** (`UploadAssets`): which files go into an asset zip,
  and the zip's name.

All AWS calls are replaced by in-memory stand-ins:
- The list of replies that successive `list_model_packages` calls receive.
- Functions from a request to a reply, where the reply may be the client error
  the call raised.
- A recorded trace of the calls each operation makes.
- Rule and transition state the gate updates in place.

Where the source works by changing state, the model does too:
- The pagination loops are `while` loops that collect pages.
- The runner and the gate are classes whose methods append to a call trace and
  update their fields.
- Template cleaning is a class method that deletes and rewrites entries of its
  resource map.

Each such method is proved against a pure function. The properties are proved
as lemmas about that function.

`Common` holds the shared pieces: `Option`, `Result`, the client-error record,
Python's string helpers (`endswith`, `in`, `split(c)[-1]`, `replace`, slicing),
and decimal formatting of integers.

## Model

| member | source | states |
|---|---|---|
| ModelRegistry.LatestApproved | batch_pipeline/infra/model_registry.py:79-117 | Defines the lookup by the listing: after the calls `LatestFetchCount` counts, a client error is re-raised with its message. Otherwise an empty collection without `creation_time_after` raises "No approved packages found for: group", and anything else gives the collected packages cut to `max_results`. Its properties are stated by `LatestFetchesOnlyWhileShort`, `LatestIsNewestPrefix`, `LatestEmptyListing`, `LatestRaisesClientError` and `LatestSuccessNonEmpty`. |
| ModelRegistry.GetLatestApprovedPackages | batch_pipeline/infra/model_registry.py:79-117 | The loop returns what `LatestApproved` specifies. It issues exactly the requests `Requests` lists: the first with `MaxResults` and the optional `CreationTimeAfter`, and each later one copying the previous arguments with only `NextToken` replaced. |
| ModelRegistry.Requests | batch_pipeline/infra/model_registry.py:94-101 | The calls a paginating loop makes: the first request, then each time the previous request with `NextToken` replaced by the token of the page just received. |
| ModelRegistry.LatestFetchesOnlyWhileShort | batch_pipeline/infra/model_registry.py:94-101 | Another page is requested only while fewer than `max_results` packages are collected and the last reply had a `NextToken`. The loop stops at a client error, at a reply without a token, or once enough packages are collected. |
| ModelRegistry.LatestIsBoundedPrefix | batch_pipeline/infra/model_registry.py:91-112 | A successful result holds at most `max_results` packages and is a prefix of all pages' summaries concatenated in page order. |
| ModelRegistry.LatestIsNewestPrefix | deployment_pipeline/infra/model_registry.py:94-112 | On a listing that ends without error, the result is the first `min(max_results, n)` packages of the whole listing. It raises only when the listing is empty and no time filter is set. |
| ModelRegistry.LatestEmptyListing | batch_pipeline/infra/model_registry.py:103-109 | An empty listing raises "No approved packages found for: group" iff `creation_time_after` is None. With the filter set, it returns an empty list. |
| ModelRegistry.LatestRaisesClientError | batch_pipeline/infra/model_registry.py:114-117 | A client error at the end of the listing is re-raised with its message exactly when the loop was still short of `max_results` when it reached that reply. |
| ModelRegistry.LatestSuccessNonEmpty | batch_pipeline/infra/model_registry.py:103-112 | Without `creation_time_after` and with `max_results` at least 1, a successful lookup is non-empty and starts with the first collected package. So the `[0]` of both apps never fails after this lookup. |
| ModelRegistry.LatestStartsWithNewest | batch_pipeline/infra/model_registry.py:79-117 | Without a time filter, a successful lookup starts with the first package of the whole listing, even when a later reply, never reached, is a client error. |
| ModelRegistry.LatestTestScenario | deployment_pipeline/infra/test_model_registry.py:83-138 | Pages `[]`, `[v3]`, `[v2, v1]` with `max_results=2` yield `[v3, v2]`, with or without a time filter. |
| ModelRegistry.TestListingPackages | deployment_pipeline/infra/test_model_registry.py:83-138 | The test's three pages form a well-formed listing whose packages are `[v3, v2, v1]`. |
| ModelRegistry.Matching | batch_pipeline/infra/model_registry.py:198-200 | The comprehension `[p for p in packages if version matches]`: the packages of one version, in input order. `MatchingMembers` states its members. |
| ModelRegistry.Selected | batch_pipeline/infra/model_registry.py:196-201 | For each requested version in order, `Matching` of the packages, concatenated. `SelectedMembers`, `SelectedOnePerVersion` and `SelectedAbsorbs` state what it keeps and in which order. |
| ModelRegistry.SelectVersionedPackages | batch_pipeline/infra/model_registry.py:196-201 | The loop over the requested versions computes `Selected`: for each requested version in order, the packages with that version, in input order. |
| ModelRegistry.SelectedMembers | batch_pipeline/infra/model_registry.py:196-201 | A package is in the filtered list iff it is an input package whose version was requested. |
| ModelRegistry.MatchingMembers | batch_pipeline/infra/model_registry.py:198-200 | The per-version comprehension keeps exactly the input packages of that version. |
| ModelRegistry.SelectedOnePerVersion | batch_pipeline/infra/model_registry.py:196-201 | When each requested version matches exactly one package, the result has one package per requested version, in the requested order (duplicates repeated). |
| ModelRegistry.SelectedAbsorbs | batch_pipeline/infra/model_registry.py:147-175 | Filtering by the distinct versions first and then by the requested list equals filtering by the list alone. So the result does not depend on the order in which the version set is enumerated. |
| ModelRegistry.SelectedTestScenario | deployment_pipeline/infra/test_model_registry.py:316-334 | Packages `[1, 3, 2]` filtered by versions `[2, 3, 2]` give `[2, 3, 2]`. |
| ModelRegistry.Dedup | batch_pipeline/infra/model_registry.py:136 | The distinct requested versions, with no duplicates and exactly the same members as the request. |
| ModelRegistry.VersionedApproved | batch_pipeline/infra/model_registry.py:135-180 | Defines the versioned lookup by the listing: after the calls `VersionedFetchCount` counts, a client error is re-raised with its message. Otherwise no matched package raises "No approved packages found for: group and versions: [..]", and anything else gives the matched packages reordered by the requested list. `VersionedResultMeaning`, `VersionedStopsOnlyWhenComplete` and `VersionedReturnsRequested` state its meaning. |
| ModelRegistry.CollectVersioned | batch_pipeline/infra/model_registry.py:140-164 | The paging loop stops at the first reply that is a client error, has no `NextToken`, or brings the matched count up to the number of distinct versions. It returns that reply, the matching packages of all pages up to it in page order, and one request per page fetched. |
| ModelRegistry.GetVersionedApprovedPackages | batch_pipeline/infra/model_registry.py:135-180 | The loop returns what `VersionedApproved` specifies. Requests use a page size of 100, and each later request replaces only `NextToken`. |
| ModelRegistry.VersionedResultMeaning | batch_pipeline/infra/model_registry.py:166-175 | Over the fetched pages, the lookup raises iff none of them holds a requested version. Otherwise it returns the fetched packages reordered by the requested list, even when some versions were not found. |
| ModelRegistry.VersionedStopsOnlyWhenComplete | batch_pipeline/infra/model_registry.py:152-164 | When versions are unique in the listing, stopping once every distinct version is matched loses nothing: the result is as if every page had been read. |
| ModelRegistry.VersionedReturnsRequested | deployment_pipeline/infra/model_registry.py:167-178 | A successful lookup is non-empty, and every package in it has a requested version. |
| ModelRegistry.ListingFault | batch_pipeline/infra/model_registry.py:177-180 | The message of the client error the listing ends with; present iff its last reply is an error. |
| ModelRegistry.NothingMatched | batch_pipeline/infra/model_registry.py:146-164 | When no package of the listing has a requested version, no prefix of the listing matches anything. |
| ModelRegistry.NothingMatchedReadsFrom | batch_pipeline/infra/model_registry.py:146-164 | When nothing matches and something is requested, the loop, from any call on, goes on to the last reply. |
| ModelRegistry.NothingMatchedReadsAll | batch_pipeline/infra/model_registry.py:146-164 | When nothing matches and something is requested, the loop reads every reply. |
| ModelRegistry.AbsentVersionReadsAll | batch_pipeline/infra/model_registry.py:135-180 | Asking for a version no package has reads the whole listing. It then raises the client error the listing ends with, or "No approved packages found for: group and versions: [n]". |
| ModelRegistry.VersionedTestScenario | deployment_pipeline/infra/test_model_registry.py:257-313 | Requesting `[1, 2]` against pages holding 3, then 2 and 1 returns `[1, 2]`: requested order, not page order. |
| RegistryLineage.CreateModelPackageGroup | batch_pipeline/infra/model_registry.py:20-60 | Group creation creates and then tags with the project name and id. It returns True iff no error occurred. It returns False iff the error is a `ValidationException` mentioning "Model Package Group already exists". Any other error is raised with the same message. |
| RegistryLineage.AlreadyExistsAnywhere | batch_pipeline/infra/model_registry.py:50-57 | The "already exists" phrase is recognised anywhere inside the message. |
| RegistryLineage.CreateTwiceScenario | deployment_pipeline/infra/test_model_registry.py:21-80 | Creating a new group returns True after create and tag calls. Creating an existing one returns False after the single create call. |
| RegistryLineage.GetPipelineExecutionArn | batch_pipeline/infra/model_registry.py:203-218 | Succeeds iff the package has an artifact whose first entry's properties hold `GeneratedBy`. No artifact is an `IndexError`. |
| RegistryLineage.JobArns | batch_pipeline/infra/model_registry.py:238-242 | The job ARNs of the steps with the given name, in step order. A matching step without that job kind fails with a `KeyError`. |
| RegistryLineage.FirstStep | batch_pipeline/infra/model_registry.py:238-242 | The index of the first step with the given name, or -1 when there is none. |
| RegistryLineage.ModelArtifactOfFirstStep | batch_pipeline/infra/model_registry.py:220-247 | The model artifact is the one described for the job named after the last "/" of the first matching step's training-job ARN. |
| RegistryLineage.JobNameOfArn | batch_pipeline/infra/model_registry.py:243 | `arn.split("/")[-1]` of `prefix/name` is `name`. |
| RegistryLineage.LookupFailures | batch_pipeline/infra/model_registry.py:238-242 | No step of that name fails with `IndexError` in both lookups. A matching step without `TrainingJob` fails with `KeyError`. |
| RegistryLineage.GetModelArtifact | batch_pipeline/infra/model_registry.py:220-247 | The model URI of the training job run by the first step with the given name, found by the last `/` component of its ARN. No such step is an `IndexError`, a missing `TrainingJob` a `KeyError`, and client errors pass through. `ModelArtifactOfFirstStep` and `LookupFailures` state this. |
| RegistryLineage.FirstOutput | batch_pipeline/infra/model_registry.py:278-280 | None iff no output has the name. Otherwise it is the URI of the first output with that name. |
| RegistryLineage.ProcessingOutputOfFirstStep | batch_pipeline/infra/model_registry.py:249-280 | The processing output is the first output with the given name of the first matching step's processing job. With no such output, it is an `IndexError`. |
| RegistryLineage.GetProcessingOutput | batch_pipeline/infra/model_registry.py:249-280 | The S3 URI of the first output with the given name of the processing job run by the first step with the given name. No step or no such output is an `IndexError`. `ProcessingOutputOfFirstStep` states this. |
| RegistryLineage.GetDataCheckBaselineUri | deployment_pipeline/infra/model_registry.py:206-221 | Succeeds iff the package describes a constraints URI. A client error is raised with its message. A response lacking `DriftCheckBaselines`, `ModelDataQuality`, `Constraints` or `S3Uri` raises `KeyError` naming the outermost key missing. The result is never longer than the URI. |
| RegistryLineage.BaselineUriIsFolder | deployment_pipeline/infra/model_registry.py:212-217 | For `<folder>/constraints.json`, the baseline URI is the folder. |
| RegistryLineage.BaselineUriWithoutFile | deployment_pipeline/infra/model_registry.py:212-217 | A URI that does not contain "/constraints.json" is returned unchanged. |
| PipelineRunner.TryBlock | lambda/build/lambda_start_pipeline.py:22-76 | The `try` body of `check_pipeline`: one start or describe call, then the report and status code each branch makes, or the exception raised on the way. `CheckCalls`, `StartThenRearm`, `TerminalFailureReported`, `TerminalSuccessReported` and `OtherStatusRearms` state its branches. |
| PipelineRunner.Check | lambda/build/lambda_start_pipeline.py:21-92 | `check_pipeline`: `TryBlock`, then the `except ClientError` path (500, with a failure report unless the code is `InvalidJobStateException`) and the re-raise of other exceptions. `ClientErrorReturns500`, `OtherFaultReraised`, `ExactlyOneReport` and `EveryRunBounded` state it. |
| PipelineRunner.Put | lambda/build/lambda_start_pipeline.py:58-76 | One `put_job_*_result` call: it is recorded, and it raises when the service rejects it. `ExactlyOneReport` and `EveryRunBounded` state what the reports add up to. |
| PipelineRunner.Handle | lambda/build/lambda_start_pipeline.py:95-115 | `lambda_handler`: reads `PipelineName` from the user parameters (`KeyError` without it) and passes the continuation token iff the job data holds one. `HandlerFollowsToken` states it. |
| PipelineRunner.StartThenRearm | lambda/build/lambda_start_pipeline.py:23-38 | Without a token, the runner starts one execution with display name "codepipeline-" + job id, parameter `InputSource=CodePipeline`, the fixed description and the job id as client request token. It then re-arms with the new ARN and returns 202. |
| PipelineRunner.NoTokenNeverTerminal | lambda/build/lambda_start_pipeline.py:70-76 | Without a token, there is exactly one start call and never a terminal success or status failure. The code is 202, or 500 on a client error. |
| PipelineRunner.TerminalFailureReported | lambda/build/lambda_start_pipeline.py:51-59 | Failed or Stopped gives one describe call and one failure report `{type: JobFailed, message: "Pipeline Status is <s>", externalExecutionId: arn}`, then 400. |
| PipelineRunner.TerminalSuccessReported | lambda/lambda_start_pipeline.py:55-63 | Executing or Succeeded gives one success report with output variables `{Status, PipelineExecutionArn}`, then 200. |
| PipelineRunner.OtherStatusRearms | lambda/build/lambda_start_pipeline.py:70-76 | Any other status re-arms with the same ARN as continuation token and returns 202. |
| PipelineRunner.ClientErrorReturns500 | lambda/build/lambda_start_pipeline.py:77-89 | A client error returns 500 with `{type: JobFailed, message}`. A failure report is sent iff the code is not `InvalidJobStateException`. |
| PipelineRunner.OtherFaultReraised | lambda/build/lambda_start_pipeline.py:90-92 | Any other exception is re-raised unchanged, with no report. |
| PipelineRunner.ExactlyOneReport | lambda/lambda_start_pipeline.py:47-69 | When no call fails, exactly one report is made. 400, 200 and 202 correspond one to one with failure, success and continuation reports. |
| PipelineRunner.EveryRunBounded | lambda/lambda_start_pipeline.py:17-83 | Every run makes one SageMaker call and at most two reports. A second report is always the failure report of a failed first report. Only 500 can come with other than one report. |
| PipelineRunner.HandlerFollowsToken | lambda/build/lambda_start_pipeline.py:95-115 | The handler describes the execution iff `continuationToken` is in the job data (using it as ARN). Otherwise it starts the pipeline named in `UserParameters`. Its status code is the runner's. |
| PipelineRunner.Services.PutReport | lambda/build/lambda_start_pipeline.py:58 | A report is appended to the trace, and its failure, if any, is returned. |
| PipelineRunner.Services.constructor | lambda/build/lambda_start_pipeline.py:16-18 | The clients start with empty call and report traces and the given service behaviour. |
| PipelineRunner.CheckCalls | lambda/build/lambda_start_pipeline.py:23-50 | Without an execution ARN, exactly one `start_pipeline_execution` is made, with the request built from the job id and pipeline name. With an ARN, exactly one `describe_pipeline_execution` of that ARN is made. |
| PipelineRunner.Services.TryCheck | lambda/build/lambda_start_pipeline.py:22-76 | The `try` body appends exactly `TryBlock`'s calls and reports. It returns the status code and result when the body completes, or the `ClientError` it raised. |
| PipelineRunner.Services.CheckPipeline | lambda/build/lambda_start_pipeline.py:21-92 | The method appends exactly `Check`'s calls and reports to the traces and returns its outcome. |
| PipelineRunner.Services.LambdaHandler | lambda/lambda_start_pipeline.py:86-97 | The handler method appends `Handle`'s calls and reports and returns its response. |
| PipelineGate.SetRule | lambda/build/lambda_pipeline_change.py:24-41 | `update_cloudwatch_rule`: one enable or disable call. A missing rule is tolerated; any other client error raises with its message and changes nothing. `RuleErrors` states it. |
| PipelineGate.RuleReply | lambda/build/lambda_pipeline_change.py:24-41 | The reply of `enable_rule`/`disable_rule`: `ResourceNotFoundException` for a missing rule, else the service's own fault. `RuleErrors` states how `SetRule` handles each. |
| PipelineGate.SetRules | lambda/build/lambda_pipeline_change.py:61-62 | The `for` loop over rule names, stopping at the first exception. `SetRulesNoFault`, `SetRulesFrame` and `ThenStep` state it. |
| PipelineGate.UpdateRules | lambda/build/lambda_pipeline_change.py:44-78 | `update_pipeline_rules`: the transition call for the status, then the rule loop, and the result dict. `StatusDecides`, `DriftErrorStops` and `OnlyGateChanges` state it. |
| PipelineGate.Handle | lambda/build/lambda_pipeline_change.py:81-105 | `lambda_handler`: rejects any event that is not a pipeline status change, otherwise runs `UpdateRules` and turns every exception into its message. `WrongEventRejected`, `LastEventWins` and `ReplayIdempotent` state it. |
| PipelineGate.StatusDecides | lambda/build/lambda_pipeline_change.py:44-78 | "Executing" closes the Build inbound transition with reason "Running SageMaker Pipeline Execution: arn", then disables drift and schedule rules, and returns `{action: Start}`. Every other status opens the transition and enables both rules, returning `{action: Stop, status}`. |
| PipelineGate.SetRulesNoFault | lambda/build/lambda_pipeline_change.py:61-62 | Without rule errors, the loop issues one enable or disable per rule name, in order. The enabled set gains or loses exactly the existing named rules. |
| PipelineGate.SetRulesFrame | lambda/lambda_pipeline_change.py:46-67 | The rule loop changes only the enabled flag of the named rules. |
| PipelineGate.RuleErrors | lambda/build/lambda_pipeline_change.py:24-41 | A missing rule is tolerated without change. Any other rule error raises with the provider's message and changes nothing. |
| PipelineGate.DriftErrorStops | lambda/build/lambda_pipeline_change.py:76-77 | An error on the drift rule aborts before the schedule rule is touched. |
| PipelineGate.OnlyGateChanges | lambda/lambda_pipeline_change.py:46-67 | No rule other than the two named ones changes, and no rule is created or deleted. |
| PipelineGate.WrongEventRejected | lambda/build/lambda_pipeline_change.py:85-92 | Nothing is called iff the source or detail-type is wrong. Such an event leaves the state unchanged and raises "Expect SageMaker Model Package State Change". |
| PipelineGate.LastEventWins | lambda/build/lambda_pipeline_change.py:48-77 | Without errors, the state after two events equals the state after the last one alone. |
| PipelineGate.ReplayIdempotent | lambda/lambda_pipeline_change.py:46-67 | Without errors, replaying an event leaves the state as one application left it. |
| PipelineGate.ThenStep | lambda/build/lambda_pipeline_change.py:61-62 | One iteration of the rule loop: the continuation after the first rule equals the whole loop. |
| PipelineGate.Gate.constructor | lambda/lambda_pipeline_change.py:8-17 | The gate starts with the given configuration, rule-error oracle and state, and an empty call trace. |
| PipelineGate.Gate.UpdateCloudwatchRule | lambda/build/lambda_pipeline_change.py:24-41 | The method moves the state to `SetRule`'s new state and appends its calls. |
| PipelineGate.Gate.UpdateCloudwatchRules | lambda/build/lambda_pipeline_change.py:61-62 | The `for` loop over the rule names leaves exactly `SetRules`'s state, appends its calls and returns its error. |
| PipelineGate.Gate.UpdatePipelineRules | lambda/build/lambda_pipeline_change.py:44-78 | The transition call followed by the rule loop leaves exactly `UpdateRules`'s state, trace and result. |
| PipelineGate.Gate.LambdaHandler | lambda/build/lambda_pipeline_change.py:81-105 | The handler method leaves exactly `Handle`'s state, trace and response. |
| CleanTemplate.RemoveFirst | infra/clean_template.py:38 | `list.remove`: the list without its first occurrence of the name. `RemoveFirstOnly` states it. |
| CleanTemplate.ScrubList | infra/clean_template.py:35-38 | The inner loop over the policy names: removes the first occurrence of each present policy, in policy order. `ScrubListCounts`, `ScrubListKeepsOrder` and `ScrubListUnrelated` state it. |
| CleanTemplate.RemoveIfPresent | infra/clean_template.py:36-38 | One inner-loop turn: `if p in deps: deps.remove(p)`. `ScrubListCounts` states what the turns add up to. |
| CleanTemplate.Scrub | infra/clean_template.py:35-40 | One outer-loop turn on a resource: its `DependsOn` scrubbed, and the key deleted once the list is empty. `CleanedResources` states it. |
| CleanTemplate.Cleaned | infra/clean_template.py:25-40 | The `Resources` map after `remove_policy`: the non-policy resources, each with its `DependsOn` scrubbed and dropped when empty. `CleanedResources` and `CleanedInTwoPhases` state it. |
| CleanTemplate.PolicyList | infra/clean_template.py:25-27 | The policy list holds exactly the resources of type `AWS::IAM::Policy`, each once. |
| CleanTemplate.WithDependsOn | infra/clean_template.py:33 | The list holds exactly the remaining resources that have a `DependsOn`, each once. |
| CleanTemplate.FirstIndex | infra/clean_template.py:38 | The index of the first occurrence: that element is the name, and no earlier one is. |
| CleanTemplate.CleanedResources | infra/clean_template.py:25-40 | Afterwards: no policy remains, exactly the non-policy keys remain, and type and properties are unchanged. Resources without `DependsOn` are untouched, and no `DependsOn` is left empty. |
| CleanTemplate.RemoveFirstOnly | infra/clean_template.py:36-38 | `list.remove` deletes only the first occurrence: the result is the list without that one element. |
| CleanTemplate.ScrubListCounts | infra/clean_template.py:34-38 | Scrubbing removes one occurrence of each policy name present: the multiset of names is the original minus the policies. |
| CleanTemplate.ScrubListKeepsOrder | infra/clean_template.py:37-38 | The surviving names appear in the original list in the same relative order, witnessed by an increasing index map. |
| CleanTemplate.ScrubListUnrelated | infra/clean_template.py:35-36 | A list that mentions no policy is left as it is. |
| CleanTemplate.Template.RemovePolicy | infra/clean_template.py:24-40 | The nested loops leave the resource map equal to `Cleaned` of the original with its policy list. |
| CleanTemplate.Template.DeleteAll | infra/clean_template.py:28-30 | The delete loop removes exactly the listed keys. |
| CleanTemplate.Template.ScrubAll | infra/clean_template.py:34-40 | After the outer loop, every resource that has a `DependsOn` is replaced by its scrubbed version; every other resource and every key is unchanged. |
| CleanTemplate.CleanedInTwoPhases | infra/clean_template.py:25-40 | Deleting the policies, then scrubbing each remaining resource with a `DependsOn`, yields `Cleaned` of the original template. |
| CleanTemplate.Template.constructor | infra/clean_template.py:22-23 | The template starts out holding the loaded resource map. |
| CleanTemplate.Template.ScrubDependsOn | infra/clean_template.py:35-40 | Scrubbing one resource replaces it by its scrubbed version and leaves the rest alone. |
| Config.MakeVariantConfig | deployment_pipeline/infra/deployment_config.py:7-21 | `VariantConfig(**kwargs)`: the keyword check, then the given values over the defaults. `VariantFields` and `VariantDefaults` state it. |
| Config.MakeAutoScalingConfig | deployment_pipeline/infra/deployment_config.py:24-37 | `AutoScalingConfig(**kwargs)`. `AutoScalingFields` and `AutoScalingDefaults` state it. |
| Config.MakeScheduleConfig | deployment_pipeline/infra/deployment_config.py:41-62 | `ScheduleConfig(**kwargs)`, with three required parameters. `ScheduleFields` and `ScheduleDefaults` state it. |
| Config.MakeDeploymentConfig | deployment_pipeline/infra/deployment_config.py:65-94 | `DeploymentConfig(**j)`: the keyword check, then the nested records built in order variant, auto scaling, schedule, each only from a dict. `DeploymentDefaults`, `DeploymentParts`, `NestedIffDict` and `VariantInheritsInstance` state it. |
| Config.CallCheck | deployment_pipeline/infra/deployment_config.py:8-21 | Binding keyword arguments succeeds iff every key is a parameter and every required parameter is given. Unexpected keywords are reported first. |
| Config.Missing | deployment_pipeline/infra/deployment_config.py:10 | No required parameter is missing iff each one is among the keys. |
| Config.Arg | deployment_pipeline/infra/deployment_config.py:8-21 | A parameter's value: the keyword argument when given, else the default in the signature. The `*Fields` lemmas state it per record. |
| Config.PyEquals | batch_pipeline/infra/model_registry.py:199-203 | Python's `==` between a JSON value and an integer version: `2`, `2.0` and `True` equal 2 and 1 as Python has them, and a string, null, list or dict equals no number. |
| Config.RegistryVersion | batch_pipeline/infra/model_registry.py:136-203 | The registry version a configured value equals, if any: `Some(n)` iff the value `==` n, for every natural n. |
| Config.Hashable | batch_pipeline/infra/model_registry.py:136 | `set()` accepts every JSON value but a list or a dict. |
| Config.VersionText | batch_pipeline/app.py:73 | The f-string text of a configured version that equals a registry version: `2`, `2.0`, `True`. |
| Config.VariantFields | deployment_pipeline/infra/deployment_config.py:7-21 | `VariantConfig(**kwargs)` binds iff `model_package_version` is given and every keyword is a parameter. Each other field is then the given value when its key is present, and its default otherwise. |
| Config.AutoScalingFields | deployment_pipeline/infra/deployment_config.py:24-37 | `AutoScalingConfig(**kwargs)` binds iff every keyword is a parameter. Each field is then the given value when its key is present, and its default otherwise. |
| Config.ScheduleFields | deployment_pipeline/infra/deployment_config.py:41-62 | `ScheduleConfig(**kwargs)` binds iff the expression, metric and threshold are given and every keyword is a parameter. Each other field is then the given value when its key is present, and its default otherwise. |
| Config.VariantDefaults | deployment_pipeline/infra/deployment_config.py:7-21 | `model_package_version` is required. The defaults are weight 1.0, no name, one `ml.t2.medium` instance and no ARN. |
| Config.AutoScalingDefaults | deployment_pipeline/infra/deployment_config.py:24-37 | The defaults are capacity 1 to 1, target 750, and both cooldowns 60. |
| Config.ScheduleDefaults | deployment_pipeline/infra/deployment_config.py:41-62 | With the three required arguments, the defaults are `GreaterThanThreshold`, period 60, one evaluation period, one datapoint, `Average` and sampling 100. |
| Config.DeploymentDefaults | deployment_pipeline/infra/deployment_config.py:65-94 | Given only a stage, a deployment has one `ml.t2.medium` instance and no variant, auto scaling or schedule. |
| Config.NestedIffDict | deployment_pipeline/infra/deployment_config.py:76-93 | Each nested configuration is built iff its argument is a dict, and is None otherwise. |
| Config.NestedVariant | deployment_pipeline/infra/deployment_config.py:76-85 | A successful variant is present iff the argument is a dict. |
| Config.VariantArguments | deployment_pipeline/infra/deployment_config.py:78-83 | `{**{"instance_count": ..., "instance_type": ...}, **variant_config}`: the variant dict's keys override. `VariantInstance` states it. |
| Config.NestedAutoScaling | deployment_pipeline/infra/deployment_config.py:86-89 | A successful auto-scaling config is present iff the argument is a dict. |
| Config.NestedSchedule | deployment_pipeline/infra/deployment_config.py:90-93 | A successful schedule is present iff the argument is a dict. |
| Config.VariantInheritsInstance | deployment_pipeline/infra/deployment_config.py:77-83 | The variant's instance count and type are the deployment's unless the variant dict sets them. |
| Config.VariantInstance | deployment_pipeline/infra/deployment_config.py:78-82 | In the merged arguments, the variant dict's keys override the deployment's instance settings. |
| DeploymentApp.Prepare | deployment_pipeline/app.py:30-47 | The endpoint-name bound, then the stage configuration. `LongNameRaisesFirst` states it. |
| DeploymentApp.ChooseVariant | deployment_pipeline/app.py:53-71 | The variant and package ARN: the newest approved package without a configured variant, the configured version otherwise, compared with Python's `==`. A list or dict version is refused by `set()`. `NoVariantTakesNewest`, `VariantKeepsVersion`, `UnmatchedVersionRaises` and `NoPackageNeverRaised` state it. |
| DeploymentApp.CreateEndpointAsWritten | deployment_pipeline/app.py:30-77 | `create_endpoint` as written, failing at the missing registry method. `AsWrittenNeverDeploys` states it. |
| DeploymentApp.CreateEndpoint | deployment_pipeline/app.py:30-96 | `create_endpoint` with the lineage lookups: the stack values. `StackNamesAndUris` and `BaselineOfChosenPackage` state it. |
| DeploymentApp.Deploy | deployment_pipeline/app.py:99-127 | `main`: staging, then prod. `StagingBeforeProd` states it. |
| DeploymentApp.LongNameRaisesFirst | deployment_pipeline/app.py:30-34 | A name "sagemaker-project-stage" over 63 characters raises its message. The outcome does not depend on the configuration or the registry. |
| DeploymentApp.StackNamesAndUris | deployment_pipeline/app.py:30-96 | A built endpoint is named "sagemaker-project-stage", of at most 63 characters, in stack "drift-deploy-stage". Its data-capture and reporting URIs are `s3://bucket/project_id/datacapture` and `.../monitoring`, and it carries the three tags stage, project id and project name, in that order. |
| DeploymentApp.BaselineOfChosenPackage | deployment_pipeline/app.py:44-96 | A built stack deploys the configuration `ChooseVariant` settled on. Its baseline URI is the `monitoring_output` of the `BaselineJob` step of the execution that produced the chosen package. |
| DeploymentApp.NoVariantTakesNewest | deployment_pipeline/app.py:53-62 | Without a variant, a chosen variant is the first package of the whole listing, with its version and ARN, weight 1, no name and the deployment's instance settings, whatever lies on pages not reached. A listing holding a package and ending without a client error always gives one. |
| DeploymentApp.VariantKeepsVersion | deployment_pipeline/app.py:63-71 | With a variant whose version equals registry version n (`2`, `2.0`, `True` for 1), exactly `[n]` is looked up. The package found has version n, and only the variant's ARN changes; the configured value is kept as written. A lookup error is raised. |
| DeploymentApp.UnmatchedVersionRaises | deployment_pipeline/app.py:63-70 | A hashable version no registry version equals (`-1`, `"2"`) fails as a version n absent from the registry does: with the same client error, or with "no approved packages" naming the configured value. |
| DeploymentApp.NoPackageNeverRaised | deployment_pipeline/app.py:55-70 | The `[0]` after either package lookup never fails: `ChooseVariant` never fails with `NoPackage`. |
| DeploymentApp.AsWrittenNeverDeploys | deployment_pipeline/app.py:73-77 | As written, no endpoint is ever created. Once a variant is chosen, the missing registry method raises. |
| DeploymentApp.StagingBeforeProd | deployment_pipeline/app.py:110-125 | The staging endpoint is created before the prod one, and a staging failure stops the run. |
| BatchApp.MakeBatchConfig | batch_pipeline/infra/batch_config.py:1-16 | `BatchConfig(**j)`. `BatchDefaults` states it. |
| BatchApp.ChoosePackage | batch_pipeline/app.py:42-55 | The package version and ARN: the newest approved package without a configured version, the configured version otherwise, compared with Python's `==`. A list or dict version is refused by `set()`. `NoVersionTakesNewest`, `VersionKeepsVersion`, `UnmatchedVersionRaises` and `NoPackageNeverRaised` state it. |
| BatchApp.Resolve | batch_pipeline/app.py:34-69 | The configuration, the package, its execution and its `TrainModel` artifact, stopping at the first error. `PipelineNamesAndUris` states what the stack takes from it. |
| BatchApp.CreatePipelineAsWritten | batch_pipeline/app.py:34-77 | `create_pipeline` as written, failing at the missing `drift_config`. `AsWrittenNeverBuilds` states it. |
| BatchApp.CreatePipeline | batch_pipeline/app.py:34-126 | `create_pipeline` with the drift configuration passed in. `PipelineNamesAndUris` and `BaselineOnlyWithDrift` state it. |
| BatchApp.BuildAll | batch_pipeline/app.py:129-162 | `main`: staging, then prod. `StagingBeforeProd` states it. |
| BatchApp.BatchFields | batch_pipeline/infra/batch_config.py:1-16 | `BatchConfig(**kwargs)` binds iff the stage is given and every keyword is a parameter. Each other field is then the given value when its key is present, and its default otherwise. |
| BatchApp.BatchDefaults | batch_pipeline/infra/batch_config.py:2-16 | Given only a stage, a batch configuration has one `ml.t2.medium` instance, no version, no ARN and monitoring off. |
| BatchApp.NoVersionTakesNewest | batch_pipeline/app.py:43-47 | Without a configured version, a chosen package is the first of the whole listing; it sets both the version and the ARN, and the description shows that version in decimal, whatever lies on pages not reached. A listing holding a package and ending without a client error always gives one. |
| BatchApp.VersionKeepsVersion | batch_pipeline/app.py:48-55 | With a configured version that equals registry version n (`2`, `2.0`), exactly `[n]` is looked up. The package found has version n, only the ARN changes, and the description shows the value as configured ("2.0"). A lookup error is raised. |
| BatchApp.UnmatchedVersionRaises | batch_pipeline/app.py:48-54 | A hashable version no registry version equals (`-1`, `"2"`) fails as a version n absent from the registry does: with the same client error, or with "no approved packages" naming the configured value. |
| BatchApp.NoPackageNeverRaised | batch_pipeline/app.py:45-54 | The `[0]` after either package lookup never fails: `ChoosePackage` never fails with `NoPackage`. |
| BatchApp.PipelineNamesAndUris | batch_pipeline/app.py:57-126 | A built pipeline has data URI `s3://bucket/project_id/batch/stage`, transform URI `.../transform/stage`, name "project-batch-stage", upload prefix "project_id/batch-stage" and stack "drift-batch-stage". Its description ends with the version text `Resolve` gives, and its model is the execution's TrainModel artifact. |
| BatchApp.BaselineOnlyWithDrift | batch_pipeline/app.py:75-79 | The baseline is present iff a drift configuration is given. It is then the BaselineJob's `monitoring_output`. Without one, the baseline lookup cannot fail the build. |
| BatchApp.AsWrittenNeverBuilds | batch_pipeline/app.py:76-77 | As written, no pipeline is ever built. Once the model artifact is found, the read of the absent `drift_config` attribute raises. |
| BatchApp.StagingBeforeProd | batch_pipeline/app.py:140-160 | The staging pipeline is created before the prod one, and a staging failure stops the run. |
| UploadAssets.Basename | infra/upload_assets.py:59 | POSIX `os.path.basename`: the text after the last `/`. `JoinSplits` states it for a joined path. |
| UploadAssets.Dirname | infra/upload_assets.py:58 | POSIX `os.path.dirname`: the text up to the last `/`, without trailing slashes unless only slashes are left. `JoinSplits` states it for a joined path. |
| UploadAssets.ZipFilter | infra/upload_assets.py:49-67 | `zip_filter`. `FilterOfJoin`, `AncestorsNotInspected`, `DirectlyInCdkOutDropped` and `NonFilesDropped` state it. |
| UploadAssets.ZipName | infra/upload_assets.py:79 | `source_dir + ".zip"`. `ZipNameStrips` states it. |
| UploadAssets.StripTrailingSlashes | infra/upload_assets.py:58 | `rstrip("/")` gives a prefix with no trailing slash, and only slashes were removed. |
| UploadAssets.JoinSplits | infra/upload_assets.py:58-59 | For `root/name`, the directory part is `root` and the base name is `name`. |
| UploadAssets.PycOfJoin | infra/upload_assets.py:65 | A joined path ends in ".pyc" iff its file name does. |
| UploadAssets.FilterOfJoin | infra/upload_assets.py:58-67 | A file `root/name` is kept iff all of these hold: it is a regular file; it is not `.DS_Store` or `.pyc`; `root`'s last component is not `cdk.out`, not `__pycache__` and does not end in `.egg-info`. |
| UploadAssets.AncestorsNotInspected | infra/upload_assets.py:58 | Only the immediate directory is inspected. A file deeper under `cdk.out` or any other excluded directory is kept. |
| UploadAssets.DirectlyInCdkOutDropped | infra/upload_assets.py:63 | A file directly inside `cdk.out` is never kept. |
| UploadAssets.NonFilesDropped | infra/upload_assets.py:60 | A path that is not a regular file is never kept. |
| UploadAssets.ZipNameStrips | infra/upload_assets.py:79 | The zip name ends in ".zip", and dropping that suffix gives back the source directory. |
| Common.PySliceTo | batch_pipeline/infra/model_registry.py:112 | Python's `s[:m]`: the first `min(m, len)` elements for `m >= 0`, and all but the last `-m` otherwise. |
| Common.AfterLast | batch_pipeline/infra/model_registry.py:243 | `s.split(c)[-1]`: the suffix after the last `c`, which holds no `c`, and follows a `c` whenever it is shorter than `s`. |
| Common.RemoveAll | deployment_pipeline/infra/model_registry.py:216 | `str.replace(pattern, "")`, left to right and without overlaps. `RemoveAllAbsent`, `RemoveAllSkipsPrefix` and `RemoveAllStripsSuffix` state it. |
| Common.RemoveAllSkipsPrefix | deployment_pipeline/infra/model_registry.py:216 | For a pattern whose first character does not recur in it: the first occurrence after a pattern-free stretch is removed, the stretch is kept, and removal goes on with the rest. |
| Common.ListString | batch_pipeline/infra/model_registry.py:168-171 | Python's `str` of a list of versions, `[1, 2]`, as the error message embeds it: bracketed, with decimal items. |

## Left out

- **AWS calls:** I/O, logging, JSON parsing and printing are left out. Every
  AWS call is a stand-in, and file reads become a function from file name to
  decoded JSON. The botocore retry configuration is left out.
  EventBridge's at-least-once and out-of-order delivery, and concurrency
  between invocations, are not modelled.
- **Two copies of a core file:** both copies of the registry, the runner and
  the gate behave identically. Each is modelled once, and both are cited.
- **`ModelRegistry.LatestIsNewestPrefix`** is stated for listings that end
  without a client error. `ModelRegistry.LatestRaisesClientError` covers the
  other case.
- **`ModelRegistry`: the order of `set(model_package_versions)`.** Python's
  iteration order of this set is fixed here as first-occurrence order.
  `ModelRegistry.SelectedAbsorbs` shows the final result does not depend on
  it. Package versions are natural numbers.
- **`RegistryLineage`: response shapes.** Each response is reduced to the
  fields the code reads. A missing `GeneratedBy`, `TrainingJob` or
  `ProcessingJob`, and a missing key along `DriftCheckBaselines`,
  `ModelDataQuality`, `Constraints`, `S3Uri`, raise `KeyError`. Any other
  missing key (`ModelArtifacts`, `ProcessingOutputConfig`, `S3Output`, say)
  is not modelled.
- **`PipelineRunner.HandlerFollowsToken`** assumes `UserParameters` carries
  `PipelineName`. A missing key is modelled as a raised `KeyError`, but no
  lemma is stated for it. Malformed job events and non-JSON
  `UserParameters` are not modelled.
- **`PipelineGate`: exceptions in the handler.** The handler's re-raise of a
  `ClientError` from the transition call as a generic exception is modelled
  by its message only. Malformed events missing `detail` keys are not
  modelled.
- **`CleanTemplate.Template.RemovePolicy`: resource order.** The dict's
  insertion order is passed in as the `order` argument, a duplicate-free
  list of the keys. A `DependsOn` given as a single string rather than a
  list, and resources missing `Type`, are not modelled. The file read and
  write are left out.
- **`Config`: value types.** Keyword values are JSON values. Float defaults
  are kept as JSON numbers and never computed with. The type annotations
  are not enforced, as in Python.
- **`DeploymentApp` and `BatchApp`: how a configured version is printed.**
  A version Python equates with a registry version but writes differently
  (`2.0`, `True`) is looked up as that version. When it is missing, the
  error carries the registry's version (`[2]`, where Python prints
  `[2.0]`). A value no version equals is reported with the value itself;
  its Python `repr` is not modelled. A JSON number is an exact real here.
  Python's double rounding and the exponent form of large floats are not
  modelled.
- **`DeploymentApp` and `BatchApp`: in-place updates.** The apps' in-place
  updates of `deployment_config.variant_config` and of the batch
  configuration's version and ARN are modelled as record updates. The
  record is local to the call, so nothing else observes the change.
- **CDK constructs:** the stacks, `get_pipeline`, `upload_pipeline` and
  `app.synth()` are reduced to the values passed to them.
- **`UploadAssets`:** `os.walk`, the zip writing and the S3 upload in
  infra/upload_assets.py are left out. `isfile` is a parameter.

## Findings

| source | as written | input that shows it | evidently intended | confidence | as-written member | corrected member |
|---|---|---|---|---|---|---|
| deployment_pipeline/app.py:74-77 | `create_endpoint` calls `registry.get_pipeline_execution_arn` and `registry.get_processing_output`, which deployment_pipeline/infra/model_registry.py does not define (`AttributeError`) | any stage whose name check, configuration and package lookup succeed | use the lineage lookups that batch_pipeline/infra/model_registry.py:203-280 defines, with the `BaselineJob` step and the `monitoring_output` output (modelled here). An equally plausible fix is the deployment registry's own `get_data_check_baseline_uri` (deployment_pipeline/infra/model_registry.py:206-221). It returns the folder to which deployment_pipeline/infra/sagemaker_stack.py:102-105 appends `/constraints.json` and `/statistics.json`; `RegistryLineage.BaselineUriIsFolder` states that reading | not executed | DeploymentApp.AsWrittenNeverDeploys | DeploymentApp.BaselineOfChosenPackage |
| batch_pipeline/app.py:77 | `create_pipeline` reads `batch_config.drift_config`, an attribute `BatchConfig` (batch_pipeline/infra/batch_config.py:2-16) never sets (`AttributeError`) | any stage whose configuration, package lookup and model artifact lookup succeed | an optional drift configuration alongside the batch configuration, with the baseline looked up only when it is given | not executed | BatchApp.AsWrittenNeverBuilds | BatchApp.BaselineOnlyWithDrift |
