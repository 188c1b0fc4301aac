/** The configuration records of deployment_pipeline/infra/deployment_config.py:
    `VariantConfig`, `AutoScalingConfig`, `ScheduleConfig` and `DeploymentConfig`
    (whose instance settings are those of `InstanceConfig`). Each is built from
    keyword arguments that come from a stage's JSON file, so values are JSON
    values, and building one is Python's binding of keyword arguments to
    parameters with defaults. */
module Config {
  import opened Common

  /** A value decoded by `json.load`. */
  datatype Json =
    | JNull
    | JBool(b: bool)
    | JInt(i: int)
    | JReal(r: real)
    | JString(s: string)
    | JList(items: seq<Json>)
    | JDict(fields: map<string, Json>)

  /** A keyword parameter of a constructor, and whether it has no default. */
  datatype Param = Param(name: string, required: bool)

  /** The `TypeError`s of a call with `**kwargs`: keywords the constructor does
      not take (reported first), or required parameters left unbound. */
  datatype CallError = UnexpectedKeywords(unexpected: set<string>) | MissingArguments(missing: seq<string>)

  /** `name` is one of the parameters. */
  predicate IsParam(params: seq<Param>, name: string)
    decreases |params|
  {
    params != [] && (params[0].name == name || IsParam(params[1..], name))
  }

  lemma {:induction false} IsParamAt(params: seq<Param>, i: nat, name: string)
    requires i < |params| && params[i].name == name
    ensures IsParam(params, name)
    decreases i
  {
    if i > 0 {
      IsParamAt(params[1..], i - 1, name);
    }
  }

  /** The keyword arguments that name no parameter. */
  function Unexpected(params: seq<Param>, kwargs: map<string, Json>): set<string>
  {
    set k | k in kwargs && !IsParam(params, k)
  }

  /** The required parameters that `kwargs` leaves unbound, in declaration order. */
  function Missing(params: seq<Param>, kwargs: map<string, Json>): (r: seq<string>)
    ensures r == [] <==> forall i :: 0 <= i < |params| && params[i].required ==> params[i].name in kwargs
    decreases |params|
  {
    if params == [] then []
    else
      var rest := Missing(params[1..], kwargs);
      assert forall i :: 1 <= i < |params| ==> params[i] == params[1..][i - 1];
      if params[0].required && params[0].name !in kwargs then [params[0].name] + rest else rest
  }

  /** Whether Python accepts the call `f(**kwargs)` for `f`'s keyword
      parameters, and the `TypeError` it raises otherwise. */
  function CallCheck(params: seq<Param>, kwargs: map<string, Json>): (r: Option<CallError>)
    ensures r.None? <==>
      (forall k :: k in kwargs ==> IsParam(params, k))
      && forall i :: 0 <= i < |params| && params[i].required ==> params[i].name in kwargs
    ensures r == Some(UnexpectedKeywords(Unexpected(params, kwargs))) <==> exists k :: k in kwargs && !IsParam(params, k)
  {
    var unexpected := Unexpected(params, kwargs);
    assert unexpected == {} <==> forall k :: k in kwargs ==> IsParam(params, k) by {
      if unexpected == {} {
        forall k | k in kwargs ensures IsParam(params, k) {
          assert k !in unexpected;
        }
      }
    }
    if unexpected != {} then Some(UnexpectedKeywords(unexpected))
    else
      var missing := Missing(params, kwargs);
      if missing != [] then Some(MissingArguments(missing)) else None
  }

  /** A parameter's value: the keyword argument if given, else the default. */
  function Arg(kwargs: map<string, Json>, name: string, default: Json): Json
  {
    if name in kwargs then kwargs[name] else default
  }

  /** Python's `v == n` between a JSON value and an integer: numbers compare
      by value and `True`, `False` equal 1 and 0; any other value is unequal. */
  predicate PyEquals(v: Json, n: int)
  {
    match v
    case JInt(i) => i == n
    case JBool(b) => (if b then 1 else 0) == n
    case JReal(x) => x == n as real
    case _ => false
  }

  /** The registry version a configured value stands for: the natural number
      it equals in Python, which is also the one it hashes with in a set.
      Registry versions are natural numbers, so a value that equals none (a
      negative number, a fraction, a string, `None`) gives `None`. */
  function RegistryVersion(v: Json): (r: Option<nat>)
    ensures forall n: nat :: PyEquals(v, n) <==> r == Some(n)
  {
    match v
    case JInt(i) => if i >= 0 then Some(i) else None
    case JBool(b) => Some(if b then 1 else 0)
    case JReal(x) => if x >= 0.0 && x.Floor as real == x then Some(x.Floor) else None
    case _ => None
  }

  /** Whether `set()` accepts the value: JSON lists and objects are unhashable. */
  predicate Hashable(v: Json) { !v.JList? && !v.JDict? }

  /** Python's `str` of a value that stands for a registry version: `2`,
      `True`, `2.0`. */
  function VersionText(v: Json): string
    requires RegistryVersion(v).Some?
  {
    match v
    case JInt(i) => DecimalString(i)
    case JBool(b) => if b then "True" else "False"
    case JReal(x) => DecimalString(x.Floor) + ".0"
  }

  const DefaultInstanceCount := JInt(1)
  const DefaultInstanceType := JString("ml.t2.medium")

  datatype VariantConfig = VariantConfig(
    modelPackageVersion: Json,
    initialVariantWeight: Json,
    variantName: Json,
    instanceCount: Json,
    instanceType: Json,
    modelPackageArn: Json)

  const VariantParams := [
    Param("model_package_version", true), Param("initial_variant_weight", false), Param("variant_name", false),
    Param("instance_count", false), Param("instance_type", false), Param("model_package_arn", false)]

  /** `VariantConfig(**kwargs)`. */
  function MakeVariantConfig(kwargs: map<string, Json>): Result<VariantConfig, CallError>
  {
    match CallCheck(VariantParams, kwargs)
    case Some(e) => Failure(e)
    case None =>
      assert VariantParams[0].required;
      Success(VariantConfig(
        kwargs["model_package_version"],
        Arg(kwargs, "initial_variant_weight", JReal(1.0)),
        Arg(kwargs, "variant_name", JNull),
        Arg(kwargs, "instance_count", DefaultInstanceCount),
        Arg(kwargs, "instance_type", DefaultInstanceType),
        Arg(kwargs, "model_package_arn", JNull)))
  }

  datatype AutoScalingConfig = AutoScalingConfig(
    minCapacity: Json,
    maxCapacity: Json,
    targetValue: Json,
    scaleInCooldown: Json,
    scaleOutCooldown: Json)

  const AutoScalingParams := [
    Param("min_capacity", false), Param("max_capacity", false), Param("target_value", false),
    Param("scale_in_cooldown", false), Param("scale_out_cooldown", false)]

  /** `AutoScalingConfig(**kwargs)`. */
  function MakeAutoScalingConfig(kwargs: map<string, Json>): Result<AutoScalingConfig, CallError>
  {
    match CallCheck(AutoScalingParams, kwargs)
    case Some(e) => Failure(e)
    case None =>
      Success(AutoScalingConfig(
        Arg(kwargs, "min_capacity", JInt(1)),
        Arg(kwargs, "max_capacity", JInt(1)),
        Arg(kwargs, "target_value", JInt(750)),
        Arg(kwargs, "scale_in_cooldown", JInt(60)),
        Arg(kwargs, "scale_out_cooldown", JInt(60))))
  }

  datatype ScheduleConfig = ScheduleConfig(
    scheduleExpression: Json,
    metricName: Json,
    metricThreshold: Json,
    comparisonOperator: Json,
    period: Json,
    evaluationPeriods: Json,
    datapointsToAlarm: Json,
    statistic: Json,
    dataCaptureSamplingPercentage: Json)

  const ScheduleParams := [
    Param("schedule_expression", true), Param("metric_name", true), Param("metric_threshold", true),
    Param("comparison_operator", false), Param("period", false), Param("evaluation_periods", false),
    Param("datapoints_to_alarm", false), Param("statistic", false), Param("data_capture_sampling_percentage", false)]

  /** `ScheduleConfig(**kwargs)`. */
  function MakeScheduleConfig(kwargs: map<string, Json>): Result<ScheduleConfig, CallError>
  {
    match CallCheck(ScheduleParams, kwargs)
    case Some(e) => Failure(e)
    case None =>
      assert ScheduleParams[0].required && ScheduleParams[1].required && ScheduleParams[2].required;
      Success(ScheduleConfig(
        kwargs["schedule_expression"],
        kwargs["metric_name"],
        kwargs["metric_threshold"],
        Arg(kwargs, "comparison_operator", JString("GreaterThanThreshold")),
        Arg(kwargs, "period", JInt(60)),
        Arg(kwargs, "evaluation_periods", JInt(1)),
        Arg(kwargs, "datapoints_to_alarm", JInt(1)),
        Arg(kwargs, "statistic", JString("Average")),
        Arg(kwargs, "data_capture_sampling_percentage", JInt(100))))
  }

  datatype DeploymentConfig = DeploymentConfig(
    stageName: Json,
    variantConfig: Option<VariantConfig>,
    instanceCount: Json,
    instanceType: Json,
    autoScaling: Option<AutoScalingConfig>,
    scheduleConfig: Option<ScheduleConfig>)

  const DeploymentParams := [
    Param("stage_name", true), Param("variant_config", false), Param("instance_count", false),
    Param("instance_type", false), Param("auto_scaling", false), Param("schedule_config", false)]

  /** The keyword arguments of the variant: the deployment's instance settings,
      overridden by the keys of the variant dict. */
  function VariantArguments(instanceCount: Json, instanceType: Json, variant: map<string, Json>): map<string, Json>
  {
    map["instance_count" := instanceCount, "instance_type" := instanceType] + variant
  }

  /** The variant record, built iff the argument is a dict. */
  function NestedVariant(value: Json, instanceCount: Json, instanceType: Json): (r: Result<Option<VariantConfig>, CallError>)
    ensures r.Success? ==> (r.value.Some? <==> value.JDict?)
  {
    if !value.JDict? then Success(None)
    else
      match MakeVariantConfig(VariantArguments(instanceCount, instanceType, value.fields))
      case Failure(e) => Failure(e)
      case Success(c) => Success(Some(c))
  }

  /** The auto scaling record, built iff the argument is a dict. */
  function NestedAutoScaling(value: Json): (r: Result<Option<AutoScalingConfig>, CallError>)
    ensures r.Success? ==> (r.value.Some? <==> value.JDict?)
  {
    if !value.JDict? then Success(None)
    else
      match MakeAutoScalingConfig(value.fields)
      case Failure(e) => Failure(e)
      case Success(c) => Success(Some(c))
  }

  /** The schedule record, built iff the argument is a dict. */
  function NestedSchedule(value: Json): (r: Result<Option<ScheduleConfig>, CallError>)
    ensures r.Success? ==> (r.value.Some? <==> value.JDict?)
  {
    if !value.JDict? then Success(None)
    else
      match MakeScheduleConfig(value.fields)
      case Failure(e) => Failure(e)
      case Success(c) => Success(Some(c))
  }

  /** `DeploymentConfig(**j)`. The nested records are built in the order
      variant, auto scaling, schedule; the first error raises. */
  function MakeDeploymentConfig(kwargs: map<string, Json>): Result<DeploymentConfig, CallError>
  {
    match CallCheck(DeploymentParams, kwargs)
    case Some(e) => Failure(e)
    case None =>
      assert DeploymentParams[0].required;
      var instanceCount := Arg(kwargs, "instance_count", DefaultInstanceCount);
      var instanceType := Arg(kwargs, "instance_type", DefaultInstanceType);
      var variant := NestedVariant(Arg(kwargs, "variant_config", JNull), instanceCount, instanceType);
      var scaling := NestedAutoScaling(Arg(kwargs, "auto_scaling", JNull));
      var schedule := NestedSchedule(Arg(kwargs, "schedule_config", JNull));
      if variant.Failure? then Failure(variant.error)
      else if scaling.Failure? then Failure(scaling.error)
      else if schedule.Failure? then Failure(schedule.error)
      else Success(DeploymentConfig(kwargs["stage_name"], variant.value, instanceCount, instanceType,
                                    scaling.value, schedule.value))
  }

  // ---------------------------------------------------------------------------
  // Properties.

  /** A variant needs `model_package_version`; every other field has its
      default: weight 1.0, no name, no ARN, one `ml.t2.medium` instance. */
  lemma VariantDefaults(version: Json)
    ensures MakeVariantConfig(map[]) == Failure(MissingArguments(["model_package_version"]))
    ensures MakeVariantConfig(map["model_package_version" := version])
         == Success(VariantConfig(version, JReal(1.0), JNull, JInt(1), JString("ml.t2.medium"), JNull))
  {
    assert Missing(VariantParams, map[]) == ["model_package_version"] by {
      assert VariantParams[1..][1..][1..][1..][1..][1..] == [];
    }
    assert IsParam(VariantParams, "model_package_version");
  }

  /** Auto scaling defaults: capacity 1 to 1, target 750, cooldowns of 60. */
  lemma AutoScalingDefaults()
    ensures MakeAutoScalingConfig(map[]) == Success(AutoScalingConfig(JInt(1), JInt(1), JInt(750), JInt(60), JInt(60)))
  {
  }

  /** Schedule defaults: `GreaterThanThreshold`, period 60, one evaluation
      period, one datapoint, `Average`, sampling 100. */
  lemma ScheduleDefaults(expression: Json, metric: Json, threshold: Json)
    ensures var kwargs := map["schedule_expression" := expression, "metric_name" := metric, "metric_threshold" := threshold];
      MakeScheduleConfig(kwargs) == Success(ScheduleConfig(expression, metric, threshold, JString("GreaterThanThreshold"),
                                                          JInt(60), JInt(1), JInt(1), JString("Average"), JInt(100)))
  {
    ScheduleAccepts(expression, metric, threshold);
  }

  lemma ScheduleAccepts(expression: Json, metric: Json, threshold: Json)
    ensures var kwargs := map["schedule_expression" := expression, "metric_name" := metric, "metric_threshold" := threshold];
      CallCheck(ScheduleParams, kwargs) == None
  {
    var kwargs := map["schedule_expression" := expression, "metric_name" := metric, "metric_threshold" := threshold];
    IsParamAt(ScheduleParams, 0, "schedule_expression");
    IsParamAt(ScheduleParams, 1, "metric_name");
    IsParamAt(ScheduleParams, 2, "metric_threshold");
    assert kwargs.Keys == {"schedule_expression", "metric_name", "metric_threshold"};
    forall i | 0 <= i < |ScheduleParams| && ScheduleParams[i].required ensures ScheduleParams[i].name in kwargs {
      assert i < 3;
    }
  }

  /** `VariantConfig(**kwargs)` binds iff `model_package_version` is given and
      every keyword is a parameter; each other field is then the given value
      when its key is present and its default otherwise. */
  lemma VariantFields(kwargs: map<string, Json>)
    ensures var r := MakeVariantConfig(kwargs);
      && (r.Success? <==> "model_package_version" in kwargs && forall k :: k in kwargs ==> IsParam(VariantParams, k))
      && (r.Success? ==>
            && r.value.modelPackageVersion == kwargs["model_package_version"]
            && r.value.initialVariantWeight == (if "initial_variant_weight" in kwargs then kwargs["initial_variant_weight"] else JReal(1.0))
            && r.value.variantName == (if "variant_name" in kwargs then kwargs["variant_name"] else JNull)
            && r.value.instanceCount == (if "instance_count" in kwargs then kwargs["instance_count"] else JInt(1))
            && r.value.instanceType == (if "instance_type" in kwargs then kwargs["instance_type"] else JString("ml.t2.medium"))
            && r.value.modelPackageArn == (if "model_package_arn" in kwargs then kwargs["model_package_arn"] else JNull))
  {
  }

  /** `AutoScalingConfig(**kwargs)` binds iff every keyword is a parameter;
      each field is then the given value or its default. */
  lemma AutoScalingFields(kwargs: map<string, Json>)
    ensures var r := MakeAutoScalingConfig(kwargs);
      && (r.Success? <==> forall k :: k in kwargs ==> IsParam(AutoScalingParams, k))
      && (r.Success? ==>
            && r.value.minCapacity == (if "min_capacity" in kwargs then kwargs["min_capacity"] else JInt(1))
            && r.value.maxCapacity == (if "max_capacity" in kwargs then kwargs["max_capacity"] else JInt(1))
            && r.value.targetValue == (if "target_value" in kwargs then kwargs["target_value"] else JInt(750))
            && r.value.scaleInCooldown == (if "scale_in_cooldown" in kwargs then kwargs["scale_in_cooldown"] else JInt(60))
            && r.value.scaleOutCooldown == (if "scale_out_cooldown" in kwargs then kwargs["scale_out_cooldown"] else JInt(60)))
  {
  }

  /** `ScheduleConfig(**kwargs)` binds iff the expression, metric and threshold
      are given and every keyword is a parameter; each other field is then the
      given value or its default. */
  lemma ScheduleFields(kwargs: map<string, Json>)
    ensures var r := MakeScheduleConfig(kwargs);
      && (r.Success? <==>
            && "schedule_expression" in kwargs && "metric_name" in kwargs && "metric_threshold" in kwargs
            && forall k :: k in kwargs ==> IsParam(ScheduleParams, k))
      && (r.Success? ==>
            && r.value.scheduleExpression == kwargs["schedule_expression"]
            && r.value.metricName == kwargs["metric_name"]
            && r.value.metricThreshold == kwargs["metric_threshold"]
            && r.value.comparisonOperator == (if "comparison_operator" in kwargs then kwargs["comparison_operator"] else JString("GreaterThanThreshold"))
            && r.value.period == (if "period" in kwargs then kwargs["period"] else JInt(60))
            && r.value.evaluationPeriods == (if "evaluation_periods" in kwargs then kwargs["evaluation_periods"] else JInt(1))
            && r.value.datapointsToAlarm == (if "datapoints_to_alarm" in kwargs then kwargs["datapoints_to_alarm"] else JInt(1))
            && r.value.statistic == (if "statistic" in kwargs then kwargs["statistic"] else JString("Average"))
            && r.value.dataCaptureSamplingPercentage ==
                 (if "data_capture_sampling_percentage" in kwargs then kwargs["data_capture_sampling_percentage"] else JInt(100)))
  {
  }

  /** A deployment given only its stage: one `ml.t2.medium` instance and no
      variant, auto scaling or schedule. */
  lemma DeploymentDefaults(stage: Json)
    ensures MakeDeploymentConfig(map["stage_name" := stage])
         == Success(DeploymentConfig(stage, None, JInt(1), JString("ml.t2.medium"), None, None))
  {
  }

  /** The variant, auto scaling and schedule records exist iff their argument
      was a dict. */
  lemma NestedIffDict(kwargs: map<string, Json>)
    requires MakeDeploymentConfig(kwargs).Success?
    ensures var c := MakeDeploymentConfig(kwargs).value;
      && (c.variantConfig.Some? <==> "variant_config" in kwargs && kwargs["variant_config"].JDict?)
      && (c.autoScaling.Some? <==> "auto_scaling" in kwargs && kwargs["auto_scaling"].JDict?)
      && (c.scheduleConfig.Some? <==> "schedule_config" in kwargs && kwargs["schedule_config"].JDict?)
  {
  }

  /** The variant's instance count and type are the deployment's unless the
      variant dict names them. */
  lemma VariantInheritsInstance(kwargs: map<string, Json>)
    requires MakeDeploymentConfig(kwargs).Success?
    requires MakeDeploymentConfig(kwargs).value.variantConfig.Some?
    ensures var c := MakeDeploymentConfig(kwargs).value;
      var variant := kwargs["variant_config"].fields;
      && c.variantConfig.value.instanceCount == (if "instance_count" in variant then variant["instance_count"] else c.instanceCount)
      && c.variantConfig.value.instanceType == (if "instance_type" in variant then variant["instance_type"] else c.instanceType)
  {
    var c := MakeDeploymentConfig(kwargs).value;
    DeploymentParts(kwargs);
    VariantInstance(c.instanceCount, c.instanceType, Arg(kwargs, "variant_config", JNull).fields);
  }

  /** How a built deployment record is made of its arguments. */
  lemma DeploymentParts(kwargs: map<string, Json>)
    requires MakeDeploymentConfig(kwargs).Success?
    ensures var c := MakeDeploymentConfig(kwargs).value;
      && c.instanceCount == Arg(kwargs, "instance_count", DefaultInstanceCount)
      && c.instanceType == Arg(kwargs, "instance_type", DefaultInstanceType)
      && NestedVariant(Arg(kwargs, "variant_config", JNull), c.instanceCount, c.instanceType) == Success(c.variantConfig)
      && NestedAutoScaling(Arg(kwargs, "auto_scaling", JNull)) == Success(c.autoScaling)
      && NestedSchedule(Arg(kwargs, "schedule_config", JNull)) == Success(c.scheduleConfig)
  {
  }

  lemma VariantInstance(instanceCount: Json, instanceType: Json, variant: map<string, Json>)
    requires MakeVariantConfig(VariantArguments(instanceCount, instanceType, variant)).Success?
    ensures var c := MakeVariantConfig(VariantArguments(instanceCount, instanceType, variant)).value;
      && c.instanceCount == (if "instance_count" in variant then variant["instance_count"] else instanceCount)
      && c.instanceType == (if "instance_type" in variant then variant["instance_type"] else instanceType)
  {
  }
}
