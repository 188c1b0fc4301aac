/** The gate between the CodePipeline build stage and the SageMaker pipeline
    (`update_cloudwatch_rule`, `update_pipeline_rules` and `lambda_handler` of
    lambda/build/lambda_pipeline_change.py and lambda/lambda_pipeline_change.py,
    which behave the same). While a SageMaker pipeline execution runs, the
    inbound transition of stage "Build" and the two EventBridge rules (drift and
    schedule) are disabled; any other status enables them again.

    The external state is a `Gate` object: whether the transition is enabled
    (and the reason given when it was disabled), which rules exist and which are
    enabled. Which calls fail, other than on a missing rule, is an oracle. */
module PipelineGate {
  import opened Common

  /** The environment of the Lambda function: the CodePipeline name and the two
      rule names. */
  datatype GateConfig = GateConfig(codePipelineName: string, driftRuleName: string, scheduleRuleName: string)

  const BuildStage := "Build"
  const NotFound := "ResourceNotFoundException"

  datatype GateCall =
    | DisableTransition(pipelineName: string, stageName: string, transitionType: string, reason: string)
    | EnableTransition(pipelineName: string, stageName: string, transitionType: string)
    | DisableRule(ruleName: string)
    | EnableRule(ruleName: string)

  /** The modelled state: the Build stage's inbound transition and the rules. */
  datatype GateState = GateState(
    transitionEnabled: bool,
    disabledReason: Option<string>,
    enabled: set<string>,
    existing: set<string>)

  /** Errors the services raise besides a missing rule: per rule name, and per
      transition call (keyed by whether it enables). */
  datatype Faults = Faults(ruleFault: string -> Option<ClientError>, transitionFault: bool -> Option<ClientError>)

  /** An exception: a botocore `ClientError`, or an `Exception(message)`. */
  datatype Raised = ClientRaised(error: ClientError) | Generic(message: string)

  /** A state reached, the calls made to reach it, and the exception that ended
      the calls, if any. */
  datatype Step = Step(state: GateState, calls: seq<GateCall>, raised: Option<Raised>)

  type Dict = map<string, string>

  /** The reply of `enable_rule`/`disable_rule`: a missing rule answers
      `ResourceNotFoundException`. */
  function RuleReply(st: GateState, faults: Faults, name: string): Option<ClientError>
  {
    if name !in st.existing then Some(ClientError(NotFound, "Rule " + name + " does not exist"))
    else faults.ruleFault(name)
  }

  /** `update_cloudwatch_rule`: a not-found reply is tolerated, any other client
      error becomes `Exception(message)`. */
  function SetRule(st: GateState, faults: Faults, name: string, enable: bool): Step
  {
    var call := if enable then EnableRule(name) else DisableRule(name);
    match RuleReply(st, faults, name)
    case None => Step(st.(enabled := if enable then st.enabled + {name} else st.enabled - {name}), [call], None)
    case Some(e) =>
      if e.code == NotFound then Step(st, [call], None)
      else Step(st, [call], Some(Generic(e.message)))
  }

  /** The `for` loop over rule names: stops at the first exception. */
  function SetRules(st: GateState, faults: Faults, names: seq<string>, enable: bool): Step
    decreases |names|, 0
  {
    if names == [] then Step(st, [], None)
    else Then(SetRule(st, faults, names[0], enable), faults, names[1..], enable)
  }

  /** Continues `done` with the rules `rest`, unless it ended in an exception. */
  function Then(done: Step, faults: Faults, rest: seq<string>, enable: bool): Step
    decreases |rest|, 1
  {
    if done.raised.Some? then done
    else
      var r := SetRules(done.state, faults, rest, enable);
      Step(r.state, done.calls + r.calls, r.raised)
  }

  function RuleNames(cfg: GateConfig): seq<string> { [cfg.driftRuleName, cfg.scheduleRuleName] }

  function DisableReason(executionArn: string): string
  {
    "Running SageMaker Pipeline Execution: " + executionArn
  }

  /** `update_pipeline_rules` for an execution status and ARN: the state and
      calls, and the result it returns unless it raised. */
  function UpdateRules(st: GateState, faults: Faults, cfg: GateConfig, status: string, executionArn: string): (Step, Dict)
  {
    var enable := status != "Executing";
    var call := if enable then EnableTransition(cfg.codePipelineName, BuildStage, "Inbound")
                else DisableTransition(cfg.codePipelineName, BuildStage, "Inbound", DisableReason(executionArn));
    var result := if enable then map["action" := "Stop", "status" := status] else map["action" := "Start"];
    match faults.transitionFault(enable)
    case Some(e) => (Step(st, [call], Some(ClientRaised(e))), result)
    case None =>
      var st1 := st.(transitionEnabled := enable, disabledReason := if enable then None else Some(DisableReason(executionArn)));
      (Then(Step(st1, [call], None), faults, RuleNames(cfg), enable), result)
  }

  /** The EventBridge event, with the keys `lambda_handler` reads. */
  datatype Event = Event(source: Option<string>, detailType: Option<string>, status: string, executionArn: string)

  datatype Response = Response(statusCode: int, body: Dict)

  const ExpectedSource := "aws.sagemaker"
  const ExpectedDetailType := "SageMaker Model Building Pipeline Execution Status Change"
  const WrongEventMessage := "Expect SageMaker Model Package State Change"

  predicate IsPipelineStatusChange(event: Event)
  {
    event.source == Some(ExpectedSource) && event.detailType == Some(ExpectedDetailType)
  }

  /** `lambda_handler`: every exception leaves it as `Exception(message)`. */
  function Handle(st: GateState, faults: Faults, cfg: GateConfig, event: Event): (Step, Result<Response, string>)
  {
    if !IsPipelineStatusChange(event) then (Step(st, [], Some(Generic(WrongEventMessage))), Failure(WrongEventMessage))
    else
      var (step, result) := UpdateRules(st, faults, cfg, event.status, event.executionArn);
      (step, match step.raised
             case None => Success(Response(200, result))
             case Some(ClientRaised(e)) => Failure(e.message)
             case Some(Generic(m)) => Failure(m))
  }

  // ---------------------------------------------------------------------------
  // Properties.

  /** Names outside the two rules keep their state, whatever fails. */
  lemma {:induction false} SetRulesFrame(st: GateState, faults: Faults, names: seq<string>, enable: bool)
    ensures var r := SetRules(st, faults, names, enable);
      && r.state.existing == st.existing
      && r.state.transitionEnabled == st.transitionEnabled && r.state.disabledReason == st.disabledReason
      && (forall n :: n !in names ==> (n in r.state.enabled <==> n in st.enabled))
      && |r.calls| <= |names|
    decreases |names|
  {
    if names != [] {
      var first := SetRule(st, faults, names[0], enable);
      if first.raised.None? {
        SetRulesFrame(first.state, faults, names[1..], enable);
        forall n | n in names[1..] ensures n in names {
          var k :| 0 <= k < |names[1..]| && names[1..][k] == n;
          assert names[k + 1] == n;
        }
      }
    }
  }

  lemma NamedExistingCons(names: seq<string>, existing: set<string>)
    requires names != []
    ensures (set n | n in names && n in existing)
         == (set n | n in names[1..] && n in existing) + (if names[0] in existing then {names[0]} else {})
  {
    assert names == [names[0]] + names[1..];
  }

  lemma RuleCallsCons(names: seq<string>, enable: bool, first: seq<GateCall>, rest: seq<GateCall>)
    requires names != []
    requires first == [if enable then EnableRule(names[0]) else DisableRule(names[0])]
    requires rest == seq(|names| - 1, i requires 0 <= i < |names| - 1 =>
                           if enable then EnableRule(names[1..][i]) else DisableRule(names[1..][i]))
    ensures first + rest == seq(|names|, i requires 0 <= i < |names| => if enable then EnableRule(names[i]) else DisableRule(names[i]))
  {
    var want := seq(|names|, i requires 0 <= i < |names| => if enable then EnableRule(names[i]) else DisableRule(names[i]));
    forall i | 0 <= i < |names| ensures (first + rest)[i] == want[i] {
      if i > 0 {
        assert (first + rest)[i] == rest[i - 1] && names[1..][i - 1] == names[i];
      }
    }
  }

  /** With no fault other than missing rules, the loop sets every existing named
      rule to `enable` and leaves missing ones alone; it calls every rule in
      order. */
  lemma {:induction false} SetRulesNoFault(st: GateState, faults: Faults, names: seq<string>, enable: bool)
    requires forall i :: 0 <= i < |names| ==> faults.ruleFault(names[i]).None?
    ensures var r := SetRules(st, faults, names, enable);
      && r.raised.None?
      && r.state == st.(enabled := if enable then st.enabled + (set n | n in names && n in st.existing)
                                   else st.enabled - (set n | n in names && n in st.existing))
      && r.calls == seq(|names|, i requires 0 <= i < |names| => if enable then EnableRule(names[i]) else DisableRule(names[i]))
    decreases |names|
  {
    if names != [] {
      var first := SetRule(st, faults, names[0], enable);
      assert forall i :: 0 <= i < |names[1..]| ==> faults.ruleFault(names[1..][i]).None? by {
        forall i | 0 <= i < |names[1..]| ensures faults.ruleFault(names[1..][i]).None? {
          assert names[1..][i] == names[i + 1];
        }
      }
      SetRulesNoFault(first.state, faults, names[1..], enable);
      var r := SetRules(first.state, faults, names[1..], enable);
      assert first.state.existing == st.existing;
      NamedExistingCons(names, st.existing);
      RuleCallsCons(names, enable, first.calls, r.calls);
    }
  }

  /** "Executing" disables the Build transition with a reason naming the
      execution, then the drift rule and the schedule rule, and answers
      `{action: Start}`; any other status enables all three and answers
      `{action: Stop, status}`. */
  lemma StatusDecides(st: GateState, faults: Faults, cfg: GateConfig, status: string, arn: string)
    requires faults.transitionFault(status != "Executing").None?
    requires faults.ruleFault(cfg.driftRuleName).None? && faults.ruleFault(cfg.scheduleRuleName).None?
    ensures var (step, result) := UpdateRules(st, faults, cfg, status, arn);
      var rules := {cfg.driftRuleName, cfg.scheduleRuleName} * st.existing;
      && step.raised.None?
      && (status == "Executing" ==>
            && step.calls == [DisableTransition(cfg.codePipelineName, "Build", "Inbound",
                                                "Running SageMaker Pipeline Execution: " + arn),
                              DisableRule(cfg.driftRuleName), DisableRule(cfg.scheduleRuleName)]
            && !step.state.transitionEnabled
            && step.state.disabledReason == Some("Running SageMaker Pipeline Execution: " + arn)
            && step.state.enabled == st.enabled - rules
            && result == map["action" := "Start"])
      && (status != "Executing" ==>
            && step.calls == [EnableTransition(cfg.codePipelineName, "Build", "Inbound"),
                              EnableRule(cfg.driftRuleName), EnableRule(cfg.scheduleRuleName)]
            && step.state.transitionEnabled && step.state.disabledReason == None
            && step.state.enabled == st.enabled + rules
            && result == map["action" := "Stop", "status" := status])
      && step.state.existing == st.existing
  {
    var names := RuleNames(cfg);
    assert forall i :: 0 <= i < |names| ==> faults.ruleFault(names[i]).None?;
    var enable := status != "Executing";
    var st1 := st.(transitionEnabled := enable, disabledReason := if enable then None else Some(DisableReason(arn)));
    SetRulesNoFault(st1, faults, names, enable);
    assert (set n | n in names && n in st1.existing) == {cfg.driftRuleName, cfg.scheduleRuleName} * st.existing;
  }

  /** A missing rule is skipped without error; any other error on a rule raises
      its provider message. */
  lemma RuleErrors(st: GateState, faults: Faults, name: string, enable: bool)
    ensures var r := SetRule(st, faults, name, enable);
      && (name !in st.existing ==> r.state == st && r.raised.None?)
      && (name in st.existing && faults.ruleFault(name).Some? && faults.ruleFault(name).value.code != NotFound ==>
            r.state == st && r.raised == Some(Generic(faults.ruleFault(name).value.message)))
      && (r.raised.Some? <==> name in st.existing && faults.ruleFault(name).Some? && faults.ruleFault(name).value.code != NotFound)
  {
  }

  /** A failure on the drift rule leaves the schedule rule untouched and
      uncalled. */
  lemma DriftErrorStops(st: GateState, faults: Faults, cfg: GateConfig, status: string, arn: string)
    requires faults.transitionFault(status != "Executing").None?
    requires cfg.driftRuleName in st.existing && cfg.driftRuleName != cfg.scheduleRuleName
    requires faults.ruleFault(cfg.driftRuleName).Some? && faults.ruleFault(cfg.driftRuleName).value.code != NotFound
    ensures var (step, _) := UpdateRules(st, faults, cfg, status, arn);
      && step.raised == Some(Generic(faults.ruleFault(cfg.driftRuleName).value.message))
      && |step.calls| == 2
      && EnableRule(cfg.scheduleRuleName) !in step.calls && DisableRule(cfg.scheduleRuleName) !in step.calls
      && step.state.enabled == st.enabled
  {
    var enable := status != "Executing";
    var st1 := st.(transitionEnabled := enable, disabledReason := if enable then None else Some(DisableReason(arn)));
    var first := SetRule(st1, faults, cfg.driftRuleName, enable);
    assert first.raised.Some? && first.state == st1;
    assert SetRules(st1, faults, RuleNames(cfg), enable) == first;
  }

  /** Nothing but the Build transition and the two named rules changes, whether
      or not a call fails. */
  lemma OnlyGateChanges(st: GateState, faults: Faults, cfg: GateConfig, event: Event)
    ensures var (step, _) := Handle(st, faults, cfg, event);
      && step.state.existing == st.existing
      && forall n :: n != cfg.driftRuleName && n != cfg.scheduleRuleName ==> (n in step.state.enabled <==> n in st.enabled)
  {
    if IsPipelineStatusChange(event) {
      var enable := event.status != "Executing";
      if faults.transitionFault(enable).None? {
        var st1 := st.(transitionEnabled := enable,
                       disabledReason := if enable then None else Some(DisableReason(event.executionArn)));
        SetRulesFrame(st1, faults, RuleNames(cfg), enable);
      }
    }
  }

  /** An event of the wrong source or detail type raises, and changes nothing. */
  lemma WrongEventRejected(st: GateState, faults: Faults, cfg: GateConfig, event: Event)
    ensures var (step, response) := Handle(st, faults, cfg, event);
      && (step.calls == [] <==> !IsPipelineStatusChange(event))
      && (!IsPipelineStatusChange(event) ==>
            step.state == st && response == Failure("Expect SageMaker Model Package State Change"))
  {
    if IsPipelineStatusChange(event) {
      var enable := event.status != "Executing";
      if faults.transitionFault(enable).None? {
        var st1 := st.(transitionEnabled := enable,
                       disabledReason := if enable then None else Some(DisableReason(event.executionArn)));
        var r := SetRules(st1, faults, RuleNames(cfg), enable);
        assert |UpdateRules(st, faults, cfg, event.status, event.executionArn).0.calls| == 1 + |r.calls|;
      }
    }
  }

  /** No service fault: every modelled call succeeds or hits a missing rule. */
  predicate NoFaults(faults: Faults, cfg: GateConfig)
  {
    && faults.transitionFault(true).None? && faults.transitionFault(false).None?
    && faults.ruleFault(cfg.driftRuleName).None? && faults.ruleFault(cfg.scheduleRuleName).None?
  }

  /** The state after two events is the state after the second alone: enabling
      and disabling set absolute values. */
  lemma LastEventWins(st: GateState, faults: Faults, cfg: GateConfig, e1: Event, e2: Event)
    requires NoFaults(faults, cfg)
    requires IsPipelineStatusChange(e1) && IsPipelineStatusChange(e2)
    ensures Handle(Handle(st, faults, cfg, e1).0.state, faults, cfg, e2).0.state == Handle(st, faults, cfg, e2).0.state
  {
    StatusDecides(st, faults, cfg, e1.status, e1.executionArn);
    var mid := UpdateRules(st, faults, cfg, e1.status, e1.executionArn).0.state;
    assert Handle(st, faults, cfg, e1).0.state == mid;
    StatusDecides(mid, faults, cfg, e2.status, e2.executionArn);
    StatusDecides(st, faults, cfg, e2.status, e2.executionArn);
    var a := UpdateRules(mid, faults, cfg, e2.status, e2.executionArn).0.state;
    var b := UpdateRules(st, faults, cfg, e2.status, e2.executionArn).0.state;
    assert Handle(mid, faults, cfg, e2).0.state == a;
    assert Handle(st, faults, cfg, e2).0.state == b;
    assert a.enabled == b.enabled;
  }

  /** Replaying an event changes nothing more. */
  lemma ReplayIdempotent(st: GateState, faults: Faults, cfg: GateConfig, e: Event)
    requires NoFaults(faults, cfg) && IsPipelineStatusChange(e)
    ensures var once := Handle(st, faults, cfg, e).0.state;
      Handle(once, faults, cfg, e).0.state == once
  {
    LastEventWins(st, faults, cfg, e, e);
  }

  // ---------------------------------------------------------------------------
  // The services as mutable state.

  class Gate {
    const cfg: GateConfig
    const faults: Faults
    var transitionEnabled: bool
    var disabledReason: Option<string>
    var enabled: set<string>
    var existing: set<string>
    /** Every call made to CodePipeline and EventBridge, in order. */
    var calls: seq<GateCall>

    function State(): GateState
      reads this
    {
      GateState(transitionEnabled, disabledReason, enabled, existing)
    }

    constructor (cfg: GateConfig, faults: Faults, initial: GateState)
      ensures this.cfg == cfg && this.faults == faults && State() == initial && calls == []
    {
      this.cfg := cfg;
      this.faults := faults;
      transitionEnabled := initial.transitionEnabled;
      disabledReason := initial.disabledReason;
      enabled := initial.enabled;
      existing := initial.existing;
      calls := [];
    }

    /** `update_cloudwatch_rule`. */
    method UpdateCloudwatchRule(ruleName: string, enable: bool) returns (raised: Option<Raised>)
      modifies this
      ensures var r := SetRule(old(State()), faults, ruleName, enable);
        State() == r.state && calls == old(calls) + r.calls && raised == r.raised
    {
      calls := calls + [if enable then EnableRule(ruleName) else DisableRule(ruleName)];
      var reply := RuleReply(State(), faults, ruleName);
      raised := None;
      match reply {
        case None =>
          if enable {
            enabled := enabled + {ruleName};
          } else {
            enabled := enabled - {ruleName};
          }
        case Some(e) =>
          if e.code != NotFound {
            raised := Some(Generic(e.message));
          }
      }
    }

    /** `update_pipeline_rules`. */
    method UpdatePipelineRules(status: string, executionArn: string) returns (raised: Option<Raised>, result: Dict)
      modifies this
      ensures var (r, expected) := UpdateRules(old(State()), faults, cfg, status, executionArn);
        State() == r.state && calls == old(calls) + r.calls && raised == r.raised && result == expected
    {
      var enable := status != "Executing";
      if enable {
        calls := calls + [EnableTransition(cfg.codePipelineName, BuildStage, "Inbound")];
        result := map["action" := "Stop", "status" := status];
      } else {
        calls := calls + [DisableTransition(cfg.codePipelineName, BuildStage, "Inbound", DisableReason(executionArn))];
        result := map["action" := "Start"];
      }
      raised := None;
      var fault := faults.transitionFault(enable);
      if fault.Some? {
        raised := Some(ClientRaised(fault.value));
        return;
      }
      transitionEnabled := enable;
      disabledReason := if enable then None else Some(DisableReason(executionArn));
      raised := UpdateCloudwatchRules(RuleNames(cfg), enable);
    }

    /** The `for` loop over the rule names, which stops at the first exception. */
    method UpdateCloudwatchRules(names: seq<string>, enable: bool) returns (raised: Option<Raised>)
      modifies this
      ensures var r := SetRules(old(State()), faults, names, enable);
        State() == r.state && calls == old(calls) + r.calls && raised == r.raised
    {
      raised := None;
      ghost var made: seq<GateCall> := [];
      var i := 0;
      while i < |names| && raised.None?
        invariant 0 <= i <= |names|
        invariant calls == old(calls) + made
        invariant Then(Step(State(), made, raised), faults, names[i..], enable)
               == Then(Step(old(State()), [], None), faults, names, enable)
        decreases |names| - i
      {
        ghost var before := Step(State(), made, None);
        raised := UpdateCloudwatchRule(names[i], enable);
        ThenStep(before, faults, names[i..], enable);
        made := made + SetRule(before.state, faults, names[i], enable).calls;
        assert names[i..][1..] == names[i + 1..];
        i := i + 1;
      }
      ghost var r := SetRules(old(State()), faults, names, enable);
      assert Then(Step(old(State()), [], None), faults, names, enable) == Step(r.state, [] + r.calls, r.raised);
      assert [] + r.calls == r.calls;
      if raised.None? {
        assert names[i..] == [];
        assert made + [] == made;
      }
    }

    /** `lambda_handler`. */
    method LambdaHandler(event: Event) returns (response: Result<Response, string>)
      modifies this
      ensures var (r, expected) := Handle(old(State()), faults, cfg, event);
        State() == r.state && calls == old(calls) + r.calls && response == expected
    {
      if !IsPipelineStatusChange(event) {
        return Failure(WrongEventMessage);
      }
      var raised, result := UpdatePipelineRules(event.status, event.executionArn);
      match raised {
        case None => response := Success(Response(200, result));
        case Some(ClientRaised(e)) => response := Failure(e.message);
        case Some(Generic(m)) => response := Failure(m);
      }
    }
  }

  /** One turn of the loop: continuing with the first of `rest` and then the
      others is continuing with all of them. */
  lemma ThenStep(done: Step, faults: Faults, rest: seq<string>, enable: bool)
    requires done.raised.None? && rest != []
    ensures var first := SetRule(done.state, faults, rest[0], enable);
      Then(Step(first.state, done.calls + first.calls, first.raised), faults, rest[1..], enable)
        == Then(done, faults, rest, enable)
  {
    var first := SetRule(done.state, faults, rest[0], enable);
    assert SetRules(done.state, faults, rest, enable) == Then(first, faults, rest[1..], enable);
    if first.raised.None? {
      var r := SetRules(first.state, faults, rest[1..], enable);
      assert done.calls + first.calls + r.calls == done.calls + (first.calls + r.calls);
    }
  }
}
