/** Workflow definitions, step evaluation and safety limits
    (src/orchestration/output_contract.rs, src/orchestration/workflow_engine.rs). */
module Workflow {
  import opened Prelude

  datatype StepType = AgentTask | AgentReview

  /** `max_retries + 1` must stay inside 32 bits, as the engine computes it. */
  type Retries = n: nat | n < U32_MAX

  datatype Step = Step(
    id: string,
    kind: StepType,
    next: Option<string>,
    on_approve: Option<string>,
    on_reject: Option<string>,
    max_retries: Option<Retries>)

  datatype WorkflowLimits = WorkflowLimits(max_total_iterations: Option<u32>, run_timeout_seconds: Option<nat>)

  datatype Flow = Flow(id: string, limits: Option<WorkflowLimits>, steps: seq<Step>)

  datatype OrchestrationLimits = OrchestrationLimits(
    max_total_iterations: Option<u32>,
    default_run_timeout_seconds: Option<nat>,
    default_step_timeout_seconds: Option<nat>,
    max_step_timeout_seconds: Option<nat>)

  datatype Orchestrator = Orchestrator(limits: Option<OrchestrationLimits>, workflows: seq<Flow>)

  datatype EngineError =
    | StepExecution
    | WorkflowEnvelope
    | InvalidReviewDecision
    | OutputContractValidation
    | TransitionValidation
    | StepTimeout
    | RunTimeout
    | MaxIterationsExceeded
    | RetryLimitExceeded(attempt: nat)
    | UnknownWorkflow
    | UnknownStep(id: string)
    | InvalidRunTransition
    | OtherError

  datatype Decision = Approve | Reject | Unrecognised

  /** What one provider call yields: outputs that satisfy the contract, with the
      review decision read from them, or an error of any kind. */
  datatype ProviderOutcome = Produced(decision: Decision) | Raised(error: EngineError)

  function FindFlow(flows: seq<Flow>, id: string): (r: Option<Flow>)
    ensures r.Some? ==> r.value in flows && r.value.id == id
  {
    if flows == [] then None
    else if flows[0].id == id then Some(flows[0])
    else FindFlow(flows[1..], id)
  }

  /** Position of the first step with the given id, or the number of steps. */
  function Position(steps: seq<Step>, id: string): (p: nat)
    ensures p <= |steps|
    ensures p < |steps| ==> steps[p].id == id
    ensures forall i :: 0 <= i < p ==> steps[i].id != id
  {
    if steps == [] || steps[0].id == id then 0 else 1 + Position(steps[1..], id)
  }

  function FindStep(steps: seq<Step>, id: string): (r: Option<Step>)
    ensures r.Some? ==> r.value in steps && r.value.id == id
  {
    var p := Position(steps, id);
    if p < |steps| then Some(steps[p]) else None
  }

  function NextInList(steps: seq<Step>, id: string): Option<string> {
    var p := Position(steps, id);
    if p + 1 < |steps| then Some(steps[p + 1].id) else None
  }

  function ValidateTarget(flow: Flow, target: Option<string>): Result<Option<string>, EngineError> {
    if target.Some? && FindStep(flow.steps, target.value).None? then Err(TransitionValidation) else Ok(target)
  }

  function EvaluateStep(flow: Flow, step: Step, outcome: ProviderOutcome): Result<Option<string>, EngineError> {
    match outcome
    case Raised(e) => Err(e)
    case Produced(decision) =>
      if step.kind == AgentReview then
        if decision == Unrecognised then Err(InvalidReviewDecision)
        else
          var target := if decision == Approve then step.on_approve else step.on_reject;
          if target.None? then Err(TransitionValidation) else ValidateTarget(flow, target)
      else
        ValidateTarget(flow, if step.next.Some? then step.next else NextInList(flow.steps, step.id))
  }

  predicate IsRetryable(e: EngineError) {
    e in {StepExecution, WorkflowEnvelope, InvalidReviewDecision, OutputContractValidation}
  }

  datatype SafetyLimits = SafetyLimits(
    max_total_iterations: u32,
    run_timeout_seconds: nat,
    step_timeout_seconds: nat,
    max_retries: Retries)

  const DEFAULT_LIMITS := SafetyLimits(12, 3600, 900, 2)

  function OrElse<T>(first: Option<T>, second: Option<T>): Option<T> {
    if first.Some? then first else second
  }

  function MaxTotal(orch: Orchestrator, flow: Flow): u32 {
    OrElse(if flow.limits.Some? then flow.limits.value.max_total_iterations else None,
           if orch.limits.Some? then orch.limits.value.max_total_iterations else None)
      .GetOr(DEFAULT_LIMITS.max_total_iterations)
  }

  function ResolveLimits(orch: Orchestrator, flow: Flow, step: Step): SafetyLimits {
    var baseStep :=
      (if orch.limits.Some? then orch.limits.value.default_step_timeout_seconds else None)
        .GetOr(DEFAULT_LIMITS.step_timeout_seconds);
    var stepTimeout :=
      if orch.limits.Some? && orch.limits.value.max_step_timeout_seconds.Some?
      then Min(baseStep, orch.limits.value.max_step_timeout_seconds.value)
      else baseStep;
    SafetyLimits(
      MaxTotal(orch, flow),
      OrElse(if flow.limits.Some? then flow.limits.value.run_timeout_seconds else None,
             if orch.limits.Some? then orch.limits.value.default_run_timeout_seconds else None)
        .GetOr(DEFAULT_LIMITS.run_timeout_seconds),
      stepTimeout,
      step.max_retries.GetOr(DEFAULT_LIMITS.max_retries))
  }
}
