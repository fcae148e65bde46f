/** Run and attempt records as the store keeps them (src/orchestration/run_store.rs). */
module RunStore {
  import opened Prelude
  import opened Workflow

  datatype RunState = Queued | Running | Waiting | Succeeded | Failed | Canceled {
    predicate IsTerminal() { Succeeded? || Failed? || Canceled? }

    predicate CanTransitionTo(next: RunState) {
      || (Queued? && (next.Running? || next.Failed? || next.Canceled?))
      || (Running? && (next.Waiting? || next.Succeeded? || next.Failed? || next.Canceled?))
      || (Waiting? && (next.Running? || next.Failed? || next.Canceled?))
    }
  }

  datatype Reason =
    | CallBegan
    | WorkflowCompleted
    | StepFinished(step: string, attempt: nat)
    | EngineStartFailed(error: EngineError)
    | CanceledByCommand

  datatype RunRecord = RunRecord(
    workflow_id: string,
    state: RunState,
    current_step_id: Option<string>,
    current_attempt: Option<nat>,
    started_at: int,
    updated_at: int,
    total_iterations: u32,
    terminal_reason: Option<Reason>)

  datatype AttemptState = AttemptSucceeded | AttemptFailedRetryable | AttemptFailed

  datatype AttemptRecord = AttemptRecord(
    state: AttemptState,
    next_step_id: Option<string>,
    error: Option<EngineError>,
    started_at: int,
    ended_at: int)

  type Attempts = map<(string, nat), AttemptRecord>

  /** The record `transition_state` writes when the transition is allowed. */
  function Transitioned(run: RunRecord, next: RunState, now: int, summary: Reason): RunRecord {
    run.(state := next, updated_at := now,
         terminal_reason := if next.IsTerminal() then Some(summary) else None)
  }

  /** The ten moves a run can make; a terminal run makes none. */
  lemma AllowedMoves(a: RunState, b: RunState)
    ensures a.CanTransitionTo(b) <==>
              (a, b) in {(Queued, Running), (Queued, Failed), (Queued, Canceled),
                         (Running, Waiting), (Running, Succeeded), (Running, Failed), (Running, Canceled),
                         (Waiting, Running), (Waiting, Failed), (Waiting, Canceled)}
    ensures a in {Succeeded, Failed, Canceled} ==> a.IsTerminal() && !a.CanTransitionTo(b)
    ensures a in {Queued, Running, Waiting} ==> !a.IsTerminal() && a.CanTransitionTo(Failed) && a.CanTransitionTo(Canceled)
  {
  }

  datatype Pointer = Pointer(step: string, attempt: nat)

  /** `resolve_next_step_pointer`: an attempt record without a next step reads as completion. */
  function ResolvePointer(attempts: Attempts, run: RunRecord, flow: Flow): Option<Pointer> {
    match run.current_step_id
    case None => if flow.steps == [] then None else Some(Pointer(flow.steps[0].id, 1))
    case Some(step) =>
      match run.current_attempt
      case None => Some(Pointer(step, 1))
      case Some(a) =>
        if (step, a) !in attempts then Some(Pointer(step, a))
        else if attempts[(step, a)].next_step_id.Some? then Some(Pointer(attempts[(step, a)].next_step_id.value, 1))
        else None
  }

  function EnforceSafety(run: RunRecord, limits: SafetyLimits, now: int, stepStartedAt: int, attempt: nat)
    : Option<EngineError>
  {
    if run.total_iterations >= limits.max_total_iterations then Some(MaxIterationsExceeded)
    else if now - run.started_at > limits.run_timeout_seconds then Some(RunTimeout)
    else if now - stepStartedAt > limits.step_timeout_seconds then Some(StepTimeout)
    else if attempt > limits.max_retries + 1 then Some(RetryLimitExceeded(attempt))
    else None
  }
}
