/** The workflow engine as a state machine: one step for each store operation of
    src/orchestration/workflow_engine.rs and src/orchestration/run_store.rs, so that a
    cancel command or a crash can fall between any two of them. */
module EngineMachine {
  import opened Prelude
  import opened Workflow
  import opened RunStore

  datatype Call = Start | Resume

  /** One execution of a step attempt, from its start to its recorded result. */
  datatype Visit = Visit(flow: Flow, step: Step, attempt: nat, started: int, outcome: ProviderOutcome, ended: int)

  /** Where the engine stands between two store operations. */
  datatype Pc =
    | Idle                                                       // no call in progress
    | Loaded(call: Call)                                         // run loaded by start or resume
    | LoopHead                                                   // top of run_until_non_running
    | Marking(flow: Flow, step: Step, attempt: nat)              // attempt chosen, start not stored
    | Guarding(flow: Flow, step: Step, attempt: nat, started: int) // start stored, limits not checked
    | Recording(v: Visit)                                        // executed, record not stored
    | Counting(v: Visit)                                         // record stored, run not yet reloaded for counting
    | CountWriting(v: Visit, loaded: RunRecord)                  // run loaded, counted copy not stored
    | Reloading(v: Visit)                                        // counted, engine copy stale
    | Deciding(v: Visit)                                         // engine copy fresh, outcome not acted on
    | Settling                                                   // execute_next returned normally
    | Failing(error: EngineError)                                // execute_next returned an error

  /** A recorded attempt. `log` below keeps them in the order they were stored. */
  datatype Exec = Exec(step: string, attempt: nat, outcome: ProviderOutcome)

  /** How the last call of start or resume ended. */
  datatype CallResult = Returned | StepFailed(error: EngineError) | NoProgress | MaxCyclesExceeded

  datatype Machine = Machine(
    stored: RunRecord,
    attempts: Attempts,
    mem: RunRecord,
    pc: Pc,
    cycles: nat,
    before: nat,
    executed: nat,
    log: seq<Exec>,
    result: CallResult)

  /** What the outside world supplies to one step: a clock reading and a provider outcome. */
  datatype Input = Input(now: int, outcome: ProviderOutcome)

  const MAX_CYCLES: nat := 10_000

  function VisitResult(v: Visit): Result<Option<string>, EngineError> {
    EvaluateStep(v.flow, v.step, v.outcome)
  }

  function CanRetry(orch: Orchestrator, flow: Flow, step: Step, attempt: nat, outcome: ProviderOutcome): bool {
    var r := EvaluateStep(flow, step, outcome);
    r.Err? && IsRetryable(r.error) && attempt <= ResolveLimits(orch, flow, step).max_retries
  }

  function RecordOf(orch: Orchestrator, v: Visit): AttemptRecord {
    match VisitResult(v)
    case Ok(next) => AttemptRecord(AttemptSucceeded, next, None, v.started, v.ended)
    case Err(e) =>
      AttemptRecord(if CanRetry(orch, v.flow, v.step, v.attempt, v.outcome) then AttemptFailedRetryable else AttemptFailed,
                    None, Some(e), v.started, v.ended)
  }

  function Counted(loaded: RunRecord, v: Visit): RunRecord {
    loaded.(total_iterations := SaturatingSucc(loaded.total_iterations), updated_at := v.ended)
  }

  // ----- the engine's own steps ---------------------------------------------------------

  function BeginCall(m: Machine, call: Call): Machine
    requires m.pc.Idle?
  {
    m.(mem := m.stored, pc := Loaded(call))
  }

  function StepLoaded(m: Machine, call: Call, now: int): Machine {
    if call == Resume && m.mem.state.IsTerminal() then m.(pc := Idle, result := Returned)
    else if m.mem.state.Queued? || (call == Resume && m.mem.state.Waiting?) then
      var run := Transitioned(m.mem, Running, now, CallBegan);
      m.(mem := run, stored := run, pc := LoopHead, cycles := 0)
    else m.(pc := LoopHead, cycles := 0)
  }

  function StepLoopHead(orch: Orchestrator, m: Machine, now: int): Machine {
    if !m.mem.state.Running? then m.(pc := Idle, result := Returned)
    else if m.cycles >= MAX_CYCLES then m.(pc := Idle, result := MaxCyclesExceeded)
    else
      var m1 := m.(before := m.mem.total_iterations);
      match FindFlow(orch.workflows, m.mem.workflow_id)
      case None => m1.(pc := Failing(UnknownWorkflow))
      case Some(flow) =>
        match ResolvePointer(m.attempts, m.mem, flow)
        case None =>
          var run := Transitioned(m.mem.(current_step_id := None, current_attempt := None), Succeeded, now, WorkflowCompleted);
          m1.(mem := run, stored := run, pc := Settling)
        case Some(p) =>
          match FindStep(flow.steps, p.step)
          case None => m1.(pc := Failing(UnknownStep(p.step)))
          case Some(step) => m1.(pc := Marking(flow, step, p.attempt))
  }

  function StepMarking(m: Machine, flow: Flow, step: Step, attempt: nat, now: int): Machine {
    var run := m.mem.(current_step_id := Some(step.id), current_attempt := Some(attempt), updated_at := now);
    m.(mem := run, stored := run, pc := Guarding(flow, step, attempt, now))
  }

  function StepGuarding(orch: Orchestrator, m: Machine, flow: Flow, step: Step, attempt: nat, started: int, i: Input): Machine {
    var refusal := EnforceSafety(m.mem, ResolveLimits(orch, flow, step), started, started, attempt);
    if refusal.Some? then m.(pc := Failing(refusal.value))
    else m.(executed := m.executed + 1, pc := Recording(Visit(flow, step, attempt, started, i.outcome, i.now)))
  }

  function StepRecording(orch: Orchestrator, m: Machine, v: Visit): Machine {
    m.(attempts := m.attempts[(v.step.id, v.attempt) := RecordOf(orch, v)],
       log := m.log + [Exec(v.step.id, v.attempt, v.outcome)],
       pc := Counting(v))
  }

  function StepDeciding(orch: Orchestrator, m: Machine, v: Visit): Machine {
    var refusal := EnforceSafety(m.mem, ResolveLimits(orch, v.flow, v.step), v.ended, v.started, v.attempt);
    if refusal.Some? then m.(pc := Failing(refusal.value))
    else
      match VisitResult(v)
      case Ok(Some(next)) =>
        var run := m.mem.(current_step_id := Some(next), current_attempt := None, updated_at := v.ended);
        m.(mem := run, stored := run, pc := Settling)
      case Ok(None) =>
        var run := m.mem.(current_step_id := None, current_attempt := None);
        if run.state.CanTransitionTo(Succeeded) then
          var done := Transitioned(run, Succeeded, v.ended, StepFinished(v.step.id, v.attempt));
          m.(mem := done, stored := done, pc := Settling)
        else m.(mem := run, pc := Failing(InvalidRunTransition))
      case Err(e) =>
        if CanRetry(orch, v.flow, v.step, v.attempt, v.outcome)
        then m.(pc := Marking(v.flow, v.step, v.attempt + 1))
        else m.(pc := Failing(e))
  }

  function StepSettling(m: Machine): Machine {
    var m1 := m.(mem := m.stored);
    if m1.mem.state.Running? && m1.mem.total_iterations == m.before
    then m1.(pc := Idle, result := NoProgress)
    else m1.(pc := LoopHead, cycles := m.cycles + 1)
  }

  function StepFailing(m: Machine, error: EngineError, now: int): Machine {
    if m.mem.state.IsTerminal() then m.(pc := Idle, result := StepFailed(error))
    else
      var run := Transitioned(m.mem, Failed, now, EngineStartFailed(error));
      m.(mem := run, stored := run, pc := Idle, result := StepFailed(error))
  }

  /** The next store operation of the engine, together with the checks that precede it. */
  function EngineStep(orch: Orchestrator, m: Machine, i: Input): Machine {
    match m.pc
    case Idle => m
    case Loaded(call) => StepLoaded(m, call, i.now)
    case LoopHead => StepLoopHead(orch, m, i.now)
    case Marking(flow, step, attempt) => StepMarking(m, flow, step, attempt, i.now)
    case Guarding(flow, step, attempt, started) => StepGuarding(orch, m, flow, step, attempt, started, i)
    case Recording(v) => StepRecording(orch, m, v)
    case Counting(v) => m.(pc := CountWriting(v, m.stored))
    case CountWriting(v, loaded) => m.(stored := Counted(loaded, v), pc := Reloading(v))
    case Reloading(v) => m.(mem := m.stored, pc := Deciding(v))
    case Deciding(v) => StepDeciding(orch, m, v)
    case Settling => StepSettling(m)
    case Failing(e) => StepFailing(m, e, i.now)
  }

  // ----- steps of the environment -------------------------------------------------------

  /** `WorkflowCancel` of src/app/command_dispatch.rs. */
  function Cancel(m: Machine): Machine {
    if m.stored.state.IsTerminal() then m
    else m.(stored := Transitioned(m.stored, Canceled, m.stored.updated_at + 1, CanceledByCommand))
  }

  /** The engine's process dies: only the store survives. */
  function Crash(m: Machine): Machine {
    m.(pc := Idle)
  }

  // ----- runs ---------------------------------------------------------------------------

  /** `k` engine steps from `m`, reading inputs `oracle(first)`, `oracle(first + 1)`, ... */
  function Iterate(orch: Orchestrator, m: Machine, oracle: nat -> Input, first: nat, k: nat): Machine {
    if k == 0 then m
    else EngineStep(orch, Iterate(orch, m, oracle, first, k - 1), oracle(first + k - 1))
  }

  function NewRun(workflow_id: string, now: int): Machine {
    var run := RunRecord(workflow_id, Queued, None, None, now, now, 0, None);
    Machine(run, map[], run, Idle, 0, 0, 0, [], Returned)
  }

  // ----- what the log says --------------------------------------------------------------

  /** What the recorded attempts say comes next. */
  datatype Frontier = At(step: string, attempt: nat) | Complete | Broken

  function FlowStep(flow: Flow, id: string): Option<Step> { FindStep(flow.steps, id) }

  function FrontierOf(orch: Orchestrator, flow: Flow, log: seq<Exec>): Frontier {
    if log == [] then
      if flow.steps == [] then Complete else At(flow.steps[0].id, 1)
    else
      var e := log[|log| - 1];
      match FlowStep(flow, e.step)
      case None => Broken
      case Some(step) =>
        match EvaluateStep(flow, step, e.outcome)
        case Ok(Some(next)) => At(next, 1)
        case Ok(None) => Complete
        case Err(_) =>
          if CanRetry(orch, flow, step, e.attempt, e.outcome) then At(e.step, e.attempt + 1) else Broken
  }

  /** `e` is a legal next attempt after the attempts `prior`. */
  predicate LegalEntry(orch: Orchestrator, flow: Flow, prior: seq<Exec>, e: Exec) {
    && FrontierOf(orch, flow, prior) == At(e.step, e.attempt)
    && FlowStep(flow, e.step).Some?
    && 1 <= e.attempt <= ResolveLimits(orch, flow, FlowStep(flow, e.step).value).max_retries + 1
  }

  ghost predicate LegalLog(orch: Orchestrator, flow: Flow, log: seq<Exec>) {
    forall i :: 0 <= i < |log| ==> LegalEntry(orch, flow, log[..i], log[i])
  }
}
