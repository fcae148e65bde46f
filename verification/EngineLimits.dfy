/** What the configured limits do to a run, from the configuration's own fields
    (src/orchestration/workflow_engine.rs). */
module EngineLimits {
  import opened Prelude
  import opened Workflow
  import opened RunStore
  import opened EngineMachine
  import opened EngineInvariant
  import opened EngineShape
  import opened EngineProgress
  import opened EngineBounds

  /** The first workflow listed under this id. */
  predicate IsFlow(orch: Orchestrator, id: string, flow: Flow) {
    exists k :: 0 <= k < |orch.workflows| && orch.workflows[k] == flow && flow.id == id
                && forall j :: 0 <= j < k ==> orch.workflows[j].id != id
  }

  lemma {:induction false} FirstFlow(flows: seq<Flow>, id: string, k: nat)
    requires k < |flows| && flows[k].id == id && forall j :: 0 <= j < k ==> flows[j].id != id
    ensures FindFlow(flows, id) == Some(flows[k])
  {
    if k > 0 { FirstFlow(flows[1..], id, k - 1); }
  }

  lemma {:induction false} NoFlow(flows: seq<Flow>, id: string)
    requires forall j :: 0 <= j < |flows| ==> flows[j].id != id
    ensures FindFlow(flows, id) == None
  {
    if flows != [] { NoFlow(flows[1..], id); }
  }

  // ----- the limits, field by field -----------------------------------------------------

  /** The iteration limit is the workflow's own; without one the orchestrator's; without either 12. */
  predicate IterationLimit(orch: Orchestrator, flow: Flow, n: nat) {
    var own := flow.limits.Some? && flow.limits.value.max_total_iterations.Some?;
    var shared := orch.limits.Some? && orch.limits.value.max_total_iterations.Some?;
    && (own ==> n == flow.limits.value.max_total_iterations.value)
    && (!own && shared ==> n == orch.limits.value.max_total_iterations.value)
    && (!own && !shared ==> n == 12)
  }

  /** The run timeout: the workflow's own, else the orchestrator's default, else an hour. */
  predicate RunTimeoutIs(orch: Orchestrator, flow: Flow, seconds: nat) {
    var own := flow.limits.Some? && flow.limits.value.run_timeout_seconds.Some?;
    var shared := orch.limits.Some? && orch.limits.value.default_run_timeout_seconds.Some?;
    && (own ==> seconds == flow.limits.value.run_timeout_seconds.value)
    && (!own && shared ==> seconds == orch.limits.value.default_run_timeout_seconds.value)
    && (!own && !shared ==> seconds == 3600)
  }

  /** The step timeout: the orchestrator's default, else 900 seconds, but never above its maximum. */
  predicate StepTimeoutIs(orch: Orchestrator, seconds: nat) {
    var given := orch.limits.Some? && orch.limits.value.default_step_timeout_seconds.Some?;
    var capped := orch.limits.Some? && orch.limits.value.max_step_timeout_seconds.Some?;
    && (given ==> seconds <= orch.limits.value.default_step_timeout_seconds.value)
    && (!given ==> seconds <= 900)
    && (capped ==> seconds <= orch.limits.value.max_step_timeout_seconds.value)
    && (|| (given && seconds == orch.limits.value.default_step_timeout_seconds.value)
        || (!given && seconds == 900)
        || (capped && seconds == orch.limits.value.max_step_timeout_seconds.value))
  }

  /** The retry budget: the step's own, else two. */
  predicate RetriesAre(step: Step, retries: nat) {
    && (step.max_retries.Some? ==> retries == step.max_retries.value)
    && (step.max_retries.None? ==> retries == 2)
  }

  /** The engine resolves exactly these. */
  lemma LimitsAreConfigured(orch: Orchestrator, flow: Flow, step: Step, limits: SafetyLimits)
    ensures limits == ResolveLimits(orch, flow, step) <==>
              && IterationLimit(orch, flow, limits.max_total_iterations) && RunTimeoutIs(orch, flow, limits.run_timeout_seconds)
              && StepTimeoutIs(orch, limits.step_timeout_seconds) && RetriesAre(step, limits.max_retries)
  {
  }

  // ----- when an attempt is let through -------------------------------------------------

  /** Why an attempt is refused, first reason first. */
  predicate RefusedFor(run: RunRecord, n: nat, runSeconds: nat, stepSeconds: nat, retries: nat, now: int, started: int, attempt: nat,
                       e: EngineError)
  {
    var late := now - run.started_at > runSeconds;
    var slow := now - started > stepSeconds;
    || (e == MaxIterationsExceeded && run.total_iterations >= n)
    || (e == RunTimeout && run.total_iterations < n && late)
    || (e == StepTimeout && run.total_iterations < n && !late && slow)
    || (e == RetryLimitExceeded(attempt) && run.total_iterations < n && !late && !slow && attempt > retries + 1)
  }

  /** Before an attempt: it executes if and only if no configured limit refuses it, and the first
      reason is the error. */
  lemma AttemptStartsIff(orch: Orchestrator, m: Machine, i: Input, n: nat, runSeconds: nat, stepSeconds: nat, retries: nat)
    requires m.pc.Guarding?
    requires IterationLimit(orch, m.pc.flow, n) && RunTimeoutIs(orch, m.pc.flow, runSeconds)
    requires StepTimeoutIs(orch, stepSeconds) && RetriesAre(m.pc.step, retries)
    ensures var m' := EngineStep(orch, m, i);
            && (forall e :: m'.pc == Failing(e) <==>
                  RefusedFor(m.mem, n, runSeconds, stepSeconds, retries, m.pc.started, m.pc.started, m.pc.attempt, e))
            && (m'.pc.Failing? || (m'.pc == Recording(Visit(m.pc.flow, m.pc.step, m.pc.attempt, m.pc.started, i.outcome, i.now))
                                   && m'.executed == m.executed + 1))
  {
    SameLimits(orch, m.pc.flow, m.pc.step, n, runSeconds, stepSeconds, retries);
  }

  lemma SameLimits(orch: Orchestrator, flow: Flow, step: Step, n: nat, runSeconds: nat, stepSeconds: nat, retries: nat)
    requires IterationLimit(orch, flow, n) && RunTimeoutIs(orch, flow, runSeconds) && StepTimeoutIs(orch, stepSeconds) && RetriesAre(step, retries)
    ensures var l := ResolveLimits(orch, flow, step);
            && l.max_total_iterations == n && l.run_timeout_seconds == runSeconds
            && l.step_timeout_seconds == stepSeconds && l.max_retries == retries
  {
  }

  /** After an attempt is counted: the limits again; then a success moves on, one of four kinds of
      error is retried while the budget lasts, and any other error fails the run. */
  lemma OutcomeIsActedOn(orch: Orchestrator, m: Machine, i: Input, n: nat, runSeconds: nat, stepSeconds: nat, retries: nat)
    requires m.pc.Deciding?
    requires IterationLimit(orch, m.pc.v.flow, n) && RunTimeoutIs(orch, m.pc.v.flow, runSeconds)
    requires StepTimeoutIs(orch, stepSeconds) && RetriesAre(m.pc.v.step, retries)
    ensures var m', v := EngineStep(orch, m, i), m.pc.v;
            var refused := exists e :: RefusedFor(m.mem, n, runSeconds, stepSeconds, retries, v.ended, v.started, v.attempt, e);
            && (forall e :: RefusedFor(m.mem, n, runSeconds, stepSeconds, retries, v.ended, v.started, v.attempt, e) ==> m'.pc == Failing(e))
            && (!refused ==>
                  match EvaluateStep(v.flow, v.step, v.outcome)
                  case Ok(Some(target)) =>
                    m'.pc == Settling && m'.stored == m.mem.(current_step_id := Some(target), current_attempt := None, updated_at := v.ended)
                  case Ok(None) =>
                    if m.mem.state == Running
                    then m'.pc == Settling && m'.stored == m.mem.(state := Succeeded, current_step_id := None, current_attempt := None,
                           updated_at := v.ended, terminal_reason := Some(StepFinished(v.step.id, v.attempt)))
                    else m'.pc == Failing(InvalidRunTransition) && m'.stored == m.stored
                  case Err(e) =>
                    m'.pc == if e in {StepExecution, WorkflowEnvelope, InvalidReviewDecision, OutputContractValidation} && v.attempt <= retries
                             then Marking(v.flow, v.step, v.attempt + 1) else Failing(e))
  {
    hide EvaluateStep;
    SameLimits(orch, m.pc.v.flow, m.pc.v.step, n, runSeconds, stepSeconds, retries);
    if forall e :: !RefusedFor(m.mem, n, runSeconds, stepSeconds, retries, m.pc.v.ended, m.pc.v.started, m.pc.v.attempt, e) {
      assert !RefusedFor(m.mem, n, runSeconds, stepSeconds, retries, m.pc.v.ended, m.pc.v.started, m.pc.v.attempt, MaxIterationsExceeded);
      assert !RefusedFor(m.mem, n, runSeconds, stepSeconds, retries, m.pc.v.ended, m.pc.v.started, m.pc.v.attempt, RunTimeout);
      assert !RefusedFor(m.mem, n, runSeconds, stepSeconds, retries, m.pc.v.ended, m.pc.v.started, m.pc.v.attempt, StepTimeout);
      assert !RefusedFor(m.mem, n, runSeconds, stepSeconds, retries, m.pc.v.ended, m.pc.v.started, m.pc.v.attempt, RetryLimitExceeded(m.pc.v.attempt));
    }
  }

  /** What is stored for an executed attempt: its times, the next step or the error, and whether it
      may be tried again. */
  lemma AttemptIsStored(orch: Orchestrator, m: Machine, i: Input, retries: nat)
    requires m.pc.Recording? && RetriesAre(m.pc.v.step, retries)
    ensures var m', v := EngineStep(orch, m, i), m.pc.v;
            var key := (v.step.id, v.attempt);
            && m'.pc == Counting(v) && key in m'.attempts && m'.attempts == m.attempts[key := m'.attempts[key]] && m'.stored == m.stored
            && m'.attempts[key].started_at == v.started && m'.attempts[key].ended_at == v.ended
            && match EvaluateStep(v.flow, v.step, v.outcome)
               case Ok(next) =>
                 m'.attempts[key].state == AttemptSucceeded && m'.attempts[key].next_step_id == next && m'.attempts[key].error == None
               case Err(e) =>
                 && m'.attempts[key].next_step_id == None && m'.attempts[key].error == Some(e)
                 && m'.attempts[key].state ==
                      if e in {StepExecution, WorkflowEnvelope, InvalidReviewDecision, OutputContractValidation} && v.attempt <= retries
                      then AttemptFailedRetryable else AttemptFailed
  {
    hide EvaluateStep;
  }

  /** What is stored when an attempt starts, and when it is counted. */
  lemma StartAndCountAreStored(orch: Orchestrator, m: Machine, i: Input)
    ensures m.pc.Marking? ==>
              EngineStep(orch, m, i).stored == m.mem.(current_step_id := Some(m.pc.step.id), current_attempt := Some(m.pc.attempt), updated_at := i.now)
    ensures m.pc.CountWriting? && m.pc.loaded.total_iterations < U32_MAX ==>
              EngineStep(orch, m, i).stored
                == m.pc.loaded.(total_iterations := m.pc.loaded.total_iterations + 1, updated_at := m.pc.v.ended)
  {
    hide EvaluateStep, StepDeciding, StepLoopHead;
  }

  // ----- whole runs ---------------------------------------------------------------------

  /** What the configuration allows a run to execute: the workflow's limit when it gives one,
      whatever the orchestrator gives; else the orchestrator's; else 12. */
  predicate WithinConfigured(orch: Orchestrator, flow: Flow, executed: nat) {
    var own := flow.limits.Some? && flow.limits.value.max_total_iterations.Some?;
    var shared := orch.limits.Some? && orch.limits.value.max_total_iterations.Some?;
    && (own ==> executed <= flow.limits.value.max_total_iterations.value)
    && (!own && shared ==> executed <= orch.limits.value.max_total_iterations.value)
    && (!own && !shared ==> executed <= 12)
  }

  lemma LimitIsConfigured(orch: Orchestrator, m: Machine, flow: Flow)
    requires IsFlow(orch, m.stored.workflow_id, flow)
    ensures FlowOf(orch, m) == Some(flow) && IterationLimit(orch, flow, Limit(orch, m))
    ensures m.executed <= Limit(orch, m) ==> WithinConfigured(orch, flow, m.executed)
    ensures m.stored.total_iterations <= Limit(orch, m) ==> WithinConfigured(orch, flow, m.stored.total_iterations)
  {
    var k :| 0 <= k < |orch.workflows| && orch.workflows[k] == flow && flow.id == m.stored.workflow_id
             && forall j :: 0 <= j < k ==> orch.workflows[j].id != m.stored.workflow_id;
    FirstFlow(orch.workflows, m.stored.workflow_id, k);
  }

  lemma EveryFlowIsWithin(orch: Orchestrator, m: Machine)
    ensures forall flow :: IsFlow(orch, m.stored.workflow_id, flow) ==>
              && (m.executed <= Limit(orch, m) ==> WithinConfigured(orch, flow, m.executed))
              && (m.stored.total_iterations <= Limit(orch, m) ==> WithinConfigured(orch, flow, m.stored.total_iterations))
  {
    hide IsFlow, WithinConfigured, Limit;
    forall flow | IsFlow(orch, m.stored.workflow_id, flow)
      ensures m.executed <= Limit(orch, m) ==> WithinConfigured(orch, flow, m.executed)
      ensures m.stored.total_iterations <= Limit(orch, m) ==> WithinConfigured(orch, flow, m.stored.total_iterations)
    {
      LimitIsConfigured(orch, m, flow);
    }
  }

  /** Over every crash-free run with any resumes and cancels, at most the configured number of
      attempts execute. */
  lemma WholeRunStaysWithinConfigured(orch: Orchestrator, workflow_id: string, now: int, moves: seq<Move>, flow: Flow)
    requires forall i :: 0 <= i < |moves| ==> !moves[i].CrashMove?
    requires IsFlow(orch, workflow_id, flow)
    ensures WithinConfigured(orch, flow, RunMoves(orch, NewRun(workflow_id, now), moves).executed)
  {
    hide Inv, CountInv, FindFlow, IsFlow, WithinConfigured;
    var start := NewRun(workflow_id, now);
    WholeRunIsBounded(orch, workflow_id, now, moves);
    NewRunLives(orch, workflow_id, now);
    RunKeepsId(orch, start, moves);
    LimitIsConfigured(orch, RunMoves(orch, start, moves), flow);
  }

  /** With the configured limit `n`: a success has counted fewer than `n` iterations unless `n` is
      zero, and up to 10,000 the cycle guard stays silent. */
  lemma WholeRunMeetsLimit(orch: Orchestrator, workflow_id: string, now: int, moves: seq<Move>, flow: Flow, n: nat)
    requires forall i :: 0 <= i < |moves| ==> !moves[i].CrashMove?
    requires IsFlow(orch, workflow_id, flow) && IterationLimit(orch, flow, n)
    ensures var m := RunMoves(orch, NewRun(workflow_id, now), moves);
            && m.executed <= n
            && (m.stored.state.Succeeded? ==> (m.stored.total_iterations < n <==> n > 0))
            && (n <= 10_000 ==> m.result != MaxCyclesExceeded)
  {
    hide Inv, CountInv, FindFlow, IsFlow, WithinConfigured;
    var start := NewRun(workflow_id, now);
    WholeRunIsBounded(orch, workflow_id, now, moves);
    LimitIsConfigured(orch, start, flow);
  }

  /** Nothing executes for a workflow that is not configured. */
  lemma UnknownWorkflowExecutesNothing(orch: Orchestrator, workflow_id: string, now: int, moves: seq<Move>)
    requires forall i :: 0 <= i < |moves| ==> !moves[i].CrashMove?
    requires forall k :: 0 <= k < |orch.workflows| ==> orch.workflows[k].id != workflow_id
    ensures RunMoves(orch, NewRun(workflow_id, now), moves).executed == 0
  {
    hide Inv, CountInv, FindFlow;
    WholeRunIsBounded(orch, workflow_id, now, moves);
    NoFlow(orch.workflows, workflow_id);
  }

  lemma {:induction false} RunKeepsId(orch: Orchestrator, m: Machine, moves: seq<Move>)
    requires LiveInv(orch, m)
    ensures LiveInv(orch, RunMoves(orch, m, moves)) && RunMoves(orch, m, moves).stored.workflow_id == m.stored.workflow_id
  {
    hide LiveInv, Apply;
    if moves != [] {
      RunKeepsId(orch, m, moves[..|moves| - 1]);
      var prior := RunMoves(orch, m, moves[..|moves| - 1]);
      ApplyLives(orch, prior, moves[|moves| - 1]);
      ApplyKeepsId(orch, prior, moves[|moves| - 1]);
    }
  }

  lemma ApplyKeepsId(orch: Orchestrator, m: Machine, move: Move)
    requires LiveInv(orch, m)
    ensures Apply(orch, m, move).stored.workflow_id == m.stored.workflow_id
  {
    hide EvaluateStep, FindFlow, FindStep, ResolvePointer, CanRetry, MaxTotal, RecordOf, ResolveLimits, EnforceSafety;
  }

  lemma {:induction false} CallKeepsId(orch: Orchestrator, m: Machine, oracle: nat -> Input, first: nat, k: nat)
    requires LiveInv(orch, m)
    ensures LiveInv(orch, Iterate(orch, m, oracle, first, k)) && Iterate(orch, m, oracle, first, k).stored.workflow_id == m.stored.workflow_id
  {
    hide LiveInv, EngineStep;
    if k > 0 {
      CallKeepsId(orch, m, oracle, first, k - 1);
      var prior := Iterate(orch, m, oracle, first, k - 1);
      var i := oracle(first + k - 1);
      EngineStepLives(orch, prior, i);
      assert Apply(orch, prior, EngineMove(i)) == EngineStep(orch, prior, i);
      ApplyKeepsId(orch, prior, EngineMove(i));
    }
  }
}
