/** The engine as the repository writes it: methods over a run record and a store. A ghost
    machine takes one step for each store operation, so everything proved of the machine
    holds of these methods. */
module WorkflowEngine {
  import opened Prelude
  import opened Workflow
  import opened RunStore
  import opened EngineMachine
  import opened EngineInvariant
  import opened EngineShape
  import opened EngineProgress
  import opened EngineBounds
  import opened EngineLimits

  /** Where a call that has ended leaves the machine. */
  lemma CallIsSafe(orch: Orchestrator, m0: Machine, call: Call, oracle: nat -> Input, used: nat, k: nat)
    requires LiveInv(orch, m0) && m0.pc.Idle? && Iterate(orch, BeginCall(m0, call), oracle, used, k).pc.Idle?
    ensures var m := Iterate(orch, BeginCall(m0, call), oracle, used, k);
            && LiveInv(orch, m) && m.stored.workflow_id == m0.stored.workflow_id
            && (m0.stored.state.Queued? || m0.stored.state.Running? ==>
                  m.stored.state.Succeeded? || m.stored.state.Failed? || m.result == MaxCyclesExceeded)
            && m.result != NoProgress && (Limit(orch, m0) <= MAX_CYCLES ==> m.result != MaxCyclesExceeded)
            && (Inv(orch, m0) ==>
                  Inv(orch, m) && (m.stored.state.Succeeded? ==> FlowOf(orch, m).Some? && IsPath(orch, FlowOf(orch, m).value, m.log)))
            && (Inv(orch, m0) && CountInv(orch, m0) ==> CountInv(orch, m) && m.executed <= Limit(orch, m))
            && forall flow :: IsFlow(orch, m.stored.workflow_id, flow) ==>
                 && WithinConfigured(orch, flow, m.stored.total_iterations)
                 && (Inv(orch, m0) && CountInv(orch, m0) ==> WithinConfigured(orch, flow, m.executed))
  {
    hide Inv, TallyInv, FindFlow, FrontierOf, MaxTotal, EngineStep, IsPath, IsFlow, WithinConfigured;
    var first := BeginCall(m0, call);
    var m := Iterate(orch, first, oracle, used, k);
    assert LiveInv(orch, first) && Limit(orch, first) == Limit(orch, m0);
    IterateLives(orch, first, oracle, used, k);
    CallKeepsId(orch, first, oracle, used, k);
    if m0.stored.state.Queued? || m0.stored.state.Running? {
      assert Undisturbed(first);
    }
    if Inv(orch, m0) {
      BeginCallKeepsInv(orch, m0, call);
      if CountInv(orch, m0) { BeginCallKeepsCounts(orch, m0, call); }
      IterateKeeps(orch, first, oracle, used, k);
      if CountInv(orch, m) { BoundedExecution(orch, m); }
      if m.stored.state.Succeeded? { SuccessfulRunShape(orch, m); }
    }
    EveryFlowIsWithin(orch, m);
  }

  class Engine {
    const orch: Orchestrator
    const oracle: nat -> Input        // clock readings and provider outcomes, in order of use
    var stored: RunRecord             // the run's metadata file
    var attempts: Attempts            // the run's attempt records
    var used: nat
    ghost var m: Machine
    ghost var first: Machine          // the machine and input position when the call began
    ghost var firstUsed: nat

    /** The machine is where the steps taken since the call began lead. */
    ghost predicate Traced()
      reads this`first, this`firstUsed, this`used, this`m
    {
      firstUsed <= used && m == Iterate(orch, first, oracle, firstUsed, used - firstUsed)
    }

    ghost predicate Synced(run: RunRecord)
      reads this
    {
      stored == m.stored && attempts == m.attempts && run == m.mem && Traced()
    }

    ghost predicate Valid()
      reads this
    {
      m.pc.Idle? && stored == m.stored && attempts == m.attempts && LiveInv(orch, m)
    }

    constructor (orch: Orchestrator, oracle: nat -> Input, workflow_id: string, now: int)
      ensures Valid() && m == NewRun(workflow_id, now) && this.orch == orch && this.oracle == oracle
      ensures Inv(orch, m) && CountInv(orch, m)
    {
      this.orch := orch;
      this.oracle := oracle;
      stored := RunRecord(workflow_id, Queued, None, None, now, now, 0, None);
      attempts := map[];
      used := 0;
      m := NewRun(workflow_id, now);
      new;
      NewRunInv(orch, workflow_id, now);
      NewRunCounts(orch, workflow_id, now);
    }

    /** An engine over a store that an earlier process left, by ending its call or by a crash at
        any moment. */
    constructor Reopen(orch: Orchestrator, oracle: nat -> Input, run: RunRecord, attempts: Attempts, ghost left: Machine)
      requires left.pc.Idle? && run == left.stored && attempts == left.attempts && LiveInv(orch, left)
      ensures Valid() && m == left && this.orch == orch && this.oracle == oracle
    {
      this.orch := orch;
      this.oracle := oracle;
      this.stored := run;
      this.attempts := attempts;
      used := 0;
      m := left;
    }

    /** Reads the next input; the ghost machine takes its step with it. */
    method Advance() returns (i: Input)
      requires Traced()
      modifies this`used, this`m
      ensures i == oracle(old(used)) && used == old(used) + 1
      ensures m == EngineStep(orch, old(m), i) && Traced()
    {
      hide EngineStep;
      i := oracle(used);
      m := EngineStep(orch, m, i);
      used := used + 1;
    }

    method TransitionState(run0: RunRecord, next: RunState, now: int, summary: Reason)
      returns (run: RunRecord, error: Option<EngineError>)
      modifies this`stored
      ensures run0.state.CanTransitionTo(next) ==>
                error == None && run == stored == Transitioned(run0, next, now, summary)
      ensures !run0.state.CanTransitionTo(next) ==>
                error == Some(InvalidRunTransition) && run == run0 && stored == old(stored)
      ensures error.None? ==>
                && stored.state == next && stored.updated_at == now
                && stored.terminal_reason == (if next in {Succeeded, Failed, Canceled} then Some(summary) else None)
                && stored == run0.(state := stored.state, updated_at := stored.updated_at, terminal_reason := stored.terminal_reason)
    {
      run := run0;
      if !run.state.CanTransitionTo(next) {
        return run, Some(InvalidRunTransition);
      }
      run := run.(state := next, updated_at := now);
      if run.state.IsTerminal() {
        run := run.(terminal_reason := Some(summary));
      } else {
        run := run.(terminal_reason := None);
      }
      stored := run;
      error := None;
    }

    /** Stores the record, then loads, counts and stores the run: three store operations. */
    method PersistStepAttempt(v: Visit, ghost run: RunRecord)
      requires Synced(run) && m.pc == Recording(v)
      modifies this`stored, this`attempts, this`used, this`m
      ensures Synced(run) && m.pc == Reloading(v)
      ensures m.cycles == old(m.cycles) && m.before == old(m.before)
    {
      hide EvaluateStep, ResolveLimits, EnforceSafety, FindFlow, FindStep, ResolvePointer, CanRetry, RecordOf, Iterate, Traced;
      var record := RecordOf(orch, v);
      var i := Advance();
      attempts := attempts[(v.step.id, v.attempt) := record];
      i := Advance();
      var loaded := stored;
      loaded := loaded.(total_iterations := SaturatingSucc(loaded.total_iterations), updated_at := v.ended);
      i := Advance();
      stored := loaded;
    }

    method MarkStepAttemptStarted(run0: RunRecord, flow: Flow, step: Step, attempt: nat)
      returns (run: RunRecord, started: int)
      requires Synced(run0) && m.pc == Marking(flow, step, attempt)
      modifies this`stored, this`used, this`m
      ensures Synced(run) && m.pc == Guarding(flow, step, attempt, started)
      ensures m.cycles == old(m.cycles) && m.before == old(m.before)
    {
      hide Iterate, Traced;
      var i := Advance();
      started := i.now;
      run := run0.(current_step_id := Some(step.id), current_attempt := Some(attempt), updated_at := started);
      stored := run;
    }

    /** After an attempt is recorded and counted: reload, check the limits again, act on the outcome. */
    method ActOnOutcome(v: Visit, ghost run0: RunRecord) returns (run: RunRecord, error: Option<EngineError>, retry: bool)
      requires Synced(run0) && m.pc == Reloading(v)
      modifies this`stored, this`used, this`m
      ensures Synced(run)
      ensures m.pc == if retry then Marking(v.flow, v.step, v.attempt + 1)
                      else if error.None? then Settling else Failing(error.value)
      ensures retry ==> v.attempt <= ResolveLimits(orch, v.flow, v.step).max_retries
      ensures m.cycles == old(m.cycles) && m.before == old(m.before)
    {
      hide EvaluateStep, ResolveLimits, EnforceSafety, FindFlow, FindStep, ResolvePointer, RecordOf, IsRetryable, Iterate, Traced;
      retry := false;
      var next := Advance();
      run := stored;
      next := Advance();
      var limits := ResolveLimits(orch, v.flow, v.step);
      error := EnforceSafety(run, limits, v.ended, v.started, v.attempt);
      if error.Some? {
        return;
      }
      match EvaluateStep(v.flow, v.step, v.outcome) {
        case Ok(Some(target)) =>
          run := run.(current_step_id := Some(target), current_attempt := None, updated_at := v.ended);
          stored := run;
        case Ok(None) =>
          run := run.(current_step_id := None, current_attempt := None);
          run, error := TransitionState(run, Succeeded, v.ended, StepFinished(v.step.id, v.attempt));
        case Err(e) =>
          retry := IsRetryable(e) && v.attempt <= limits.max_retries;
          if !retry {
            error := Some(e);
          }
      }
    }

    /** The retry loop of `execute_next` for one step. */
    method ExecuteStep(run0: RunRecord, flow: Flow, step: Step, attempt0: nat)
      returns (run: RunRecord, error: Option<EngineError>)
      requires Synced(run0) && m.pc == Marking(flow, step, attempt0)
      modifies this`stored, this`attempts, this`used, this`m
      ensures Synced(run)
      ensures m.pc == if error.None? then Settling else Failing(error.value)
      ensures m.cycles == old(m.cycles) && m.before == old(m.before)
    {
      hide EvaluateStep, ResolveLimits, EnforceSafety, FindFlow, FindStep, ResolvePointer, RecordOf, IsRetryable, Iterate, Traced,
        StepDeciding;
      run := run0;
      var attempt := attempt0;
      var limits := ResolveLimits(orch, flow, step);
      while true
        invariant Synced(run) && m.pc == Marking(flow, step, attempt)
        invariant m.cycles == old(m.cycles) && m.before == old(m.before)
        decreases limits.max_retries + 1 - attempt
      {
        var started;
        run, started := MarkStepAttemptStarted(run, flow, step, attempt);
        var i := Advance();
        error := EnforceSafety(run, limits, started, started, attempt);
        if error.Some? {
          return;
        }
        var v := Visit(flow, step, attempt, started, i.outcome, i.now);
        PersistStepAttempt(v, run);
        var retry;
        run, error, retry := ActOnOutcome(v, run);
        if !retry {
          return;
        }
        attempt := attempt + 1;
      }
    }

    method ExecuteNext(run0: RunRecord) returns (run: RunRecord, error: Option<EngineError>)
      requires Synced(run0) && m.pc == LoopHead && run0.state.Running? && m.cycles < MAX_CYCLES
      modifies this`stored, this`attempts, this`used, this`m
      ensures Synced(run)
      ensures m.pc == if error.None? then Settling else Failing(error.value)
      ensures m.cycles == old(m.cycles) && m.before == run0.total_iterations
    {
      hide EvaluateStep, ResolveLimits, EnforceSafety, FindFlow, FindStep, ResolvePointer, RecordOf, Iterate, Traced;
      run := run0;
      var i := Advance();
      var flow := FindFlow(orch.workflows, run.workflow_id);
      if flow.None? {
        return run, Some(UnknownWorkflow);
      }
      var pointer := ResolvePointer(attempts, run, flow.value);
      if pointer.None? {
        run := run.(current_step_id := None, current_attempt := None);
        run, error := TransitionState(run, Succeeded, i.now, WorkflowCompleted);
        return;
      }
      var step := FindStep(flow.value.steps, pointer.value.step);
      if step.None? {
        return run, Some(UnknownStep(pointer.value.step));
      }
      run, error := ExecuteStep(run, flow.value, step.value, pointer.value.attempt);
    }

    method ExecuteOrFail(run0: RunRecord) returns (run: RunRecord, error: Option<EngineError>)
      requires Synced(run0) && m.pc == LoopHead && run0.state.Running? && m.cycles < MAX_CYCLES
      modifies this`stored, this`attempts, this`used, this`m
      ensures Synced(run)
      ensures m.pc == if error.None? then Settling else Idle
      ensures error.None? ==> m.cycles == old(m.cycles) && m.before == run0.total_iterations
      ensures error.Some? ==> m.result == StepFailed(error.value)
    {
      hide EvaluateStep, ResolveLimits, EnforceSafety, FindFlow, FindStep, ResolvePointer, RecordOf, Iterate, Traced;
      run, error := ExecuteNext(run0);
      if error.Some? {
        var i := Advance();
        if !run.state.IsTerminal() {
          var refused;
          run, refused := TransitionState(run, Failed, i.now, EngineStartFailed(error.value));
        }
      }
    }

    method RunUntilNonRunning(run0: RunRecord) returns (run: RunRecord, r: CallResult)
      requires Synced(run0) && m.pc == LoopHead && m.cycles == 0
      modifies this`stored, this`attempts, this`used, this`m
      ensures Synced(run) && m.pc.Idle? && r == m.result
    {
      hide EvaluateStep, ResolveLimits, EnforceSafety, FindFlow, FindStep, ResolvePointer, RecordOf, Iterate, Traced;
      run := run0;
      var cycles := 0;
      while run.state.Running?
        invariant Synced(run) && m.pc == LoopHead && m.cycles == cycles <= MAX_CYCLES
        decreases MAX_CYCLES - cycles
      {
        if cycles >= MAX_CYCLES {
          var i := Advance();
          return run, MaxCyclesExceeded;
        }
        var previous := run.total_iterations;
        var error;
        run, error := ExecuteOrFail(run);
        if error.Some? {
          return run, StepFailed(error.value);
        }
        var i := Advance();
        run := stored;
        if run.state.Running? && run.total_iterations == previous {
          return run, NoProgress;
        }
        cycles := cycles + 1;
      }
      var i := Advance();
      r := Returned;
    }

    /** `start` and `resume`. The call ends from every state a run can be left in; the store is
        left where `used - old(used)` machine steps leave it. */
    method Execute(call: Call) returns (run: RunRecord, r: CallResult)
      requires Valid()
      modifies this
      ensures Valid() && run == stored && r == m.result
      ensures used >= old(used)
      ensures m == Iterate(orch, BeginCall(old(m), call), oracle, old(used), used - old(used))
      ensures old(stored).state.Queued? || old(stored).state.Running? ==>
                stored.state.Succeeded? || stored.state.Failed? || r == MaxCyclesExceeded
      ensures r != NoProgress && (Limit(orch, old(m)) <= MAX_CYCLES ==> r != MaxCyclesExceeded)
      ensures Inv(orch, old(m)) ==>
                Inv(orch, m) && (stored.state.Succeeded? ==> FlowOf(orch, m).Some? && IsPath(orch, FlowOf(orch, m).value, m.log))
      ensures Inv(orch, old(m)) && CountInv(orch, old(m)) ==> CountInv(orch, m) && m.executed <= Limit(orch, m)
      ensures stored.workflow_id == old(stored).workflow_id
      ensures forall flow :: IsFlow(orch, stored.workflow_id, flow) ==>
                && WithinConfigured(orch, flow, stored.total_iterations)
                && (Inv(orch, old(m)) && CountInv(orch, old(m)) ==> WithinConfigured(orch, flow, m.executed))
    {
      hide Inv, LiveInv, TallyInv, FindFlow, Limit, FrontierOf, MaxTotal, EngineStep, IsPath, IsFlow, WithinConfigured;
      run := stored;
      m := BeginCall(m, call);
      first, firstUsed := m, used;
      r := Begin(call, run);
      CallIsSafe(orch, old(m), call, oracle, firstUsed, used - firstUsed);
      run := stored;
    }

    method Begin(call: Call, run0: RunRecord) returns (r: CallResult)
      requires Synced(run0) && m.pc == Loaded(call)
      modifies this`stored, this`attempts, this`used, this`m
      ensures m.pc.Idle? && stored == m.stored && attempts == m.attempts && r == m.result
      ensures Traced()
    {
      hide EvaluateStep, ResolveLimits, EnforceSafety, FindFlow, FindStep, ResolvePointer, RecordOf, Iterate, Traced;
      var run := run0;
      var i := Advance();
      if call == Resume && run.state.IsTerminal() {
        return Returned;
      }
      if run.state.Queued? || (call == Resume && run.state.Waiting?) {
        var refused;
        run, refused := TransitionState(run, Running, i.now, CallBegan);
      }
      run, r := RunUntilNonRunning(run);
    }
  }
}
