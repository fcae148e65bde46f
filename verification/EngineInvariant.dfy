/** The invariant every step of the engine machine keeps, whatever cancels and
    (well-timed) crashes fall between its store operations. */
module EngineInvariant {
  import opened Prelude
  import opened Workflow
  import opened RunStore
  import opened EngineMachine

  predicate SamePlace(a: RunRecord, b: RunRecord) {
    && a.workflow_id == b.workflow_id
    && a.current_step_id == b.current_step_id
    && a.current_attempt == b.current_attempt
    && a.total_iterations == b.total_iterations
  }

  predicate At2(run: RunRecord, step: string, attempt: nat) {
    run.current_step_id == Some(step) && run.current_attempt == Some(attempt)
  }

  function FlowOf(orch: Orchestrator, m: Machine): Option<Flow> {
    FindFlow(orch.workflows, m.stored.workflow_id)
  }

  predicate Matches(p: Option<Pointer>, f: Frontier) {
    match f
    case At(step, attempt) => p == Some(Pointer(step, attempt))
    case Complete => p == None
    case Broken => false
  }

  /** Reading the run's position from `run` and the attempt records gives the same next
      attempt as the log of everything recorded so far. */
  predicate Ready(orch: Orchestrator, m: Machine, run: RunRecord) {
    match FlowOf(orch, m)
    case None => true
    case Some(flow) => Matches(ResolvePointer(m.attempts, run, flow), FrontierOf(orch, flow, m.log))
  }

  /** The attempt record under the stored pointer, if there is one, is the last one
      stored and is a success. */
  predicate FreshPointer(m: Machine) {
    m.stored.current_step_id.Some? && m.stored.current_attempt.Some? ==>
      var key := (m.stored.current_step_id.value, m.stored.current_attempt.value);
      key in m.attempts ==>
        && m.log != []
        && m.log[|m.log| - 1].step == key.0 && m.log[|m.log| - 1].attempt == key.1
        && m.attempts[key].state == AttemptSucceeded
  }

  predicate ChosenAttempt(orch: Orchestrator, m: Machine, flow: Flow, step: Step, attempt: nat) {
    && FlowOf(orch, m) == Some(flow)
    && FlowStep(flow, step.id) == Some(step)
    && FrontierOf(orch, flow, m.log) == At(step.id, attempt)
    && 1 <= attempt
  }

  predicate RecordedVisit(orch: Orchestrator, m: Machine, v: Visit) {
    && FlowOf(orch, m) == Some(v.flow)
    && FlowStep(v.flow, v.step.id) == Some(v.step)
    && m.log != [] && m.log[|m.log| - 1] == Exec(v.step.id, v.attempt, v.outcome)
    && (v.step.id, v.attempt) in m.attempts && m.attempts[(v.step.id, v.attempt)] == RecordOf(orch, v)
    && At2(m.stored, v.step.id, v.attempt)
    && 1 <= v.attempt
  }

  predicate Working(m: Machine) {
    m.mem.state.Running? || m.mem.state.Canceled?
  }

  predicate PcInv(orch: Orchestrator, m: Machine) {
    match m.pc
    case Idle => m.stored.state.IsTerminal() || Ready(orch, m, m.stored)
    case Loaded(_) => SamePlace(m.mem, m.stored) && (m.mem.state.IsTerminal() || Ready(orch, m, m.mem))
    case LoopHead => SamePlace(m.mem, m.stored) && (m.mem.state.IsTerminal() || Ready(orch, m, m.mem))
    case Marking(flow, step, attempt) => Working(m) && ChosenAttempt(orch, m, flow, step, attempt)
    case Guarding(flow, step, attempt, _) =>
      && Working(m) && ChosenAttempt(orch, m, flow, step, attempt)
      && At2(m.mem, step.id, attempt) && At2(m.stored, step.id, attempt)
    case Recording(v) =>
      && Working(m) && ChosenAttempt(orch, m, v.flow, v.step, v.attempt)
      && At2(m.mem, v.step.id, v.attempt) && At2(m.stored, v.step.id, v.attempt)
      && v.attempt <= ResolveLimits(orch, v.flow, v.step).max_retries + 1
    case Counting(v) => Working(m) && RecordedVisit(orch, m, v)
    case CountWriting(v, loaded) =>
      && Working(m) && RecordedVisit(orch, m, v) && SamePlace(loaded, m.stored)
      && (loaded.state == m.mem.state || loaded.state.Canceled?)
    case Reloading(v) => Working(m) && RecordedVisit(orch, m, v)
    case Deciding(v) => Working(m) && RecordedVisit(orch, m, v) && SamePlace(m.mem, m.stored)
    case Settling => m.stored.state.IsTerminal() || Ready(orch, m, m.stored)
    case Failing(_) => Working(m)
  }

  /** The log is legal for the run's workflow. */
  ghost predicate LogInv(orch: Orchestrator, m: Machine) {
    match FlowOf(orch, m)
    case None => m.log == []
    case Some(flow) => LegalLog(orch, flow, m.log)
  }

  /** The engine's copy and the stored copy differ in state only by a cancel; success is
      stored only after a complete log. */
  predicate StateInv(orch: Orchestrator, m: Machine) {
    && (m.pc != Idle ==>
          && m.mem.workflow_id == m.stored.workflow_id
          && (m.stored.state == m.mem.state || m.stored.state.Canceled?))
    && (m.stored.state.Succeeded? ==> FlowOf(orch, m).Some? && FrontierOf(orch, FlowOf(orch, m).value, m.log) == Complete)
  }

  /** Unless the stored pointer names a failed or stale record, the store alone says
      what comes next. */
  predicate FreshInv(orch: Orchestrator, m: Machine) {
    FreshPointer(m) ==> m.stored.state.IsTerminal() || Ready(orch, m, m.stored)
  }

  /** The attempt record of the last log entry carries that entry's result. */
  predicate LastRecordInv(orch: Orchestrator, m: Machine) {
    m.log != [] && FlowOf(orch, m).Some? ==>
      var e := m.log[|m.log| - 1];
      && FlowStep(FlowOf(orch, m).value, e.step).Some?
      && (e.step, e.attempt) in m.attempts
      && var r := EvaluateStep(FlowOf(orch, m).value, FlowStep(FlowOf(orch, m).value, e.step).value, e.outcome);
         var record := m.attempts[(e.step, e.attempt)];
         && (record.state == AttemptSucceeded <==> r.Ok?)
         && record.next_step_id == if r.Ok? then r.value else None
  }

  /** The invariant. */
  ghost predicate Inv(orch: Orchestrator, m: Machine) {
    && LastRecordInv(orch, m)
    && LogInv(orch, m) && StateInv(orch, m) && PcInv(orch, m) && FreshInv(orch, m)
  }

  lemma NewRunInv(orch: Orchestrator, workflow_id: string, now: int)
    ensures Inv(orch, NewRun(workflow_id, now))
  {
  }

  lemma ReadyAtSamePlace(orch: Orchestrator, m: Machine, a: RunRecord, b: RunRecord)
    requires SamePlace(a, b)
    ensures Ready(orch, m, a) == Ready(orch, m, b)
  {
  }

  lemma LegalLogExtends(orch: Orchestrator, flow: Flow, log: seq<Exec>, e: Exec)
    requires LegalLog(orch, flow, log) && LegalEntry(orch, flow, log, e)
    ensures LegalLog(orch, flow, log + [e])
  {
    forall i | 0 <= i < |log + [e]|
      ensures LegalEntry(orch, flow, (log + [e])[..i], (log + [e])[i])
    {
      if i < |log| {
        assert (log + [e])[..i] == log[..i];
      } else {
        assert (log + [e])[..i] == log;
      }
    }
  }

  /** Once a visit is recorded, its record alone says what comes next, unless it failed. */
  lemma RecordedVisitIsReady(orch: Orchestrator, m: Machine, v: Visit)
    requires RecordedVisit(orch, m, v)
    ensures VisitResult(v).Ok? ==> Ready(orch, m, m.stored)
    ensures FreshPointer(m) ==> VisitResult(v).Ok?
  {
  }

  lemma RecordingKeepsInv(orch: Orchestrator, m: Machine, i: Input)
    requires Inv(orch, m) && m.pc.Recording?
    ensures Inv(orch, EngineStep(orch, m, i))
  {
    hide EvaluateStep, ResolveLimits, EnforceSafety, LegalLog, FindFlow, FindStep;
    var v := m.pc.v;
    var m' := StepRecording(orch, m, v);
    LegalLogExtends(orch, v.flow, m.log, Exec(v.step.id, v.attempt, v.outcome));
    RecordedVisitIsReady(orch, m', v);
  }

  lemma DecidingKeepsInv(orch: Orchestrator, m: Machine, i: Input)
    requires Inv(orch, m) && m.pc.Deciding?
    ensures Inv(orch, EngineStep(orch, m, i))
  {
    hide EvaluateStep, ResolveLimits, EnforceSafety, LegalLog, FindFlow;
    var v := m.pc.v;
    var m' := StepDeciding(orch, m, v);
    RecordedVisitIsReady(orch, m, v);
    assert StateInv(orch, m');
    assert PcInv(orch, m');
    assert FreshInv(orch, m');
  }

  lemma LoopHeadKeepsInv(orch: Orchestrator, m: Machine, i: Input)
    requires Inv(orch, m) && m.pc.LoopHead?
    ensures Inv(orch, EngineStep(orch, m, i))
  {
    hide EvaluateStep, ResolveLimits, LegalLog, FindFlow, CanRetry, FindStep, RecordOf;
    var m' := StepLoopHead(orch, m, i.now);
    ReadyAtSamePlace(orch, m, m.mem, m.stored);
    assert StateInv(orch, m');
    assert PcInv(orch, m');
    assert FreshInv(orch, m');
  }

  lemma GuardingKeepsInv(orch: Orchestrator, m: Machine, i: Input)
    requires Inv(orch, m) && m.pc.Guarding?
    ensures Inv(orch, EngineStep(orch, m, i))
  {
    hide EvaluateStep, ResolveLimits, LegalLog, FindFlow, FindStep, CanRetry, FrontierOf;
  }

  lemma MarkingKeepsInv(orch: Orchestrator, m: Machine, i: Input)
    requires Inv(orch, m) && m.pc.Marking?
    ensures Inv(orch, EngineStep(orch, m, i))
  {
    hide EvaluateStep, ResolveLimits, LegalLog, FindFlow, FindStep, CanRetry;
  }

  lemma CountingKeepsInv(orch: Orchestrator, m: Machine, i: Input)
    requires Inv(orch, m) && (m.pc.Counting? || m.pc.CountWriting? || m.pc.Reloading?)
    ensures Inv(orch, EngineStep(orch, m, i))
  {
    hide EvaluateStep, ResolveLimits, EnforceSafety, LegalLog, FindFlow, FindStep, CanRetry, FrontierOf, RecordOf;
    var v := m.pc.v;
    RecordedVisitIsReady(orch, m, v);
    if m.pc.CountWriting? { RecordedVisitIsReady(orch, EngineStep(orch, m, i), v); }
  }

  lemma OuterStepKeepsInv(orch: Orchestrator, m: Machine, i: Input)
    requires Inv(orch, m) && (m.pc.Idle? || m.pc.Loaded? || m.pc.Settling? || m.pc.Failing?)
    ensures Inv(orch, EngineStep(orch, m, i))
  {
    hide EvaluateStep, ResolveLimits, EnforceSafety, LegalLog, FindFlow, FindStep, CanRetry, FrontierOf, RecordOf;
    if m.pc.Loaded? { ReadyAtSamePlace(orch, m, m.mem, m.stored); }
  }

  lemma EngineStepKeepsInv(orch: Orchestrator, m: Machine, i: Input)
    requires Inv(orch, m)
    ensures Inv(orch, EngineStep(orch, m, i))
  {
    hide Inv, EngineStep;
    match m.pc
    case LoopHead => LoopHeadKeepsInv(orch, m, i);
    case Marking(_, _, _) => MarkingKeepsInv(orch, m, i);
    case Guarding(_, _, _, _) => GuardingKeepsInv(orch, m, i);
    case Recording(_) => RecordingKeepsInv(orch, m, i);
    case Counting(_) => CountingKeepsInv(orch, m, i);
    case CountWriting(_, _) => CountingKeepsInv(orch, m, i);
    case Reloading(_) => CountingKeepsInv(orch, m, i);
    case Deciding(_) => DecidingKeepsInv(orch, m, i);
    case _ => OuterStepKeepsInv(orch, m, i);
  }

  lemma CancelKeepsInv(orch: Orchestrator, m: Machine)
    requires Inv(orch, m)
    ensures Inv(orch, Cancel(m))
  {
    hide LegalLog, FindFlow, FindStep;
  }

  lemma BeginCallKeepsInv(orch: Orchestrator, m: Machine, call: Call)
    requires Inv(orch, m) && m.pc.Idle?
    ensures Inv(orch, BeginCall(m, call))
  {
  }

  lemma CrashKeepsInv(orch: Orchestrator, m: Machine)
    requires Inv(orch, m) && (m.stored.state.IsTerminal() || FreshPointer(m))
    ensures Inv(orch, Crash(m))
  {
  }
}
