/** Why every call of start and resume ends: a measure that falls with each store operation,
    from every state the machine can reach, crashes at any moment included. */
module EngineProgress {
  import opened Prelude
  import opened Workflow
  import opened RunStore
  import opened EngineMachine
  import opened EngineInvariant
  import opened EngineShape

  function Limit(orch: Orchestrator, m: Machine): nat {
    match FlowOf(orch, m)
    case None => 0
    case Some(flow) => MaxTotal(orch, flow)
  }

  /** The engine works on the workflow its run names. */
  predicate InFlow(orch: Orchestrator, m: Machine, flow: Flow) { Working(m) && FlowOf(orch, m) == Some(flow) }

  predicate LivePc(orch: Orchestrator, m: Machine) {
    match m.pc
    case Idle => true
    case Loaded(_) => true
    case LoopHead =>
      m.mem.state.IsTerminal() || (m.cycles <= m.mem.total_iterations && (m.cycles > 0 ==> m.mem.total_iterations < Limit(orch, m)))
    case Settling =>
      m.cycles <= m.before && (m.stored.state.IsTerminal() || m.before < m.stored.total_iterations < Limit(orch, m))
    case Failing(_) => Working(m)
    case Marking(flow, _, _) => InFlow(orch, m, flow) && m.cycles <= m.before <= m.mem.total_iterations
    case Guarding(flow, _, _, _) => InFlow(orch, m, flow) && m.cycles <= m.before <= m.mem.total_iterations
    case Recording(v) => InFlow(orch, m, v.flow) && m.cycles <= m.before <= m.mem.total_iterations < Limit(orch, m)
    case Counting(v) => InFlow(orch, m, v.flow) && m.cycles <= m.before <= m.stored.total_iterations < Limit(orch, m)
    case CountWriting(v, loaded) =>
      && InFlow(orch, m, v.flow) && m.cycles <= m.before <= m.stored.total_iterations < Limit(orch, m)
      && loaded.total_iterations == m.stored.total_iterations && loaded.workflow_id == m.stored.workflow_id
      && (loaded.state == m.mem.state || loaded.state.Canceled?)
    case Reloading(v) => InFlow(orch, m, v.flow) && m.cycles <= m.before < m.stored.total_iterations
    case Deciding(v) => InFlow(orch, m, v.flow) && m.cycles <= m.before < m.stored.total_iterations
  }

  /** The counters and states of every run: iterations stay within the limit, the engine's copy
      differs from the store by a cancel at most, each cycle has counted an iteration. */
  predicate LiveInv(orch: Orchestrator, m: Machine) {
    && m.stored.total_iterations <= Limit(orch, m) <= U32_MAX
    && (m.pc != Idle ==> m.mem.workflow_id == m.stored.workflow_id && (m.stored.state == m.mem.state || m.stored.state.Canceled?))
    && (m.pc != Idle && !m.pc.Reloading? ==> m.mem.total_iterations == m.stored.total_iterations)
    && m.result != NoProgress
    && (Limit(orch, m) <= MAX_CYCLES ==> m.result != MaxCyclesExceeded)
    && LivePc(orch, m)
  }

  lemma NewRunLives(orch: Orchestrator, workflow_id: string, now: int)
    ensures LiveInv(orch, NewRun(workflow_id, now))
  {
  }

  lemma LoopHeadLives(orch: Orchestrator, m: Machine, now: int)
    requires LiveInv(orch, m) && m.pc.LoopHead?
    ensures LiveInv(orch, StepLoopHead(orch, m, now)) && SameIds(m, StepLoopHead(orch, m, now))
  {
    hide FindFlow, FindStep, ResolvePointer, MaxTotal;
  }

  lemma DecidingLives(orch: Orchestrator, m: Machine)
    requires LiveInv(orch, m) && m.pc.Deciding?
    ensures LiveInv(orch, StepDeciding(orch, m, m.pc.v)) && SameIds(m, StepDeciding(orch, m, m.pc.v))
  {
    hide EvaluateStep, FindFlow, CanRetry, MaxTotal, ResolveLimits, EnforceSafety;
    LimitsTotal(orch, m.pc.v.flow, m.pc.v.step, m.mem, m.pc.v.ended, m.pc.v.started, m.pc.v.attempt);
  }

  lemma LimitsTotal(orch: Orchestrator, flow: Flow, step: Step, run: RunRecord, now: int, started: int, attempt: nat)
    ensures EnforceSafety(run, ResolveLimits(orch, flow, step), now, started, attempt).None? ==> run.total_iterations < MaxTotal(orch, flow)
  {
    hide MaxTotal;
  }

  predicate SameIds(m: Machine, m': Machine) { m'.stored.workflow_id == m.stored.workflow_id }

  lemma EngineStepLives(orch: Orchestrator, m: Machine, i: Input)
    requires LiveInv(orch, m)
    ensures LiveInv(orch, EngineStep(orch, m, i)) && Limit(orch, EngineStep(orch, m, i)) == Limit(orch, m)
  {
    hide EvaluateStep, FindFlow, CanRetry, MaxTotal, RecordOf, StepDeciding, StepLoopHead, ResolveLimits, EnforceSafety;
    match m.pc
    case LoopHead => LoopHeadLives(orch, m, i.now);
    case Deciding(_) => DecidingLives(orch, m);
    case Guarding(flow, step, attempt, started) => LimitsTotal(orch, flow, step, m.mem, started, started, attempt);
    case _ =>
  }

  /** Every move keeps it, a crash at any moment included. */
  lemma ApplyLives(orch: Orchestrator, m: Machine, move: Move)
    requires LiveInv(orch, m)
    ensures LiveInv(orch, Apply(orch, m, move)) && Limit(orch, Apply(orch, m, move)) == Limit(orch, m)
  {
    hide EngineStep, FindFlow, MaxTotal;
    match move
    case EngineMove(i) => EngineStepLives(orch, m, i);
    case _ =>
  }

  lemma {:induction false} EveryRunLives(orch: Orchestrator, workflow_id: string, now: int, moves: seq<Move>)
    ensures var m := RunMoves(orch, NewRun(workflow_id, now), moves);
            LiveInv(orch, m) && Limit(orch, m) == Limit(orch, NewRun(workflow_id, now))
  {
    hide Apply, LiveInv, Limit;
    if moves == [] {
      NewRunLives(orch, workflow_id, now);
    } else {
      EveryRunLives(orch, workflow_id, now, moves[..|moves| - 1]);
      ApplyLives(orch, RunMoves(orch, NewRun(workflow_id, now), moves[..|moves| - 1]), moves[|moves| - 1]);
    }
  }

  // ----- the measure --------------------------------------------------------------------

  function Rank(pc: Pc): nat {
    match pc
    case Idle => 0
    case Failing(_) => 1
    case CountWriting(_, _) => 2
    case Counting(_) => 3
    case Recording(_) => 4
    case Guarding(_, _, _, _) => 5
    case Marking(_, _, _) => 6
    case LoopHead => 7
    case Loaded(_) => 8
    case Settling => 9
    case Deciding(_) => 10
    case Reloading(_) => 11
  }

  /** Remaining iterations first, then whether the engine still believes the run is open,
      then the distance to the end of the current loop body. */
  function Measure(orch: Orchestrator, m: Machine): int {
    12 * (Limit(orch, m) - m.stored.total_iterations) + (if m.mem.state.IsTerminal() then 0 else 12) + Rank(m.pc)
  }

  lemma EngineStepDecreases(orch: Orchestrator, m: Machine, i: Input)
    requires LiveInv(orch, m) && m.pc != Idle
    ensures 0 <= Measure(orch, EngineStep(orch, m, i)) < Measure(orch, m)
  {
    hide EvaluateStep, FindFlow, FindStep, ResolvePointer, CanRetry, MaxTotal, RecordOf, Limit, ResolveLimits, EnforceSafety;
    EngineStepLives(orch, m, i);
  }

  /** The store is left alone: the run never leaves the states the engine itself writes. */
  predicate Undisturbed(m: Machine) {
    && (m.stored.state.Running? || m.stored.state.Succeeded? || m.stored.state.Failed?
        || (m.pc.Loaded? && m.stored.state.Queued?))
    && (m.pc != Idle && m.pc != Settling && !m.pc.Reloading? ==> m.mem.state == m.stored.state)
    && (m.pc.CountWriting? ==> m.pc.loaded.state == m.stored.state)
    && (m.pc.Idle? ==> m.stored.state.Succeeded? || m.stored.state.Failed? || m.result == MaxCyclesExceeded)
  }

  lemma EngineStepStaysUndisturbed(orch: Orchestrator, m: Machine, i: Input)
    requires LiveInv(orch, m) && Undisturbed(m)
    ensures Undisturbed(EngineStep(orch, m, i))
  {
    hide EvaluateStep, FindFlow, FindStep, ResolvePointer, CanRetry, MaxTotal, RecordOf, ResolveLimits, EnforceSafety, Limit;
  }

  lemma {:induction false} IterateLives(orch: Orchestrator, m: Machine, oracle: nat -> Input, first: nat, k: nat)
    requires LiveInv(orch, m)
    ensures var m' := Iterate(orch, m, oracle, first, k);
            && LiveInv(orch, m')
            && (Undisturbed(m) ==> Undisturbed(m'))
            && Limit(orch, m') == Limit(orch, m)
            && (m'.pc.Idle? || Measure(orch, m') + k <= Measure(orch, m))
  {
    hide LiveInv, Undisturbed, EngineStep, Measure, Limit;
    if k > 0 {
      IterateLives(orch, m, oracle, first, k - 1);
      var prior := Iterate(orch, m, oracle, first, k - 1);
      var i := oracle(first + k - 1);
      EngineStepLives(orch, prior, i);
      if Undisturbed(m) { EngineStepStaysUndisturbed(orch, prior, i); }
      if prior.pc.Idle? { assert EngineStep(orch, prior, i) == prior by { IdleStays(orch, prior, i); } }
      else { EngineStepDecreases(orch, prior, i); }
    }
  }

  lemma IdleStays(orch: Orchestrator, m: Machine, i: Input)
    requires m.pc.Idle?
    ensures EngineStep(orch, m, i) == m
  {
  }

  /** Store operations after which a call has surely ended. */
  function CallBound(orch: Orchestrator, m: Machine): int { 12 * (Limit(orch, m) - m.stored.total_iterations) + 21 }

  /** Every call comes to an end, from every state a run can be in when no call is in progress,
      wherever crashes fell: within 12 times the remaining iterations plus 21 store operations. */
  lemma EveryCallEnds(orch: Orchestrator, m: Machine, call: Call, oracle: nat -> Input, first: nat, k: nat)
    requires LiveInv(orch, m) && m.pc.Idle? && k >= CallBound(orch, m)
    ensures Iterate(orch, BeginCall(m, call), oracle, first, k).pc.Idle?
  {
    hide FindFlow, MaxTotal;
    var m0 := BeginCall(m, call);
    assert LiveInv(orch, m0) && Limit(orch, m0) == Limit(orch, m);
    IterateLives(orch, m0, oracle, first, k);
    var last := Iterate(orch, m0, oracle, first, k);
    assert last.pc.Idle? || Measure(orch, last) >= 0;
  }

  /** Starting or resuming a queued or running run and leaving it alone ends in success or
      failure, or, for limits above 10,000 only, at the cycle guard. */
  lemma OpenRunsEnd(orch: Orchestrator, m: Machine, call: Call, oracle: nat -> Input, first: nat, k: nat)
    requires LiveInv(orch, m) && m.pc.Idle? && k >= CallBound(orch, m)
    requires m.stored.state.Queued? || m.stored.state.Running?
    ensures var m' := Iterate(orch, BeginCall(m, call), oracle, first, k);
            && m'.pc.Idle? && m'.result != NoProgress
            && (m'.stored.state.Succeeded? || m'.stored.state.Failed? || m'.result == MaxCyclesExceeded)
            && (Limit(orch, m) <= MAX_CYCLES ==> m'.result != MaxCyclesExceeded)
  {
    hide FindFlow, MaxTotal;
    var m0 := BeginCall(m, call);
    EveryCallEnds(orch, m, call, oracle, first, k);
    assert LiveInv(orch, m0) && Limit(orch, m0) == Limit(orch, m);
    IterateLives(orch, m0, oracle, first, k);
  }
}
