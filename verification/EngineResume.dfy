/** Resuming completes the run: from every admissible interruption an undisturbed resume ends
    where the uninterrupted run ends, unless a safety limit stops it. */
module EngineResume {
  import opened Prelude
  import opened Workflow
  import opened RunStore
  import opened EngineMachine
  import opened EngineInvariant
  import opened EngineShape
  import opened EngineProgress

  /** What a call reads: inputs `first`, `first + 1`, .. `first + k - 1`. */
  datatype Reading = Reading(oracle: nat -> Input, first: nat, k: nat)

  ghost predicate Reads(r: Reading, t: int) { exists j: nat :: r.first <= j < r.first + r.k && r.oracle(j).now == t }

  /** The last attempt failed for good, with error `e`. */
  predicate FailedForGood(orch: Orchestrator, flow: Flow, log: seq<Exec>, e: EngineError) {
    && log != [] && FrontierOf(orch, flow, log) == Broken
    && FlowStep(flow, log[|log| - 1].step).Some? && ResultAt(flow, log[|log| - 1]) == Err(e)
  }

  /** A clock reading past the time the run may take. */
  ghost predicate RunTimedOut(orch: Orchestrator, flow: Flow, r: Reading, startedAt: int) {
    exists step: Step, t :: Reads(r, t) && t - startedAt > ResolveLimits(orch, flow, step).run_timeout_seconds
  }

  /** Two clock readings further apart than one step may take. */
  ghost predicate StepTimedOut(orch: Orchestrator, flow: Flow, r: Reading) {
    exists step: Step, t, u :: Reads(r, t) && Reads(r, u) && t - u > ResolveLimits(orch, flow, step).step_timeout_seconds
  }

  /** Why a call fails: the run names no workflow, a safety limit is reached, or the last
      attempt failed for good. */
  ghost predicate Why(orch: Orchestrator, m: Machine, r: Reading, startedAt: int, e: EngineError) {
    match FlowOf(orch, m)
    case None => e == UnknownWorkflow
    case Some(flow) =>
      || (e == MaxIterationsExceeded && m.stored.total_iterations >= Limit(orch, m))
      || (e == RunTimeout && RunTimedOut(orch, flow, r, startedAt))
      || (e == StepTimeout && StepTimedOut(orch, flow, r))
      || FailedForGood(orch, flow, m.log, e)
  }

  ghost predicate TimesRead(m: Machine, r: Reading) {
    match m.pc
    case Guarding(_, _, _, started) => Reads(r, started)
    case Recording(v) => Reads(r, v.started) && Reads(r, v.ended)
    case Counting(v) => Reads(r, v.started) && Reads(r, v.ended)
    case CountWriting(v, _) => Reads(r, v.started) && Reads(r, v.ended)
    case Reloading(v) => Reads(r, v.started) && Reads(r, v.ended)
    case Deciding(v) => Reads(r, v.started) && Reads(r, v.ended)
    case _ => true
  }

  predicate StartedAt(m: Machine, t: int) {
    && m.stored.started_at == t && (m.pc != Idle ==> m.mem.started_at == t)
    && (m.pc.CountWriting? ==> m.pc.loaded.started_at == t)
  }

  /** The iterations counted beyond `spare` are attempts in the log. */
  predicate CountedAttempts(m: Machine, spare: int) {
    m.stored.total_iterations + (if m.pc.Counting? || m.pc.CountWriting? then 1 else 0) <= spare + |m.log|
  }

  /** An undisturbed call explains its end. */
  ghost predicate Explained(orch: Orchestrator, m: Machine, r: Reading, startedAt: int) {
    && TimesRead(m, r) && StartedAt(m, startedAt)
    && (m.pc.Failing? ==> Why(orch, m, r, startedAt, m.pc.error))
    && (m.pc != Idle ==> !m.stored.state.Failed?)
    && (m.pc.Idle? ==>
          || m.result == MaxCyclesExceeded
          || (m.stored.state.Succeeded? && m.result == Returned)
          || (m.stored.state.Failed? && m.result.StepFailed? && Why(orch, m, r, startedAt, m.result.error)))
  }

  // ----- one step -----------------------------------------------------------------------

  lemma MoreReads(r: Reading, t: int)
    requires Reads(r, t)
    ensures Reads(r.(k := r.k + 1), t)
  {
    var j: nat :| r.first <= j < r.first + r.k && r.oracle(j).now == t;
    assert r.(k := r.k + 1).oracle(j).now == t;
  }

  lemma NewRead(r: Reading)
    ensures Reads(r.(k := r.k + 1), r.oracle(r.first + r.k).now)
  {
    assert r.(k := r.k + 1).oracle(r.first + r.k).now == r.oracle(r.first + r.k).now;
  }

  lemma WhyStays(orch: Orchestrator, m: Machine, m': Machine, r: Reading, startedAt: int, e: EngineError)
    requires Why(orch, m, r, startedAt, e)
    requires m'.stored.workflow_id == m.stored.workflow_id && m'.log == m.log && m'.stored.total_iterations == m.stored.total_iterations
    ensures Why(orch, m', r.(k := r.k + 1), startedAt, e)
  {
    hide FindFlow, FrontierOf, ResolveLimits, Reads;
    var r' := r.(k := r.k + 1);
    if FlowOf(orch, m).Some? {
      var flow := FlowOf(orch, m).value;
      if RunTimedOut(orch, flow, r, startedAt) {
        var step: Step, t :| Reads(r, t) && t - startedAt > ResolveLimits(orch, flow, step).run_timeout_seconds;
        MoreReads(r, t);
      }
      if StepTimedOut(orch, flow, r) {
        var step: Step, t, u :| Reads(r, t) && Reads(r, u) && t - u > ResolveLimits(orch, flow, step).step_timeout_seconds;
        MoreReads(r, t);
        MoreReads(r, u);
      }
    }
  }

  /** The next attempt is always at a declared step, within its retries. */
  lemma FrontierIsDeclared(orch: Orchestrator, flow: Flow, log: seq<Exec>)
    requires FrontierOf(orch, flow, log).At? && LegalLog(orch, flow, log)
    ensures var f := FrontierOf(orch, flow, log);
            FlowStep(flow, f.step).Some? && f.attempt <= ResolveLimits(orch, flow, FlowStep(flow, f.step).value).max_retries + 1
  {
    hide ResolveLimits, LegalLog;
    if log == [] {
      assert Position(flow.steps, flow.steps[0].id) == 0;
    }
  }

  lemma LastEntryIsLegal(orch: Orchestrator, flow: Flow, log: seq<Exec>)
    requires LegalLog(orch, flow, log) && log != []
    ensures var e := log[|log| - 1];
            FlowStep(flow, e.step).Some? && e.attempt <= ResolveLimits(orch, flow, FlowStep(flow, e.step).value).max_retries + 1
  {
    assert LegalEntry(orch, flow, log[..|log| - 1], log[|log| - 1]);
  }

  /** A refusal names the limit that is reached; the retry limit never is. */
  lemma RefusalIsExplained(orch: Orchestrator, m: Machine, m': Machine, r: Reading, startedAt: int,
                           flow: Flow, step: Step, now: int, started: int, attempt: nat)
    requires FlowOf(orch, m) == Some(flow) && Reads(r, now) && Reads(r, started)
    requires m.mem.started_at == startedAt && m.mem.total_iterations == m.stored.total_iterations
    requires attempt <= ResolveLimits(orch, flow, step).max_retries + 1
    requires EnforceSafety(m.mem, ResolveLimits(orch, flow, step), now, started, attempt).Some?
    requires m'.stored == m.stored && m'.log == m.log
    ensures Why(orch, m', r, startedAt, EnforceSafety(m.mem, ResolveLimits(orch, flow, step), now, started, attempt).value)
  {
    hide FindFlow, FrontierOf, Reads, MaxTotal;
    LimitsTotal(orch, flow, step, m.mem, now, started, attempt);
  }

  lemma GuardingExplains(orch: Orchestrator, m: Machine, r: Reading, startedAt: int, i: Input)
    requires Inv(orch, m) && LiveInv(orch, m) && Undisturbed(m) && Explained(orch, m, r, startedAt) && m.pc.Guarding?
    requires i == r.oracle(r.first + r.k)
    ensures Explained(orch, EngineStep(orch, m, i), r.(k := r.k + 1), startedAt)
  {
    hide FindFlow, FindStep, FrontierOf, Reads, ResolveLimits, EnforceSafety, LegalLog, Why, EvaluateStep, Limit;
    var pc := m.pc;
    var r' := r.(k := r.k + 1);
    NewRead(r);
    MoreReads(r, pc.started);
    FrontierIsDeclared(orch, pc.flow, m.log);
    var m' := EngineStep(orch, m, i);
    if m'.pc.Failing? {
      RefusalIsExplained(orch, m, m', r', startedAt, pc.flow, pc.step, pc.started, pc.started, pc.attempt);
    }
  }

  lemma DecidingExplains(orch: Orchestrator, m: Machine, r: Reading, startedAt: int, i: Input)
    requires Inv(orch, m) && LiveInv(orch, m) && Undisturbed(m) && Explained(orch, m, r, startedAt) && m.pc.Deciding?
    ensures Explained(orch, EngineStep(orch, m, i), r.(k := r.k + 1), startedAt)
  {
    hide FindFlow, FindStep, Reads, ResolveLimits, EnforceSafety, LegalLog, Why, EvaluateStep, Limit, CanRetry, FrontierOf;
    var v := m.pc.v;
    var r' := r.(k := r.k + 1);
    MoreReads(r, v.started);
    MoreReads(r, v.ended);
    LastEntryIsLegal(orch, v.flow, m.log);
    var m' := EngineStep(orch, m, i);
    if m'.pc.Failing? {
      if EnforceSafety(m.mem, ResolveLimits(orch, v.flow, v.step), v.ended, v.started, v.attempt).Some? {
        RefusalIsExplained(orch, m, m', r', startedAt, v.flow, v.step, v.ended, v.started, v.attempt);
      } else {
        FailureIsForGood(orch, m, v);
        assert Why(orch, m', r', startedAt, m'.pc.error) by { ForGoodIsWhy(orch, m', r', startedAt, v.flow, m'.pc.error); }
      }
    }
  }

  lemma FailureIsForGood(orch: Orchestrator, m: Machine, v: Visit)
    requires RecordedVisit(orch, m, v) && VisitResult(v).Err? && !CanRetry(orch, v.flow, v.step, v.attempt, v.outcome)
    ensures FailedForGood(orch, v.flow, m.log, VisitResult(v).error)
  {
    hide EvaluateStep, FindStep, CanRetry;
  }

  lemma ForGoodIsWhy(orch: Orchestrator, m: Machine, r: Reading, startedAt: int, flow: Flow, e: EngineError)
    requires FlowOf(orch, m) == Some(flow) && FailedForGood(orch, flow, m.log, e)
    ensures Why(orch, m, r, startedAt, e)
  {
  }

  lemma LoopHeadExplains(orch: Orchestrator, m: Machine, r: Reading, startedAt: int, i: Input)
    requires Inv(orch, m) && LiveInv(orch, m) && Undisturbed(m) && Explained(orch, m, r, startedAt) && m.pc.LoopHead?
    ensures Explained(orch, EngineStep(orch, m, i), r.(k := r.k + 1), startedAt)
  {
    hide FindFlow, FindStep, Reads, LegalLog, ResolvePointer, FrontierOf, Limit;
    if m.mem.state.Running? && FlowOf(orch, m).Some? {
      var flow := FlowOf(orch, m).value;
      if FrontierOf(orch, flow, m.log).At? { FrontierIsDeclared(orch, flow, m.log); }
    }
  }

  lemma StepExplains(orch: Orchestrator, m: Machine, r: Reading, startedAt: int, i: Input)
    requires Inv(orch, m) && LiveInv(orch, m) && Undisturbed(m) && Explained(orch, m, r, startedAt)
    requires i == r.oracle(r.first + r.k)
    ensures Explained(orch, EngineStep(orch, m, i), r.(k := r.k + 1), startedAt)
  {
    hide FindFlow, Reads, Why, FrontierOf, Limit, StepLoopHead, StepGuarding, StepDeciding, Inv, LivePc, RecordOf;
    NewRead(r);
    match m.pc
    case LoopHead => LoopHeadExplains(orch, m, r, startedAt, i);
    case Guarding(_, _, _, _) => GuardingExplains(orch, m, r, startedAt, i);
    case Deciding(_) => DecidingExplains(orch, m, r, startedAt, i);
    case Recording(v) => MoreReads(r, v.started); MoreReads(r, v.ended);
    case Counting(v) => MoreReads(r, v.started); MoreReads(r, v.ended);
    case CountWriting(v, _) => MoreReads(r, v.started); MoreReads(r, v.ended);
    case Reloading(v) => MoreReads(r, v.started); MoreReads(r, v.ended);
    case Failing(_) => FailingExplains(orch, m, r, startedAt, i);
    case Idle => if m.result.StepFailed? && m.stored.state.Failed? && m.result != MaxCyclesExceeded { WhyStays(orch, m, m, r, startedAt, m.result.error); }
    case _ => OuterExplains(orch, m, r, startedAt, i);
  }

  lemma OuterExplains(orch: Orchestrator, m: Machine, r: Reading, startedAt: int, i: Input)
    requires LiveInv(orch, m) && Undisturbed(m) && Explained(orch, m, r, startedAt)
    requires m.pc.Loaded? || m.pc.Marking? || m.pc.Settling?
    requires i == r.oracle(r.first + r.k)
    ensures Explained(orch, EngineStep(orch, m, i), r.(k := r.k + 1), startedAt)
  {
    hide FindFlow, Reads, Why, FrontierOf, Limit;
    NewRead(r);
  }

  lemma FailingExplains(orch: Orchestrator, m: Machine, r: Reading, startedAt: int, i: Input)
    requires LiveInv(orch, m) && Undisturbed(m) && Explained(orch, m, r, startedAt) && m.pc.Failing?
    ensures Explained(orch, EngineStep(orch, m, i), r.(k := r.k + 1), startedAt)
  {
    hide FindFlow, Reads, Why, FrontierOf, Limit;
    WhyStays(orch, m, EngineStep(orch, m, i), r, startedAt, m.pc.error);
  }

  // ----- a whole call -------------------------------------------------------------------

  /** Attempts turn out as the world says. */
  ghost predicate Faithful(orch: Orchestrator, world: World, m: Machine, r: Reading) {
    forall j: nat :: j < r.k && Iterate(orch, m, r.oracle, r.first, j).pc.Guarding? ==>
      r.oracle(r.first + j).outcome == world(Iterate(orch, m, r.oracle, r.first, j).log)
  }

  lemma CountedStays(orch: Orchestrator, m: Machine, i: Input, spare: int)
    requires LiveInv(orch, m) && CountedAttempts(m, spare)
    ensures CountedAttempts(EngineStep(orch, m, i), spare)
  {
    hide FindFlow, FindStep, ResolvePointer, EvaluateStep, CanRetry, ResolveLimits, EnforceSafety, RecordOf, Limit;
  }

  lemma {:induction false} CallExplains(orch: Orchestrator, world: World, m: Machine, r: Reading, startedAt: int, spare: int)
    requires Inv(orch, m) && LiveInv(orch, m) && Undisturbed(m) && WorldInv(world, m) && CountedAttempts(m, spare)
    requires Explained(orch, m, r.(k := 0), startedAt) && Faithful(orch, world, m, r)
    ensures var m' := Iterate(orch, m, r.oracle, r.first, r.k);
            && Inv(orch, m') && LiveInv(orch, m') && Undisturbed(m') && WorldInv(world, m') && CountedAttempts(m', spare)
            && Explained(orch, m', r, startedAt) && m'.stored.workflow_id == m.stored.workflow_id
    decreases r.k
  {
    hide Inv, LiveInv, Undisturbed, WorldInv, EngineStep, CountedAttempts, Explained;
    if r.k == 0 {
      assert r.(k := 0) == r;
    } else {
      var s := r.(k := r.k - 1);
      assert s.(k := 0) == r.(k := 0) && s.(k := s.k + 1) == r;
      CallExplains(orch, world, m, s, startedAt, spare);
      var prior := Iterate(orch, m, r.oracle, r.first, s.k);
      var i := r.oracle(r.first + s.k);
      assert prior.pc.Guarding? ==> i.outcome == world(prior.log);
      ApplyKeepsInv(orch, world, prior, EngineMove(i));
      EngineStepLives(orch, prior, i);
      EngineStepStaysUndisturbed(orch, prior, i);
      CountedStays(orch, prior, i, spare);
      StepExplains(orch, prior, s, startedAt, i);
      StepKeepsId(orch, prior, i);
    }
  }

  lemma StepKeepsId(orch: Orchestrator, m: Machine, i: Input)
    requires LiveInv(orch, m)
    ensures EngineStep(orch, m, i).stored.workflow_id == m.stored.workflow_id
  {
    hide FindFlow, FindStep, ResolvePointer, EvaluateStep, CanRetry, ResolveLimits, EnforceSafety, RecordOf, Limit;
  }

  // ----- resuming completes the run -----------------------------------------------------

  /** How a resume can end, given the attempts `full` of a run that went to its end. */
  ghost predicate EndsAsIn(orch: Orchestrator, flow: Flow, m: Machine, full: seq<Exec>, r: Reading, startedAt: int) {
    && m.pc.Idle? && m.log <= full
    && (|| (m.stored.state.Succeeded? && m.result == Returned && m.log == full && FrontierOf(orch, flow, full) == Complete)
        || (m.stored.state.Failed? && m.result.StepFailed? && m.log == full && FailedForGood(orch, flow, full, m.result.error))
        || (m.stored.state.Failed? && m.result == StepFailed(MaxIterationsExceeded) && m.stored.total_iterations >= Limit(orch, m))
        || (m.stored.state.Failed? && m.result == StepFailed(RunTimeout) && RunTimedOut(orch, flow, r, startedAt))
        || (m.stored.state.Failed? && m.result == StepFailed(StepTimeout) && StepTimedOut(orch, flow, r))
        || (m.result == MaxCyclesExceeded && Limit(orch, m) > MAX_CYCLES))
  }

  lemma EndIsExplained(orch: Orchestrator, world: World, flow: Flow, m: Machine, full: seq<Exec>, r: Reading, startedAt: int)
    requires Inv(orch, m) && LiveInv(orch, m) && WorldInv(world, m) && Explained(orch, m, r, startedAt) && m.pc.Idle?
    requires FlowOf(orch, m) == Some(flow)
    requires LegalLog(orch, flow, full) && LogFrom(world, full) && !FrontierOf(orch, flow, full).At?
    ensures EndsAsIn(orch, flow, m, full, r, startedAt)
  {
    hide FindFlow, FrontierOf, LegalLog, LogFrom, PcInv, FreshInv, LastRecordInv, LivePc, RunTimedOut, StepTimedOut, FailedForGood, Limit;
    EndedLogIsLongest(orch, flow, world, full, m.log);
    if !FrontierOf(orch, flow, m.log).At? { EndedLogIsLongest(orch, flow, world, m.log, full); }
    if m.result.StepFailed? && FailedForGood(orch, flow, m.log, m.result.error) {
      ForGoodIsEnd(orch, flow, m.log, m.result.error);
    }
  }

  lemma ForGoodIsEnd(orch: Orchestrator, flow: Flow, log: seq<Exec>, e: EngineError)
    requires FailedForGood(orch, flow, log, e)
    ensures FrontierOf(orch, flow, log) == Broken
  {
  }

  lemma BeginExplains(orch: Orchestrator, m: Machine, r: Reading)
    requires m.pc.Idle? && (m.stored.state.Queued? || m.stored.state.Running?)
    ensures Undisturbed(BeginCall(m, Resume)) && Explained(orch, BeginCall(m, Resume), r, m.stored.started_at)
  {
  }

  /** Resume refines the uninterrupted run, both ways: after any admissible interruptions, an
      undisturbed resume in the same world ends; it ends in success with the same attempts, or
      with the same final step failure, or because a safety limit is reached (or, for limits
      above 10,000 only, at the cycle guard). `moves1` leads to the end of some run. */
  lemma ResumeCompletes(orch: Orchestrator, world: World, workflow_id: string, now1: int, moves1: seq<Move>,
                        now2: int, moves2: seq<Move>, r: Reading)
    requires AdmissibleRun(orch, world, NewRun(workflow_id, now1), moves1)
    requires AdmissibleRun(orch, world, NewRun(workflow_id, now2), moves2)
    requires var m1 := RunMoves(orch, NewRun(workflow_id, now1), moves1);
             FlowOf(orch, m1).Some? && !FrontierOf(orch, FlowOf(orch, m1).value, m1.log).At?
    requires var m2 := RunMoves(orch, NewRun(workflow_id, now2), moves2);
             && m2.pc.Idle? && (m2.stored.state.Queued? || m2.stored.state.Running?)
             && r.k >= CallBound(orch, m2) && Faithful(orch, world, BeginCall(m2, Resume), r)
    ensures var m1 := RunMoves(orch, NewRun(workflow_id, now1), moves1);
            var m2 := RunMoves(orch, NewRun(workflow_id, now2), moves2);
            var m' := Iterate(orch, BeginCall(m2, Resume), r.oracle, r.first, r.k);
            && m2.log <= m1.log
            && EndsAsIn(orch, FlowOf(orch, m1).value, m', m1.log, r, m2.stored.started_at)
            && CountedAttempts(m', m2.stored.total_iterations - |m2.log|)
            && Limit(orch, m') == Limit(orch, m2)
  {
    hide Inv, LiveInv, Undisturbed, WorldInv, EngineStep, Explained, EndsAsIn, AdmissibleRun, Apply, FrontierOf, LegalLog, LogFrom,
      CallBound, FindFlow, Faithful, Limit;
    var n1, n2 := NewRun(workflow_id, now1), NewRun(workflow_id, now2);
    var m1, m2 := RunMoves(orch, n1, moves1), RunMoves(orch, n2, moves2);
    RunFacts(orch, world, workflow_id, now1, moves1);
    RunFacts(orch, world, workflow_id, now2, moves2);
    var flow := FlowOf(orch, m1).value;
    EndedLogIsLongest(orch, flow, world, m1.log, m2.log);
    var m0 := BeginCall(m2, Resume);
    BeginCallKeepsInv(orch, m2, Resume);
    ApplyLives(orch, m2, CallMove(Resume));
    BeginFacts(orch, world, m2);
    BeginExplains(orch, m2, r.(k := 0));
    var spare := m2.stored.total_iterations - |m2.log|;
    CallExplains(orch, world, m0, r, m2.stored.started_at, spare);
    EveryCallEnds(orch, m2, Resume, r.oracle, r.first, r.k);
    IterateLives(orch, m0, r.oracle, r.first, r.k);
    EndIsExplained(orch, world, flow, Iterate(orch, m0, r.oracle, r.first, r.k), m1.log, r, m2.stored.started_at);
  }

  lemma BeginFacts(orch: Orchestrator, world: World, m: Machine)
    requires m.pc.Idle? && WorldInv(world, m)
    ensures var m0 := BeginCall(m, Resume);
            && Apply(orch, m, CallMove(Resume)) == m0 && WorldInv(world, m0)
            && CountedAttempts(m0, m.stored.total_iterations - |m.log|)
            && Limit(orch, m0) == Limit(orch, m) && m0.stored == m.stored
  {
  }

  lemma RunFacts(orch: Orchestrator, world: World, workflow_id: string, now: int, moves: seq<Move>)
    requires AdmissibleRun(orch, world, NewRun(workflow_id, now), moves)
    ensures var m := RunMoves(orch, NewRun(workflow_id, now), moves);
            && Inv(orch, m) && LiveInv(orch, m) && WorldInv(world, m) && LogFrom(world, m.log)
            && m.stored.workflow_id == workflow_id && FlowOf(orch, m) == FindFlow(orch.workflows, workflow_id)
            && (FlowOf(orch, m).Some? ==> LegalLog(orch, FlowOf(orch, m).value, m.log))
  {
    hide Apply, FindFlow, LegalLog, PcInv, FreshInv, LastRecordInv, LiveInv, LogFrom, FrontierOf;
    NewRunInv(orch, workflow_id, now);
    NewRunWorld(world, workflow_id, now);
    RunKeepsInv(orch, world, NewRun(workflow_id, now), moves);
    WorkflowIdIsConstant(orch, NewRun(workflow_id, now), moves);
    EveryRunLives(orch, workflow_id, now, moves);
  }

  lemma NewRunWorld(world: World, workflow_id: string, now: int)
    ensures WorldInv(world, NewRun(workflow_id, now))
  {
  }

  /** No limit is in the way: the iterations left cover the attempts still to come, and no
      clock reading is late. */
  ghost predicate RoomToFinish(orch: Orchestrator, flow: Flow, m: Machine, full: seq<Exec>, r: Reading) {
    && m.stored.total_iterations + |full| - |m.log| < Limit(orch, m) <= MAX_CYCLES
    && !RunTimedOut(orch, flow, r, m.stored.started_at) && !StepTimedOut(orch, flow, r)
  }

  /** When no safety limit is in the way, the resumed run ends exactly as the uninterrupted one:
      success with the same attempts, or the same failure after them. */
  lemma ResumeEndsTheSame(orch: Orchestrator, world: World, workflow_id: string, now1: int, moves1: seq<Move>,
                          now2: int, moves2: seq<Move>, r: Reading)
    requires AdmissibleRun(orch, world, NewRun(workflow_id, now1), moves1)
    requires AdmissibleRun(orch, world, NewRun(workflow_id, now2), moves2)
    requires var m1 := RunMoves(orch, NewRun(workflow_id, now1), moves1);
             FlowOf(orch, m1).Some? && !FrontierOf(orch, FlowOf(orch, m1).value, m1.log).At?
    requires var m1 := RunMoves(orch, NewRun(workflow_id, now1), moves1);
             var m2 := RunMoves(orch, NewRun(workflow_id, now2), moves2);
             && m2.pc.Idle? && (m2.stored.state.Queued? || m2.stored.state.Running?)
             && r.k >= CallBound(orch, m2) && Faithful(orch, world, BeginCall(m2, Resume), r)
             && RoomToFinish(orch, FlowOf(orch, m1).value, m2, m1.log, r)
    ensures var m1 := RunMoves(orch, NewRun(workflow_id, now1), moves1);
            var m2 := RunMoves(orch, NewRun(workflow_id, now2), moves2);
            var m' := Iterate(orch, BeginCall(m2, Resume), r.oracle, r.first, r.k);
            var flow := FlowOf(orch, m1).value;
            && m'.pc.Idle? && m'.log == m1.log
            && (FrontierOf(orch, flow, m1.log) == Complete ==> m'.stored.state.Succeeded? && m'.result == Returned)
            && (FrontierOf(orch, flow, m1.log) == Broken ==>
                  m'.stored.state.Failed? && m'.result.StepFailed? && FailedForGood(orch, flow, m1.log, m'.result.error))
  {
    hide AdmissibleRun, Apply, FrontierOf, CallBound, FindFlow, Faithful, Limit, RunTimedOut, StepTimedOut, FailedForGood;
    ResumeCompletes(orch, world, workflow_id, now1, moves1, now2, moves2, r);
    var m1 := RunMoves(orch, NewRun(workflow_id, now1), moves1);
    var m' := Iterate(orch, BeginCall(RunMoves(orch, NewRun(workflow_id, now2), moves2), Resume), r.oracle, r.first, r.k);
    var flow := FlowOf(orch, m1).value;
    if m'.result.StepFailed? && FailedForGood(orch, flow, m1.log, m'.result.error) {
      ForGoodIsEnd(orch, flow, m1.log, m'.result.error);
    }
  }
}
