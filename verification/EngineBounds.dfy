/** How much a run without crashes can execute. */
module EngineBounds {
  import opened Prelude
  import opened Workflow
  import opened RunStore
  import opened EngineMachine
  import opened EngineInvariant
  import opened EngineShape
  import opened EngineProgress

  /** Nothing is recorded, or the limit is not reached and a fresh step comes next. */
  predicate AtBoundary(orch: Orchestrator, m: Machine) {
    || m.log == []
    || (FlowOf(orch, m).Some? && |m.log| < Limit(orch, m)
        && var f := FrontierOf(orch, FlowOf(orch, m).value, m.log);
           f.At? && f.attempt == 1)
  }

  predicate BoundaryInv(orch: Orchestrator, m: Machine) {
    match m.pc
    case Idle => m.stored.state.IsTerminal() || AtBoundary(orch, m)
    case Loaded(_) => m.mem.state.IsTerminal() || AtBoundary(orch, m)
    case LoopHead => m.mem.state.IsTerminal() || AtBoundary(orch, m)
    case Settling => m.stored.state.IsTerminal() || AtBoundary(orch, m)
    case _ => true
  }

  predicate TallyInv(orch: Orchestrator, m: Machine) {
    && |m.log| == m.stored.total_iterations + (if m.pc.Counting? || m.pc.CountWriting? then 1 else 0)
    && m.executed == |m.log| + (if m.pc.Recording? then 1 else 0)
    && (m.stored.state.Succeeded? ==>
          |m.log| < Limit(orch, m) || (m.log == [] && FlowOf(orch, m).Some? && FlowOf(orch, m).value.steps == []))
    && BoundaryInv(orch, m)
  }

  /** The counters of a run without crashes, whatever cancels it sees. */
  predicate CountInv(orch: Orchestrator, m: Machine) { LiveInv(orch, m) && TallyInv(orch, m) }

  lemma NewRunCounts(orch: Orchestrator, workflow_id: string, now: int)
    ensures CountInv(orch, NewRun(workflow_id, now))
  {
  }

  lemma BeginCallKeepsCounts(orch: Orchestrator, m: Machine, call: Call)
    requires CountInv(orch, m) && m.pc.Idle?
    ensures CountInv(orch, BeginCall(m, call))
  {
    hide FindFlow, FrontierOf, MaxTotal;
  }

  lemma CancelKeepsCounts(orch: Orchestrator, m: Machine)
    requires CountInv(orch, m)
    ensures CountInv(orch, Cancel(m))
  {
    hide FindFlow, FrontierOf, MaxTotal;
  }

  lemma DecidingKeepsCounts(orch: Orchestrator, m: Machine)
    requires Inv(orch, m) && CountInv(orch, m) && m.pc.Deciding?
    ensures TallyInv(orch, StepDeciding(orch, m, m.pc.v))
  {
    hide EvaluateStep, FindFlow, FindStep, LegalLog, ResolvePointer, CanRetry, MaxTotal, LogInv, FreshInv, LastRecordInv, RecordOf;
  }

  lemma LoopHeadKeepsCounts(orch: Orchestrator, m: Machine, now: int)
    requires Inv(orch, m) && CountInv(orch, m) && m.pc.LoopHead?
    ensures TallyInv(orch, StepLoopHead(orch, m, now))
  {
    hide EvaluateStep, FindFlow, FindStep, LegalLog, CanRetry, MaxTotal, FreshInv, LastRecordInv, RecordOf, ResolvePointer;
    if m.mem.state.Running? && FlowOf(orch, m).Some? {
      var flow := FlowOf(orch, m).value;
      assert ResolvePointer(m.attempts, m.mem, flow).None? ==> FrontierOf(orch, flow, m.log) == Complete;
    }
  }

  lemma VisitKeepsCounts(orch: Orchestrator, m: Machine, i: Input)
    requires Inv(orch, m) && CountInv(orch, m) && (m.pc.Marking? || m.pc.Guarding? || m.pc.Recording? || m.pc.CountWriting?)
    ensures TallyInv(orch, EngineStep(orch, m, i))
  {
    hide EvaluateStep, FindFlow, FindStep, LegalLog, ResolvePointer, CanRetry, MaxTotal, LogInv, FreshInv,
      LastRecordInv, RecordOf, FrontierOf;
  }

  lemma EngineStepKeepsCounts(orch: Orchestrator, m: Machine, i: Input)
    requires Inv(orch, m) && CountInv(orch, m)
    ensures CountInv(orch, EngineStep(orch, m, i))
  {
    hide FindFlow, MaxTotal, LogInv, FreshInv, LastRecordInv, FrontierOf, PcInv, AtBoundary,
      StepDeciding, StepLoopHead, StepGuarding, StepRecording, LivePc;
    EngineStepLives(orch, m, i);
    match m.pc
    case Deciding(v) => DecidingKeepsCounts(orch, m);
    case LoopHead => LoopHeadKeepsCounts(orch, m, i.now);
    case Guarding(_, _, _, _) => VisitKeepsCounts(orch, m, i);
    case Recording(_) => VisitKeepsCounts(orch, m, i);
    case CountWriting(_, _) => VisitKeepsCounts(orch, m, i);
    case Loaded(_) => BoundaryFrame(orch, m, EngineStep(orch, m, i));
    case Settling => BoundaryFrame(orch, m, EngineStep(orch, m, i));
    case Marking(_, _, _) => VisitKeepsCounts(orch, m, i);
    case _ =>
  }

  lemma BoundaryFrame(orch: Orchestrator, m: Machine, m': Machine)
    requires m.log == m'.log && m.stored.workflow_id == m'.stored.workflow_id
    ensures AtBoundary(orch, m) == AtBoundary(orch, m')
  {
  }

  /** Executed attempts never exceed the limit, and a success stays strictly below it exactly
      when the limit is not zero; with a limit of zero only an empty workflow succeeds. */
  lemma BoundedExecution(orch: Orchestrator, m: Machine)
    requires Inv(orch, m) && CountInv(orch, m)
    ensures m.executed <= Limit(orch, m)
    ensures m.stored.state.Succeeded? ==>
              && (m.stored.total_iterations < Limit(orch, m) <==> Limit(orch, m) > 0)
              && (Limit(orch, m) == 0 ==> FlowOf(orch, m).value.steps == [] && m.executed == 0)
  {
    hide FindFlow, FrontierOf, MaxTotal;
  }

  lemma {:induction false} IterateKeeps(orch: Orchestrator, m: Machine, oracle: nat -> Input, first: nat, k: nat)
    requires Inv(orch, m)
    ensures var m' := Iterate(orch, m, oracle, first, k);
            Inv(orch, m') && (CountInv(orch, m) ==> CountInv(orch, m'))
  {
    hide Inv, CountInv, EngineStep;
    if k > 0 {
      IterateKeeps(orch, m, oracle, first, k - 1);
      var prior := Iterate(orch, m, oracle, first, k - 1);
      var i := oracle(first + k - 1);
      EngineStepKeepsInv(orch, prior, i);
      if CountInv(orch, m) { EngineStepKeepsCounts(orch, prior, i); }
    }
  }

  // ----- whole runs ---------------------------------------------------------------------

  lemma ApplyKeepsCounts(orch: Orchestrator, m: Machine, move: Move)
    requires Inv(orch, m) && CountInv(orch, m) && !move.CrashMove?
    ensures Inv(orch, Apply(orch, m, move)) && CountInv(orch, Apply(orch, m, move))
    ensures Limit(orch, Apply(orch, m, move)) == Limit(orch, m)
  {
    hide Inv, LiveInv, TallyInv, EngineStep, FindFlow, MaxTotal;
    match move
    case EngineMove(i) =>
      EngineStepKeepsInv(orch, m, i);
      EngineStepKeepsCounts(orch, m, i);
      EngineStepLives(orch, m, i);
    case CallMove(call) =>
      if m.pc.Idle? {
        BeginCallKeepsInv(orch, m, call);
        BeginCallKeepsCounts(orch, m, call);
      }
    case CancelMove =>
      CancelKeepsInv(orch, m);
      CancelKeepsCounts(orch, m);
    case CrashMove =>
  }

  /** Over a whole run without crashes, with any number of resumes and cancels anywhere, at most
      `max_total_iterations` attempts execute; a success stays strictly below the limit if and
      only if the limit is not zero, and with a limit of zero it has executed nothing; the guards
      against endless loops stay silent. */
  lemma {:induction false} WholeRunIsBounded(orch: Orchestrator, workflow_id: string, now: int, moves: seq<Move>)
    requires forall i :: 0 <= i < |moves| ==> !moves[i].CrashMove?
    ensures var m := RunMoves(orch, NewRun(workflow_id, now), moves);
            var limit := Limit(orch, NewRun(workflow_id, now));
            && Inv(orch, m) && CountInv(orch, m) && Limit(orch, m) == limit
            && m.executed <= limit
            && (m.stored.state.Succeeded? ==>
                  && (m.stored.total_iterations < limit <==> limit > 0)
                  && (limit == 0 ==> FlowOf(orch, m).value.steps == [] && m.executed == 0))
            && m.result != NoProgress && (limit <= MAX_CYCLES ==> m.result != MaxCyclesExceeded)
  {
    hide Apply, FindFlow, MaxTotal, FrontierOf, LogInv, PcInv, FreshInv, LastRecordInv, LivePc, BoundaryInv;
    if moves == [] {
      NewRunInv(orch, workflow_id, now);
      NewRunCounts(orch, workflow_id, now);
    } else {
      var init := moves[..|moves| - 1];
      WholeRunIsBounded(orch, workflow_id, now, init);
      ApplyKeepsCounts(orch, RunMoves(orch, NewRun(workflow_id, now), init), moves[|moves| - 1]);
    }
    BoundedExecution(orch, RunMoves(orch, NewRun(workflow_id, now), moves));
  }

  // ----- runs with crashes --------------------------------------------------------------

  /** An attempt has executed and is not yet counted. */
  predicate MidAttempt(m: Machine) { m.pc.Recording? || m.pc.Counting? || m.pc.CountWriting? }

  /** The crashes that fall between the execution of an attempt and its count. */
  function Uncounted(orch: Orchestrator, m: Machine, moves: seq<Move>): nat {
    if moves == [] then 0
    else
      var init := moves[..|moves| - 1];
      Uncounted(orch, m, init) + (if moves[|moves| - 1].CrashMove? && MidAttempt(RunMoves(orch, m, init)) then 1 else 0)
  }

  function Crashes(moves: seq<Move>): nat {
    if moves == [] then 0 else Crashes(moves[..|moves| - 1]) + (if moves[|moves| - 1].CrashMove? then 1 else 0)
  }

  /** Executed attempts are counted, in progress, or cut off before their count. */
  predicate Tally(m: Machine, uncounted: nat) {
    m.executed == m.stored.total_iterations + (if MidAttempt(m) then 1 else 0) + uncounted
  }

  lemma ApplyKeepsTally(orch: Orchestrator, m: Machine, move: Move, uncounted: nat)
    requires LiveInv(orch, m) && Tally(m, uncounted)
    ensures Tally(Apply(orch, m, move), uncounted + (if move.CrashMove? && MidAttempt(m) then 1 else 0))
  {
    hide EvaluateStep, FindFlow, FindStep, ResolvePointer, CanRetry, MaxTotal, RecordOf, ResolveLimits, EnforceSafety, Limit;
  }

  /** Over every run, crashes at any moment included: each executed attempt is counted, in
      progress, or was cut off by a crash before its count; so at most one more than the limit
      executes for each such crash. */
  lemma {:induction false} EveryRunIsBounded(orch: Orchestrator, workflow_id: string, now: int, moves: seq<Move>)
    ensures var start := NewRun(workflow_id, now);
            var m := RunMoves(orch, start, moves);
            && Tally(m, Uncounted(orch, start, moves))
            && m.executed <= Limit(orch, start) + Uncounted(orch, start, moves)
            && Uncounted(orch, start, moves) <= Crashes(moves)
  {
    hide Apply, LiveInv, MidAttempt, FindFlow;
    var start := NewRun(workflow_id, now);
    if moves == [] {
      assert !MidAttempt(start) by { NothingStarted(workflow_id, now); }
    } else {
      var init := moves[..|moves| - 1];
      EveryRunIsBounded(orch, workflow_id, now, init);
      EveryRunLives(orch, workflow_id, now, init);
      ApplyKeepsTally(orch, RunMoves(orch, start, init), moves[|moves| - 1], Uncounted(orch, start, init));
    }
    EveryRunLives(orch, workflow_id, now, moves);
    RoomForAttempt(orch, RunMoves(orch, start, moves));
  }

  lemma NothingStarted(workflow_id: string, now: int)
    ensures !MidAttempt(NewRun(workflow_id, now))
  {
  }

  lemma RoomForAttempt(orch: Orchestrator, m: Machine)
    requires LiveInv(orch, m)
    ensures m.stored.total_iterations + (if MidAttempt(m) then 1 else 0) <= Limit(orch, m)
  {
    hide FindFlow, MaxTotal;
  }

  /** Every successful run without crashes: a path of declared steps from the first listed one
      to the last, by decision, `next` or list order, with its retries numbered. */
  lemma WholeRunShape(orch: Orchestrator, workflow_id: string, now: int, moves: seq<Move>)
    requires forall i :: 0 <= i < |moves| ==> !moves[i].CrashMove?
    requires RunMoves(orch, NewRun(workflow_id, now), moves).stored.state.Succeeded?
    ensures var m := RunMoves(orch, NewRun(workflow_id, now), moves);
            FlowOf(orch, m).Some? &&
            var flow := FlowOf(orch, m).value;
            && IsPath(orch, flow, m.log)
            && (m.log == [] <==> flow.steps == [])
            && (m.log != [] ==>
                  var last := m.log[|m.log| - 1];
                  && flow.steps[|flow.steps| - 1].id == last.step
                  && flow.steps[|flow.steps| - 1].kind == AgentTask && flow.steps[|flow.steps| - 1].next == None)
  {
    hide Inv, CountInv, IsPath, FindFlow, RunMoves;
    WholeRunIsBounded(orch, workflow_id, now, moves);
    SuccessfulRunShape(orch, RunMoves(orch, NewRun(workflow_id, now), moves));
  }
}
