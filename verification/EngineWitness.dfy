/** Runs of the engine, move by move, that show where its guarantees end. */
module EngineWitness {
  import opened Prelude
  import opened Workflow
  import opened RunStore
  import opened EngineMachine
  import opened EngineShape
  import opened EngineProgress

  const STEP := Step("s", AgentTask, None, None, None, Some(0))

  function Orch(limit: u32, steps: seq<Step>): Orchestrator {
    Orchestrator(None, [Flow("w", Some(WorkflowLimits(Some(limit), None)), steps)])
  }

  const GO := EngineMove(Input(0, Produced(Approve)))

  function After(orch: Orchestrator, moves: seq<Move>): Machine { RunMoves(orch, NewRun("w", 0), moves) }

  lemma OneMore(orch: Orchestrator, moves: seq<Move>, k: nat)
    requires k < |moves|
    ensures After(orch, moves[..k + 1]) == Apply(orch, After(orch, moves[..k]), moves[k])
  {
    assert moves[..k + 1][..k] == moves[..k];
  }

  lemma Found(limit: u32, steps: seq<Step>)
    ensures FindFlow(Orch(limit, steps).workflows, "w") == Some(Flow("w", Some(WorkflowLimits(Some(limit), None)), steps))
    ensures steps == [STEP] ==> FindStep(steps, "s") == Some(STEP) && Position(steps, "s") == 0
  {
  }

  /** The start of a run of the one-step workflow: called, loaded, at its first attempt. */
  lemma Opening(limit: u32, moves: seq<Move>)
    requires |moves| >= 4 && moves[..4] == [CallMove(Start), GO, GO, GO]
    ensures var m := After(Orch(limit, [STEP]), moves[..4]);
            && m.pc == Guarding(Flow("w", Some(WorkflowLimits(Some(limit), None)), [STEP]), STEP, 1, 0)
            && m.stored == m.mem && m.stored.state.Running? && m.stored.total_iterations == 0 && m.stored.started_at == 0
            && m.stored.current_step_id == Some("s") && m.stored.current_attempt == Some(1)
            && m.stored.workflow_id == "w" && m.attempts == map[] && m.log == [] && m.before == 0 && m.cycles == 0 && m.executed == 0
  {
    var orch := Orch(limit, [STEP]);
    Found(limit, [STEP]);
    assert moves[0] == CallMove(Start) && moves[1] == GO && moves[2] == GO && moves[3] == GO;
    OneMore(orch, moves, 0);
    OneMore(orch, moves, 1);
    OneMore(orch, moves, 2);
    OneMore(orch, moves, 3);
    assert moves[..0] == [];
    var m2 := After(orch, moves[..2]);
    assert m2.pc == LoopHead && m2.mem.state.Running?;
    var m3 := After(orch, moves[..3]);
    assert m3.pc.Marking?;
  }

  /** The first attempt executed and recorded. */
  lemma FirstAttempt(limit: u32, moves: seq<Move>, i: Input)
    requires |moves| >= 6 && moves[..6] == [CallMove(Start), GO, GO, GO, EngineMove(i), GO] && limit > 0 && i.now == 0
    ensures var m := After(Orch(limit, [STEP]), moves[..6]);
            var v := Visit(Flow("w", Some(WorkflowLimits(Some(limit), None)), [STEP]), STEP, 1, 0, i.outcome, 0);
            && m.pc == Counting(v) && m.attempts == map[("s", 1) := RecordOf(Orch(limit, [STEP]), v)]
            && m.stored == m.mem && m.stored.state.Running? && m.stored.total_iterations == 0 && m.stored.started_at == 0
            && m.stored.current_step_id == Some("s") && m.stored.current_attempt == Some(1)
            && m.stored.workflow_id == "w" && m.log == [Exec("s", 1, i.outcome)] && m.before == 0 && m.cycles == 0
  {
    hide FindFlow, FindStep, ResolvePointer, RecordOf, StepLoopHead, StepDeciding;
    var orch := Orch(limit, [STEP]);
    assert moves[..4] == moves[..6][..4] == [CallMove(Start), GO, GO, GO];
    assert moves[4] == moves[..6][4] == EngineMove(i) && moves[5] == moves[..6][5] == GO;
    Opening(limit, moves);
    OneMore(orch, moves, 4);
    assert After(orch, moves[..5]).pc.Recording?;
    OneMore(orch, moves, 5);
  }

  // ----- cancels that are undone --------------------------------------------------------

  const CANCEL_WHILE_COUNTING: seq<Move> :=
    [CallMove(Start), GO, GO, GO, GO, GO, GO, CancelMove, GO, GO, GO]

  /** A cancel between the load and the write of the counted run is overwritten: the run
      succeeds. */
  lemma CancelWhileCountingIsUndone()
    ensures After(Orch(5, [STEP]), CANCEL_WHILE_COUNTING[..8]).stored.state.Canceled?
    ensures After(Orch(5, [STEP]), CANCEL_WHILE_COUNTING).stored.state.Succeeded?
  {
    hide RunMoves, FindFlow, FindStep, ResolvePointer, RecordOf, StepLoopHead, StepGuarding, StepMarking, NewRun;
    var orch, moves := Orch(5, [STEP]), CANCEL_WHILE_COUNTING;
    Found(5, [STEP]);
    FirstAttempt(5, moves, GO.i);
    OneMore(orch, moves, 6);
    OneMore(orch, moves, 7);
    OneMore(orch, moves, 8);
    assert After(orch, moves[..9]).stored.state.Running?;
    OneMore(orch, moves, 9);
    assert After(orch, moves[..10]).pc.Deciding?;
    OneMore(orch, moves, 10);
    assert moves[..11] == moves;
  }

  const CANCEL_BEFORE_REFUSAL: seq<Move> := [CallMove(Start), GO, GO, GO, CancelMove, GO, GO]

  /** A cancel right before a refused safety check is overwritten: the run fails. */
  lemma CancelBeforeRefusalIsUndone()
    ensures After(Orch(0, [STEP]), CANCEL_BEFORE_REFUSAL[..5]).stored.state.Canceled?
    ensures After(Orch(0, [STEP]), CANCEL_BEFORE_REFUSAL).stored.state.Failed?
  {
    var orch, moves := Orch(0, [STEP]), CANCEL_BEFORE_REFUSAL;
    Opening(0, moves);
    OneMore(orch, moves, 4);
    OneMore(orch, moves, 5);
    assert After(orch, moves[..6]).pc == Failing(MaxIterationsExceeded);
    OneMore(orch, moves, 6);
    assert moves[..7] == moves;
  }

  // ----- a crash that reads as success --------------------------------------------------

  const BAD := EngineMove(Input(0, Raised(OtherError)))

  const CRASH_AFTER_FAILURE: seq<Move> :=
    [CallMove(Start), GO, GO, GO, BAD, GO, CrashMove, CallMove(Resume), GO, GO, GO, GO]

  /** The only step fails for good, the process dies right after the record is stored, and the
      resumed run reports success. */
  lemma CrashAfterFailureSucceeds()
    ensures var m := After(Orch(5, [STEP]), CRASH_AFTER_FAILURE);
            && m.pc.Idle? && m.result == Returned && m.stored.state.Succeeded?
            && m.log == [Exec("s", 1, Raised(OtherError))]
  {
    hide FindFlow, FindStep, RecordOf, StepGuarding, StepMarking, StepDeciding, NewRun;
    var orch, moves := Orch(5, [STEP]), CRASH_AFTER_FAILURE;
    Found(5, [STEP]);
    CrashedAndResumed();
    OneMore(orch, moves, 9);
    assert After(orch, moves[..10]).pc == Settling;
    OneMore(orch, moves, 10);
    OneMore(orch, moves, 11);
    assert moves[..12] == moves;
  }

  lemma CrashedAndResumed()
    ensures var m := After(Orch(5, [STEP]), CRASH_AFTER_FAILURE[..9]);
            && m.pc == LoopHead && m.mem == m.stored && m.stored.state.Running? && m.cycles == 0 && m.stored.workflow_id == "w"
            && m.stored.current_step_id == Some("s") && m.stored.current_attempt == Some(1)
            && ("s", 1) in m.attempts && m.attempts[("s", 1)].next_step_id.None?
            && m.log == [Exec("s", 1, Raised(OtherError))]
  {
    hide FindFlow, FindStep, RecordOf, NewRun, ResolvePointer, StepLoopHead, StepGuarding, StepMarking, StepDeciding;
    var orch, moves := Orch(5, [STEP]), CRASH_AFTER_FAILURE;
    FirstAttempt(5, moves, BAD.i);
    FailedRecord(5, BAD.i.outcome);
    OneMore(orch, moves, 6);
    OneMore(orch, moves, 7);
    OneMore(orch, moves, 8);
  }

  lemma FailedRecord(limit: u32, outcome: ProviderOutcome)
    requires outcome.Raised?
    ensures var v := Visit(Flow("w", Some(WorkflowLimits(Some(limit), None)), [STEP]), STEP, 1, 0, outcome, 0);
            RecordOf(Orch(limit, [STEP]), v).next_step_id.None?
  {
  }

  // ----- a crash that costs an attempt --------------------------------------------------

  const CRASH_WHILE_EXECUTING: seq<Move> := [CallMove(Start), GO, GO, GO, GO, CrashMove, CallMove(Resume), GO, GO, GO, GO]

  /** With a limit of one, an attempt cut off after it executed is executed again. */
  lemma CrashExceedsLimit()
    ensures var m := After(Orch(1, [STEP]), CRASH_WHILE_EXECUTING);
            m.executed == 2 && m.log == [] && Limit(Orch(1, [STEP]), m) == 1
  {
    hide FindFlow, FindStep, NewRun, RunMoves;
    var orch, moves := Orch(1, [STEP]), CRASH_WHILE_EXECUTING;
    Found(1, [STEP]);
    assert moves[..4] == [CallMove(Start), GO, GO, GO];
    Opening(1, moves);
    OneMore(orch, moves, 4);
    OneMore(orch, moves, 5);
    OneMore(orch, moves, 6);
    OneMore(orch, moves, 7);
    assert After(orch, moves[..8]).pc.LoopHead?;
    OneMore(orch, moves, 8);
    OneMore(orch, moves, 9);
    assert After(orch, moves[..10]).pc.Guarding?;
    OneMore(orch, moves, 10);
    assert moves[..11] == moves;
  }

  // ----- a stale record that is read again ----------------------------------------------

  const PING := Step("s", AgentTask, Some("t"), None, None, Some(0))
  const PONG := Step("t", AgentTask, Some("s"), None, None, Some(0))
  const LOOPING := Flow("w", Some(WorkflowLimits(Some(12), None)), [PING, PONG])

  const SAME: nat -> Input := _ => GO.i

  function Engines(n: nat): seq<Move> { seq(n, _ => GO) }

  lemma {:induction false} EnginesIterate(orch: Orchestrator, moves: seq<Move>, n: nat)
    ensures After(orch, moves + Engines(n)) == Iterate(orch, After(orch, moves), SAME, 0, n)
  {
    hide NewRun, EngineStep;
    if n == 0 {
      assert moves + Engines(0) == moves;
    } else {
      EnginesIterate(orch, moves, n - 1);
      var all := moves + Engines(n);
      assert all[..|all| - 1] == moves + Engines(n - 1) && all[|all| - 1] == GO;
    }
  }

  /** At the top of the loop, about to execute the first attempt of `step`. */
  predicate Turn(m: Machine, step: Step, k: nat) {
    && m.pc == LoopHead && m.mem == m.stored && m.stored.state.Running? && m.stored.workflow_id == "w" && m.stored.started_at == 0
    && m.stored.total_iterations == k && m.cycles == k
    && ResolvePointer(m.attempts, m.stored, LOOPING) == Some(Pointer(step.id, 1))
  }

  lemma OneStep(orch: Orchestrator, m: Machine, k: nat)
    ensures Iterate(orch, m, SAME, 0, k + 1) == EngineStep(orch, Iterate(orch, m, SAME, 0, k), GO.i)
  {
    hide EngineStep;
  }

  function PingPong(): Orchestrator { Orch(12, [PING, PONG]) }

  predicate Neighbours(step: Step, next: string) { (step == PING && next == "t") || (step == PONG && next == "s") }

  /** Up to the executed attempt. */
  lemma Execute(m: Machine, step: Step, next: string, k: nat)
    requires Turn(m, step, k) && k < 3 && Neighbours(step, next)
    ensures var run := m.stored.(current_step_id := Some(step.id), current_attempt := Some(1), updated_at := 0);
            Iterate(PingPong(), m, SAME, 0, 3) ==
              m.(stored := run, mem := run, before := k, executed := m.executed + 1, pc := Recording(Visit(LOOPING, step, 1, 0, GO.i.outcome, 0)))
  {
    hide FindFlow, FindStep, ResolvePointer, NextInList, EvaluateStep, Iterate;
    Looping();
    NoStep(m);
    OneStep(PingPong(), m, 0);
    assert Iterate(PingPong(), m, SAME, 0, 1).pc == Marking(LOOPING, step, 1);
    OneStep(PingPong(), m, 1);
    OneStep(PingPong(), m, 2);
  }

  lemma NoStep(m: Machine)
    ensures Iterate(PingPong(), m, SAME, 0, 0) == m
  {
  }

  lemma RecordIs(step: Step, next: string)
    requires Neighbours(step, next)
    ensures RecordOf(PingPong(), Visit(LOOPING, step, 1, 0, GO.i.outcome, 0)) == AttemptRecord(AttemptSucceeded, Some(next), None, 0, 0)
  {
    hide EvaluateStep;
    Looping();
  }

  /** From an executed attempt: recorded, counted and reloaded. */
  lemma FourSteps(orch: Orchestrator, m: Machine, v: Visit)
    requires m.pc == Recording(v)
    ensures EngineStep(orch, EngineStep(orch, EngineStep(orch, EngineStep(orch, m, GO.i), GO.i), GO.i), GO.i) ==
              m.(attempts := m.attempts[(v.step.id, v.attempt) := RecordOf(orch, v)], log := m.log + [Exec(v.step.id, v.attempt, v.outcome)],
                 stored := Counted(m.stored, v), mem := Counted(m.stored, v), pc := Deciding(v))
  {
    hide RecordOf, Counted;
  }

  lemma Record(m: Machine, step: Step, next: string, k: nat)
    requires Turn(m, step, k) && k < 3 && Neighbours(step, next)
    ensures var m' := Iterate(PingPong(), m, SAME, 0, 7);
            && m'.pc == Deciding(Visit(LOOPING, step, 1, 0, GO.i.outcome, 0)) && m'.before == k && m'.cycles == k
            && m'.mem == m'.stored
            && m'.stored == m.stored.(current_step_id := Some(step.id), current_attempt := Some(1), total_iterations := k + 1, updated_at := 0)
            && m'.attempts == m.attempts[(step.id, 1) := AttemptRecord(AttemptSucceeded, Some(next), None, 0, 0)]
            && m'.log == m.log + [Exec(step.id, 1, GO.i.outcome)]
  {
    hide FindFlow, FindStep, ResolvePointer, NextInList, EvaluateStep, Iterate, EnforceSafety, StepLoopHead, EngineStep, RecordOf;
    RecordIs(step, next);
    Execute(m, step, next, k);
    FourSteps(PingPong(), Iterate(PingPong(), m, SAME, 0, 3), Visit(LOOPING, step, 1, 0, GO.i.outcome, 0));
    OneStep(PingPong(), m, 3);
    OneStep(PingPong(), m, 4);
    OneStep(PingPong(), m, 5);
    OneStep(PingPong(), m, 6);
  }

  /** One step of the workflow, executed, recorded, counted and left behind. */
  lemma Round(m: Machine, step: Step, next: string, k: nat)
    requires Turn(m, step, k) && k < 3 && Neighbours(step, next)
    ensures var m' := Iterate(PingPong(), m, SAME, 0, 9);
            && m'.pc == LoopHead && m'.mem == m'.stored && m'.cycles == k + 1
            && m'.stored == m.stored.(current_step_id := Some(next), current_attempt := None, total_iterations := k + 1, updated_at := 0)
            && m'.attempts == m.attempts[(step.id, 1) := AttemptRecord(AttemptSucceeded, Some(next), None, 0, 0)]
            && m'.log == m.log + [Exec(step.id, 1, GO.i.outcome)]
  {
    hide FindFlow, FindStep, ResolvePointer, NextInList, EvaluateStep, Iterate, StepLoopHead;
    Looping();
    Record(m, step, next, k);
    OneStep(PingPong(), m, 7);
    assert Iterate(PingPong(), m, SAME, 0, 8).pc == Settling;
    OneStep(PingPong(), m, 8);
  }

  lemma Looping()
    ensures FindFlow(PingPong().workflows, "w") == Some(LOOPING)
    ensures FindStep(LOOPING.steps, "s") == Some(PING) && FindStep(LOOPING.steps, "t") == Some(PONG)
    ensures EvaluateStep(LOOPING, PING, GO.i.outcome) == Ok(Some("t")) && EvaluateStep(LOOPING, PONG, GO.i.outcome) == Ok(Some("s"))
  {
    assert LOOPING.steps[0] == PING && LOOPING.steps[1] == PONG && PING.id != PONG.id;
  }

  /** The run before the crash: both steps executed, and the first one entered again. */
  const REENTERED: seq<Move> := [CallMove(Start)] + Engines(1) + Engines(9) + Engines(9) + Engines(2)

  lemma ReenteredIs()
    ensures var m := After(PingPong(), REENTERED);
            && m.pc == Guarding(LOOPING, PING, 1, 0) && m.stored.state.Running? && m.stored.workflow_id == "w"
            && m.stored.current_step_id == Some("s") && m.stored.current_attempt == Some(1)
            && ("s", 1) in m.attempts && m.attempts[("s", 1)].next_step_id == Some("t")
            && m.log == [Exec("s", 1, GO.i.outcome), Exec("t", 1, GO.i.outcome)]
  {
    hide FindFlow, FindStep, NextInList, EvaluateStep, Iterate, RunMoves;
    var orch := PingPong();
    var s0 := [CallMove(Start)];
    var s1 := s0 + Engines(1);
    var s2 := s1 + Engines(9);
    var s3 := s2 + Engines(9);
    Looping();
    StartIs();
    EnginesIterate(orch, s0, 1);
    var m1 := After(orch, s1);
    NoStep(After(orch, s0));
    OneStep(orch, After(orch, s0), 0);
    EnginesIterate(orch, s1, 9);
    Round(m1, PING, "t", 0);
    var m2 := After(orch, s2);
    EnginesIterate(orch, s2, 9);
    Round(m2, PONG, "s", 1);
    var m3 := After(orch, s3);
    EnginesIterate(orch, s3, 2);
    NoStep(m3);
    OneStep(orch, m3, 0);
    assert Iterate(orch, m3, SAME, 0, 1).pc == Marking(LOOPING, PING, 1);
    OneStep(orch, m3, 1);
  }

  lemma StartIs()
    ensures After(PingPong(), [CallMove(Start)]) == BeginCall(NewRun("w", 0), Start)
  {
    assert [CallMove(Start)][..0] == [];
  }

  const SKIPPED: seq<Move> := REENTERED + [CrashMove] + [CallMove(Resume)] + Engines(2)

  /** A run that crashes when it has entered a step again: resume takes the record of the first
      time for the attempt's own, and goes on to the next step without executing this one. */
  lemma ReenteredStepIsSkipped()
    ensures var m := After(PingPong(), SKIPPED);
            && m.log == [Exec("s", 1, GO.i.outcome), Exec("t", 1, GO.i.outcome)]
            && FrontierOf(PingPong(), LOOPING, m.log) == At("s", 1)
            && m.pc == Marking(LOOPING, PONG, 1)
  {
    hide FindFlow, FindStep, NextInList, EvaluateStep, Iterate, RunMoves;
    var orch := PingPong();
    var s1 := REENTERED + [CrashMove];
    var s2 := s1 + [CallMove(Resume)];
    Looping();
    ReenteredIs();
    Then(orch, REENTERED, CrashMove);
    Then(orch, s1, CallMove(Resume));
    EnginesIterate(orch, s2, 2);
    var m2 := After(orch, s2);
    NoStep(m2);
    OneStep(orch, m2, 0);
    assert Iterate(orch, m2, SAME, 0, 1).pc == LoopHead;
    OneStep(orch, m2, 1);
  }

  lemma Then(orch: Orchestrator, moves: seq<Move>, move: Move)
    ensures After(orch, moves + [move]) == Apply(orch, After(orch, moves), move)
  {
    assert (moves + [move])[..|moves|] == moves;
  }

  // ----- success at a limit of zero -----------------------------------------------------

  const EMPTY_RUN: seq<Move> := [CallMove(Start), GO, GO]

  /** A workflow that lists no step succeeds with as many iterations as a limit of zero allows. */
  lemma EmptyWorkflowSucceedsAtZero()
    ensures var m := After(Orch(0, []), EMPTY_RUN);
            m.stored.state.Succeeded? && m.stored.total_iterations == Limit(Orch(0, []), m) == 0
  {
    var orch, moves := Orch(0, []), EMPTY_RUN;
    Found(0, []);
    OneMore(orch, moves, 0);
    OneMore(orch, moves, 1);
    assert moves[..0] == [];
    assert After(orch, moves[..2]).pc == LoopHead;
    OneMore(orch, moves, 2);
    assert moves[..3] == moves;
  }
}
