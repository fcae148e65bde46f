/** What the log of a run looks like, and why interruptions do not change it. */
module EngineShape {
  import opened Prelude
  import opened Workflow
  import opened RunStore
  import opened EngineMachine
  import opened EngineInvariant

  function ResultAt(flow: Flow, e: Exec): Result<Option<string>, EngineError>
    requires FlowStep(flow, e.step).Some?
  {
    EvaluateStep(flow, FlowStep(flow, e.step).value, e.outcome)
  }

  predicate SucceededEntry(flow: Flow, e: Exec) {
    FlowStep(flow, e.step).Some? && ResultAt(flow, e).Ok?
  }

  /** Steps `i` and `i + 1` of a path: a success moves to the target it chose, at attempt 1;
      a failure was retryable, within the retry budget, and is tried once more. */
  predicate Follows(orch: Orchestrator, flow: Flow, e: Exec, f: Exec)
    requires FlowStep(flow, e.step).Some?
  {
    match ResultAt(flow, e)
    case Ok(next) => next == Some(f.step) && f.attempt == 1
    case Err(error) =>
      && IsRetryable(error)
      && e.attempt <= ResolveLimits(orch, flow, FlowStep(flow, e.step).value).max_retries
      && f.step == e.step && f.attempt == e.attempt + 1
  }

  ghost predicate IsPath(orch: Orchestrator, flow: Flow, log: seq<Exec>) {
    && (forall i :: 0 <= i < |log| ==>
          && FlowStep(flow, log[i].step).Some?
          && 1 <= log[i].attempt <= ResolveLimits(orch, flow, FlowStep(flow, log[i].step).value).max_retries + 1)
    && (log != [] ==> flow.steps != [] && log[0].step == flow.steps[0].id && log[0].attempt == 1)
    && (forall i :: 0 <= i < |log| - 1 ==> Follows(orch, flow, log[i], log[i + 1]))
  }

  lemma LegalLogIsPath(orch: Orchestrator, flow: Flow, log: seq<Exec>)
    requires LegalLog(orch, flow, log)
    ensures IsPath(orch, flow, log)
  {
    hide EvaluateStep, ResolveLimits, FindStep;
    forall i | 0 <= i < |log|
      ensures
        && FlowStep(flow, log[i].step).Some?
        && 1 <= log[i].attempt <= ResolveLimits(orch, flow, FlowStep(flow, log[i].step).value).max_retries + 1
    {
      assert LegalEntry(orch, flow, log[..i], log[i]);
    }
    if log != [] {
      assert LegalEntry(orch, flow, log[..0], log[0]);
    }
    forall i | 0 <= i < |log| - 1
      ensures Follows(orch, flow, log[i], log[i + 1])
    {
      var prior := log[..i + 1];
      assert prior[|prior| - 1] == log[i];
      assert LegalEntry(orch, flow, prior, log[i + 1]);
    }
  }

  /** A success without a target can only come from an agent_task without `next` that is
      the last step listed. */
  lemma TerminalStepIsLastListed(flow: Flow, e: Exec)
    requires FlowStep(flow, e.step).Some? && ResultAt(flow, e) == Ok(None)
    ensures flow.steps != [] && flow.steps[|flow.steps| - 1].id == e.step
    ensures flow.steps[|flow.steps| - 1].kind == AgentTask && flow.steps[|flow.steps| - 1].next == None
  {
  }

  predicate UniqueIds(flow: Flow) {
    forall i, j :: 0 <= i < j < |flow.steps| ==> flow.steps[i].id != flow.steps[j].id
  }

  predicate Declared(flow: Flow, id: string) { exists j :: 0 <= j < |flow.steps| && flow.steps[j].id == id }

  /** Where a success leads, with unique step ids: a review to the target its decision names, a
      task to its `next` or to the step listed after it, always a declared step; a run can end
      only at the last listed step. A step fails by itself only for an unrecognised decision or
      a target that is missing or undeclared. */
  lemma SuccessTarget(flow: Flow, i: nat, outcome: ProviderOutcome)
    requires i < |flow.steps| && UniqueIds(flow)
    ensures FlowStep(flow, flow.steps[i].id) == Some(flow.steps[i])
    ensures var step := flow.steps[i];
            match EvaluateStep(flow, step, outcome)
            case Ok(Some(target)) =>
              && outcome.Produced? && Declared(flow, target)
              && (step.kind == AgentReview ==>
                    || (outcome.decision == Approve && step.on_approve == Some(target))
                    || (outcome.decision == Reject && step.on_reject == Some(target)))
              && (step.kind == AgentTask ==>
                    || step.next == Some(target)
                    || (step.next.None? && i + 1 < |flow.steps| && flow.steps[i + 1].id == target))
            case Ok(None) => outcome.Produced? && step.kind == AgentTask && step.next.None? && i == |flow.steps| - 1
            case Err(e) =>
              || outcome == Raised(e)
              || (e == InvalidReviewDecision && step.kind == AgentReview && outcome == Produced(Unrecognised))
              || (e == TransitionValidation &&
                    var target := if step.kind == AgentTask then step.next
                                  else if outcome.decision == Approve then step.on_approve else step.on_reject;
                    if target.None? then step.kind == AgentReview else !Declared(flow, target.value))
  {
    hide Position;
    var p := Position(flow.steps, flow.steps[i].id);
    assert p == i;
    if i + 1 < |flow.steps| { assert Declared(flow, flow.steps[i + 1].id); }
    forall id ensures FindStep(flow.steps, id).Some? <==> Declared(flow, id) {
      var q := Position(flow.steps, id);
    }
  }

  /** The shape of every successful run: its recorded attempts form a path from the first
      listed step to the last one. Holds with cancels and well-timed crashes in between. */
  lemma SuccessfulRunShape(orch: Orchestrator, m: Machine)
    requires Inv(orch, m) && m.stored.state.Succeeded?
    ensures FlowOf(orch, m).Some?
    ensures var flow := FlowOf(orch, m).value;
            && IsPath(orch, flow, m.log)
            && (m.log == [] <==> flow.steps == [])
            && (m.log != [] ==>
                  var last := m.log[|m.log| - 1];
                  && FlowStep(flow, last.step).Some? && ResultAt(flow, last) == Ok(None)
                  && flow.steps[|flow.steps| - 1].id == last.step
                  && flow.steps[|flow.steps| - 1].kind == AgentTask && flow.steps[|flow.steps| - 1].next == None)
  {
    hide EvaluateStep, FindFlow, FindStep, PcInv, FreshInv, LastRecordInv, ResolveLimits, IsPath;
    var flow := FlowOf(orch, m).value;
    LegalLogIsPath(orch, flow, m.log);
    if m.log != [] {
      var last := m.log[|m.log| - 1];
      assert FlowStep(flow, last.step).Some?;
      assert ResultAt(flow, last) == Ok(None);
      TerminalStepIsLastListed(flow, last);
    }
  }

  // ----- interrupted and uninterrupted runs ---------------------------------------------

  /** How a step attempt turns out is a function of everything recorded before it. */
  type World = seq<Exec> -> ProviderOutcome

  ghost predicate LogFrom(world: World, log: seq<Exec>) {
    forall i :: 0 <= i < |log| ==> log[i].outcome == world(log[..i])
  }

  datatype Move = EngineMove(i: Input) | CallMove(call: Call) | CancelMove | CrashMove

  function Apply(orch: Orchestrator, m: Machine, move: Move): Machine {
    match move
    case EngineMove(i) => EngineStep(orch, m, i)
    case CallMove(call) => if m.pc.Idle? then BeginCall(m, call) else m
    case CancelMove => Cancel(m)
    case CrashMove => Crash(m)
  }

  /** Attempts turn out as `world` says; crashes spare the moment after a stored failure. */
  predicate Admissible(world: World, m: Machine, move: Move) {
    match move
    case EngineMove(i) => m.pc.Guarding? ==> i.outcome == world(m.log)
    case CrashMove => m.stored.state.IsTerminal() || FreshPointer(m)
    case _ => true
  }

  function RunMoves(orch: Orchestrator, m: Machine, moves: seq<Move>): Machine {
    if moves == [] then m
    else Apply(orch, RunMoves(orch, m, moves[..|moves| - 1]), moves[|moves| - 1])
  }

  ghost predicate AdmissibleRun(orch: Orchestrator, world: World, m: Machine, moves: seq<Move>) {
    forall i :: 0 <= i < |moves| ==> Admissible(world, RunMoves(orch, m, moves[..i]), moves[i])
  }

  ghost predicate WorldInv(world: World, m: Machine) {
    LogFrom(world, m.log) && (m.pc.Recording? ==> m.pc.v.outcome == world(m.log))
  }

  lemma ApplyKeepsInv(orch: Orchestrator, world: World, m: Machine, move: Move)
    requires Inv(orch, m) && WorldInv(world, m) && Admissible(world, m, move)
    ensures Inv(orch, Apply(orch, m, move)) && WorldInv(world, Apply(orch, m, move))
  {
    hide Inv, FreshPointer, EvaluateStep, ResolveLimits, EnforceSafety, FindFlow, FindStep, CanRetry, RecordOf, ResolvePointer;
    match move
    case EngineMove(i) =>
      EngineStepKeepsInv(orch, m, i);
      var m' := EngineStep(orch, m, i);
      if m.pc.Recording? {
        forall k | 0 <= k < |m'.log| ensures m'.log[k].outcome == world(m'.log[..k]) {
          assert m'.log[..k] == m.log[..k];
          if k == |m.log| { assert m.log[..k] == m.log; }
        }
      }
    case CallMove(call) => if m.pc.Idle? { BeginCallKeepsInv(orch, m, call); }
    case CancelMove => CancelKeepsInv(orch, m);
    case CrashMove => CrashKeepsInv(orch, m);
  }

  lemma {:induction false} RunKeepsInv(orch: Orchestrator, world: World, m: Machine, moves: seq<Move>)
    requires Inv(orch, m) && WorldInv(world, m) && AdmissibleRun(orch, world, m, moves)
    ensures Inv(orch, RunMoves(orch, m, moves)) && WorldInv(world, RunMoves(orch, m, moves))
  {
    hide Inv, WorldInv, Admissible, Apply;
    if moves != [] {
      var init := moves[..|moves| - 1];
      assert forall i :: 0 <= i < |init| ==> init[..i] == moves[..i];
      assert AdmissibleRun(orch, world, m, init) by {
        forall i | 0 <= i < |init| ensures Admissible(world, RunMoves(orch, m, init[..i]), init[i]) {
          assert init[..i] == moves[..i];
        }
      }
      RunKeepsInv(orch, world, m, init);
      ApplyKeepsInv(orch, world, RunMoves(orch, m, init), moves[|moves| - 1]);
    }
  }

  /** Two legal logs in the same world agree as far as both go. */
  lemma {:induction false} LogsAgree(orch: Orchestrator, flow: Flow, world: World, a: seq<Exec>, b: seq<Exec>, n: nat)
    requires LegalLog(orch, flow, a) && LegalLog(orch, flow, b) && LogFrom(world, a) && LogFrom(world, b)
    requires n <= |a| && n <= |b|
    ensures a[..n] == b[..n]
  {
    hide LegalEntry;
    if n > 0 {
      LogsAgree(orch, flow, world, a, b, n - 1);
      EntriesAgree(orch, flow, a[..n - 1], a[n - 1], b[n - 1]);
      assert a[..n] == a[..n - 1] + [a[n - 1]];
      assert b[..n] == b[..n - 1] + [b[n - 1]];
    }
  }

  lemma EntriesAgree(orch: Orchestrator, flow: Flow, prior: seq<Exec>, x: Exec, y: Exec)
    requires LegalEntry(orch, flow, prior, x) && LegalEntry(orch, flow, prior, y) && x.outcome == y.outcome
    ensures x == y
  {
    hide FrontierOf, ResolveLimits;
  }

  lemma FrontierBeforeEntry(orch: Orchestrator, flow: Flow, log: seq<Exec>, n: nat)
    requires LegalLog(orch, flow, log) && n < |log|
    ensures FrontierOf(orch, flow, log[..n]) == At(log[n].step, log[n].attempt)
  {
    assert LegalEntry(orch, flow, log[..n], log[n]);
  }

  /** A log after which nothing comes next is the longest in its world. */
  lemma EndedLogIsLongest(orch: Orchestrator, flow: Flow, world: World, a: seq<Exec>, b: seq<Exec>)
    requires LegalLog(orch, flow, a) && LegalLog(orch, flow, b) && LogFrom(world, a) && LogFrom(world, b)
    requires !FrontierOf(orch, flow, a).At?
    ensures b <= a
  {
    hide FrontierOf, LegalLog, LogFrom;
    var n := Min(|a|, |b|);
    LogsAgree(orch, flow, world, a, b, n);
    assert a[..|a|] == a && b[..|b|] == b;
    if n < |b| { FrontierBeforeEntry(orch, flow, b, n); }
  }

  /** Resume refines the uninterrupted run: whatever admissible interruptions either run
      suffers, the attempts it records are a prefix of those of a succeeded run in the same
      world, and two succeeded runs record the same attempts. */
  lemma ResumeRefinesUninterrupted(orch: Orchestrator, world: World, workflow_id: string,
                                   now1: int, moves1: seq<Move>, now2: int, moves2: seq<Move>)
    requires AdmissibleRun(orch, world, NewRun(workflow_id, now1), moves1)
    requires AdmissibleRun(orch, world, NewRun(workflow_id, now2), moves2)
    requires RunMoves(orch, NewRun(workflow_id, now1), moves1).stored.state.Succeeded?
    ensures RunMoves(orch, NewRun(workflow_id, now2), moves2).log
         <= RunMoves(orch, NewRun(workflow_id, now1), moves1).log
    ensures RunMoves(orch, NewRun(workflow_id, now2), moves2).stored.state.Succeeded? ==>
              RunMoves(orch, NewRun(workflow_id, now2), moves2).log == RunMoves(orch, NewRun(workflow_id, now1), moves1).log
  {
    var m1, m2 := RunMoves(orch, NewRun(workflow_id, now1), moves1), RunMoves(orch, NewRun(workflow_id, now2), moves2);
    NewRunInv(orch, workflow_id, now1);
    NewRunInv(orch, workflow_id, now2);
    RunKeepsInv(orch, world, NewRun(workflow_id, now1), moves1);
    RunKeepsInv(orch, world, NewRun(workflow_id, now2), moves2);
    WorkflowIdIsConstant(orch, NewRun(workflow_id, now1), moves1);
    WorkflowIdIsConstant(orch, NewRun(workflow_id, now2), moves2);
    var flow := FlowOf(orch, m1).value;
    EndedLogIsLongest(orch, flow, world, m1.log, m2.log);
    if m2.stored.state.Succeeded? {
      EndedLogIsLongest(orch, flow, world, m2.log, m1.log);
    }
  }

  predicate IdsAgree(m: Machine) {
    && (m.pc != Idle ==> m.mem.workflow_id == m.stored.workflow_id)
    && (m.pc.CountWriting? ==> m.pc.loaded.workflow_id == m.stored.workflow_id)
  }

  lemma ApplyKeepsIds(orch: Orchestrator, m: Machine, move: Move)
    requires IdsAgree(m)
    ensures IdsAgree(Apply(orch, m, move)) && Apply(orch, m, move).stored.workflow_id == m.stored.workflow_id
  {
    hide EvaluateStep, ResolveLimits, EnforceSafety, FindFlow, FindStep, CanRetry, RecordOf, ResolvePointer, IsRetryable;
  }

  lemma {:induction false} WorkflowIdIsConstant(orch: Orchestrator, m: Machine, moves: seq<Move>)
    requires IdsAgree(m)
    ensures IdsAgree(RunMoves(orch, m, moves)) && RunMoves(orch, m, moves).stored.workflow_id == m.stored.workflow_id
  {
    hide Apply, IdsAgree;
    if moves != [] {
      WorkflowIdIsConstant(orch, m, moves[..|moves| - 1]);
      ApplyKeepsIds(orch, RunMoves(orch, m, moves[..|moves| - 1]), moves[|moves| - 1]);
    }
  }
}
