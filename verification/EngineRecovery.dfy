/** When a crash is harmless: exactly when the record under the stored pointer, if there is one,
    is the last one stored and a success. */
module EngineRecovery {
  import opened Prelude
  import opened Workflow
  import opened RunStore
  import opened EngineMachine
  import opened EngineInvariant
  import opened EngineShape

  predicate KeyOf(e: Exec, key: (string, nat)) { e.step == key.0 && e.attempt == key.1 }

  predicate HasPointer(run: RunRecord) { run.current_step_id.Some? && run.current_attempt.Some? }

  function PointerKey(run: RunRecord): (string, nat)
    requires HasPointer(run)
  {
    (run.current_step_id.value, run.current_attempt.value)
  }

  /** The stored pointer is either the last entry or the next one. */
  predicate PointerAtEnd(orch: Orchestrator, m: Machine) {
    !m.stored.state.Succeeded? && !m.stored.state.Failed? && HasPointer(m.stored) && FlowOf(orch, m).Some? ==>
      || (m.log != [] && KeyOf(m.log[|m.log| - 1], PointerKey(m.stored)))
      || FrontierOf(orch, FlowOf(orch, m).value, m.log) == At(PointerKey(m.stored).0, PointerKey(m.stored).1)
  }

  /** Entry `i` is the last one under this key, and succeeded as the record says. */
  predicate Latest(flow: Flow, log: seq<Exec>, i: nat, key: (string, nat), record: AttemptRecord)
    requires i < |log|
  {
    && KeyOf(log[i], key) && SucceededEntry(flow, log[i]) && ResultAt(flow, log[i]) == Ok(record.next_step_id)
    && forall j :: i < j < |log| ==> !KeyOf(log[j], key)
  }

  /** Every stored success comes from the last log entry under its key. */
  ghost predicate RecordsInv(orch: Orchestrator, m: Machine) {
    && PointerAtEnd(orch, m)
    && (forall key <- m.attempts :: m.attempts[key].state == AttemptSucceeded ==>
          FlowOf(orch, m).Some? && exists i :: 0 <= i < |m.log| && Latest(FlowOf(orch, m).value, m.log, i, key, m.attempts[key]))
  }

  /** No step appears in the log, or next, after it has succeeded. */
  ghost predicate NoReentry(orch: Orchestrator, m: Machine) {
    match FlowOf(orch, m)
    case None => true
    case Some(flow) =>
      && (forall i, j :: 0 <= i < j < |m.log| && SucceededEntry(flow, m.log[i]) ==> m.log[j].step != m.log[i].step)
      && (match FrontierOf(orch, flow, m.log)
          case At(step, _) => forall i :: 0 <= i < |m.log| && SucceededEntry(flow, m.log[i]) ==> m.log[i].step != step
          case _ => true)
  }

  /** The record under the stored pointer is a failure. */
  predicate PointsAtFailure(m: Machine) {
    && HasPointer(m.stored) && PointerKey(m.stored) in m.attempts
    && m.attempts[PointerKey(m.stored)].state != AttemptSucceeded
  }

  predicate FailedRecordsHaveNoNext(m: Machine) {
    forall key <- m.attempts :: m.attempts[key].state != AttemptSucceeded ==> m.attempts[key].next_step_id.None?
  }

  lemma FreshUnlessFailed(orch: Orchestrator, m: Machine)
    requires RecordsInv(orch, m) && NoReentry(orch, m)
    requires !m.stored.state.IsTerminal() && FlowOf(orch, m).Some?
    ensures FreshPointer(m) <==> !PointsAtFailure(m)
  {
    hide EvaluateStep, FindFlow, FindStep, FrontierOf;
    if HasPointer(m.stored) && PointerKey(m.stored) in m.attempts && !PointsAtFailure(m) {
      var key := PointerKey(m.stored);
      var flow := FlowOf(orch, m).value;
      var i :| 0 <= i < |m.log| && Latest(flow, m.log, i, key, m.attempts[key]);
      assert i == |m.log| - 1;
    }
  }

  /** The log goes on after a success with the first attempt of the step it leads to. */
  lemma NextEntry(orch: Orchestrator, flow: Flow, log: seq<Exec>, i: nat)
    requires LegalLog(orch, flow, log) && i + 1 < |log| && ResultAt(flow, log[i]).Ok?
    ensures ResultAt(flow, log[i]).value == Some(log[i + 1].step) && log[i + 1].attempt == 1
  {
    hide EvaluateStep;
    assert LegalEntry(orch, flow, log[..i + 1], log[i + 1]);
    assert log[..i + 1][|log[..i + 1]| - 1] == log[i];
    assert FlowStep(flow, log[i].step).Some? by { assert LegalEntry(orch, flow, log[..i], log[i]); }
  }

  /** A success recorded under the stored pointer, and not last in the log, does not lead back to
      the step under the pointer: that step's next attempt would have replaced the record. */
  lemma StaleLeadsElsewhere(orch: Orchestrator, m: Machine)
    requires LogInv(orch, m) && RecordsInv(orch, m) && FlowOf(orch, m).Some? && HasPointer(m.stored)
    requires var key := PointerKey(m.stored);
             key in m.attempts && m.attempts[key].state == AttemptSucceeded && m.log != [] && !KeyOf(m.log[|m.log| - 1], key)
    ensures var key := PointerKey(m.stored); key.1 == 1 ==> m.attempts[key].next_step_id != Some(key.0)
  {
    hide EvaluateStep, FindFlow, FindStep, FrontierOf, LegalLog;
    var key, flow := PointerKey(m.stored), FlowOf(orch, m).value;
    var i :| 0 <= i < |m.log| && Latest(flow, m.log, i, key, m.attempts[key]);
    NextEntry(orch, flow, m.log, i);
    assert !KeyOf(m.log[i + 1], key);
  }

  /** Resume finds the right next attempt after a crash if and only if the record under the
      stored pointer, when there is one, is the last one stored and a success. */
  lemma CrashIsHarmlessIff(orch: Orchestrator, m: Machine)
    requires Inv(orch, m) && RecordsInv(orch, m) && FailedRecordsHaveNoNext(m)
    requires !m.stored.state.IsTerminal() && FlowOf(orch, m).Some?
    ensures Ready(orch, m, m.stored) <==> FreshPointer(m)
  {
    hide EvaluateStep, FindFlow, FindStep, LegalLog, PcInv, StateInv, LogInv;
    if !FreshPointer(m) {
      var key, flow := PointerKey(m.stored), FlowOf(orch, m).value;
      if m.log != [] && KeyOf(m.log[|m.log| - 1], key) {
        assert m.attempts[key].state != AttemptSucceeded;
        assert FrontierOf(orch, flow, m.log) != Complete;
      } else if m.attempts[key].state == AttemptSucceeded {
        assert exists i :: 0 <= i < |m.log| && Latest(flow, m.log, i, key, m.attempts[key]);
        StaleLeadsElsewhere(orch, m);
      }
    }
  }

  /** In a run that has re-entered no step, that is: the record under the stored pointer is not a
      failure, which the store alone tells. */
  lemma CrashIsHarmlessUnlessFailed(orch: Orchestrator, m: Machine)
    requires Inv(orch, m) && RecordsInv(orch, m) && FailedRecordsHaveNoNext(m) && NoReentry(orch, m)
    requires !m.stored.state.IsTerminal() && FlowOf(orch, m).Some?
    ensures Ready(orch, m, m.stored) <==> !PointsAtFailure(m)
  {
    hide Inv, RecordsInv, FailedRecordsHaveNoNext, NoReentry, Ready, FreshPointer, PointsAtFailure, FindFlow;
    CrashIsHarmlessIff(orch, m);
    FreshUnlessFailed(orch, m);
  }

  /** After such a crash, resume reports success although the last recorded attempt failed. */
  lemma CrashAfterFailureReadsAsSuccess(orch: Orchestrator, m: Machine, oracle: nat -> Input, first: nat)
    requires PointsAtFailure(m) && FailedRecordsHaveNoNext(m)
    requires m.stored.state.Running? && FlowOf(orch, m).Some?
    ensures var m' := Iterate(orch, BeginCall(Crash(m), Resume), oracle, first, 4);
            m'.pc.Idle? && m'.stored.state.Succeeded? && m'.result == Returned && m'.log == m.log
  {
    hide FindFlow, FindStep, EvaluateStep;
    var m0 := BeginCall(Crash(m), Resume);
    var m1 := EngineStep(orch, m0, oracle(first));
    var m2 := EngineStep(orch, m1, oracle(first + 1));
    var m3 := EngineStep(orch, m2, oracle(first + 2));
    assert Iterate(orch, m0, oracle, first, 1) == m1;
    assert Iterate(orch, m0, oracle, first, 2) == m2;
    assert Iterate(orch, m0, oracle, first, 3) == m3;
    assert m2.pc == Settling && m2.stored.state.Succeeded?;
  }

  lemma RecordingKeepsRecords(orch: Orchestrator, m: Machine)
    requires Inv(orch, m) && RecordsInv(orch, m) && FailedRecordsHaveNoNext(m) && m.pc.Recording?
    ensures RecordsInv(orch, StepRecording(orch, m, m.pc.v)) && FailedRecordsHaveNoNext(StepRecording(orch, m, m.pc.v))
  {
    hide EvaluateStep, FindFlow, FindStep, LegalLog, CanRetry, ResolveLimits, EnforceSafety, FrontierOf, LastRecordInv, LogInv, FreshInv;
    var v := m.pc.v;
    var m' := StepRecording(orch, m, v);
    var flow := FlowOf(orch, m).value;
    forall key | key in m'.attempts && m'.attempts[key].state == AttemptSucceeded
      ensures exists i :: 0 <= i < |m'.log| && Latest(flow, m'.log, i, key, m'.attempts[key])
    {
      if key == (v.step.id, v.attempt) {
        assert Latest(flow, m'.log, |m.log|, key, m'.attempts[key]);
      } else {
        var i :| 0 <= i < |m.log| && Latest(flow, m.log, i, key, m.attempts[key]);
        assert Latest(flow, m'.log, i, key, m'.attempts[key]);
      }
    }
  }

  lemma EngineStepKeepsPointer(orch: Orchestrator, m: Machine, i: Input)
    requires Inv(orch, m) && PointerAtEnd(orch, m) && !m.pc.Recording?
    ensures PointerAtEnd(orch, EngineStep(orch, m, i))
  {
    hide EvaluateStep, FindFlow, FindStep, LegalLog, CanRetry, ResolveLimits, EnforceSafety, FrontierOf, LastRecordInv, LogInv,
      FreshInv, SucceededEntry, KeyOf, Ready, RecordOf, ResolvePointer;
  }

  lemma EngineStepKeepsRecords(orch: Orchestrator, m: Machine, i: Input)
    requires Inv(orch, m) && RecordsInv(orch, m) && FailedRecordsHaveNoNext(m)
    ensures RecordsInv(orch, EngineStep(orch, m, i)) && FailedRecordsHaveNoNext(EngineStep(orch, m, i))
  {
    hide EvaluateStep, FindFlow, FindStep, LegalLog, CanRetry, ResolveLimits, EnforceSafety, FrontierOf, LastRecordInv, LogInv, FreshInv, Latest, Ready, PointerAtEnd;
    if m.pc.Recording? {
      RecordingKeepsRecords(orch, m);
    } else {
      hide RecordOf, ResolvePointer;
      EngineStepKeepsPointer(orch, m, i);
      var m' := EngineStep(orch, m, i);
      assert m'.attempts == m.attempts && m'.log == m.log;
      assert FlowOf(orch, m') == FlowOf(orch, m);
      forall key | key in m'.attempts && m'.attempts[key].state == AttemptSucceeded
        ensures FlowOf(orch, m').Some? && exists i :: 0 <= i < |m'.log| && Latest(FlowOf(orch, m').value, m'.log, i, key, m'.attempts[key])
      {
        assert m'.attempts == m.attempts && m'.log == m.log;
      }
    }
  }

  /** Along a run, crashes fall only where the stored pointer names no failure and no step
      has been re-entered; attempts turn out as `world` says. */
  ghost predicate Checked(orch: Orchestrator, world: World, m: Machine, move: Move) {
    match move
    case EngineMove(i) => m.pc.Guarding? ==> i.outcome == world(m.log)
    case CrashMove => !PointsAtFailure(m) && NoReentry(orch, m)
    case _ => true
  }

  ghost predicate CheckedRun(orch: Orchestrator, world: World, m: Machine, moves: seq<Move>) {
    forall i :: 0 <= i < |moves| ==> Checked(orch, world, RunMoves(orch, m, moves[..i]), moves[i])
  }

  lemma CheckedIsAdmissible(orch: Orchestrator, world: World, m: Machine, move: Move)
    requires RecordsInv(orch, m) && Checked(orch, world, m, move)
    ensures Admissible(world, m, move)
  {
    hide EvaluateStep, FindFlow, FindStep, FrontierOf, NoReentry;
    if move.CrashMove? && !m.stored.state.IsTerminal() {
      if FlowOf(orch, m).Some? {
        FreshUnlessFailed(orch, m);
      }
    }
  }

  lemma ApplyKeepsRecords(orch: Orchestrator, m: Machine, move: Move)
    requires Inv(orch, m) && RecordsInv(orch, m) && FailedRecordsHaveNoNext(m)
    ensures RecordsInv(orch, Apply(orch, m, move)) && FailedRecordsHaveNoNext(Apply(orch, m, move))
  {
    hide EngineStep, FindFlow, FrontierOf, SucceededEntry, Inv;
    match move
    case EngineMove(i) => EngineStepKeepsRecords(orch, m, i);
    case _ =>
  }

  lemma {:induction false} RecordsStay(orch: Orchestrator, world: World, m: Machine, moves: seq<Move>)
    requires Inv(orch, m) && WorldInv(world, m) && RecordsInv(orch, m) && FailedRecordsHaveNoNext(m)
    requires AdmissibleRun(orch, world, m, moves)
    ensures var m' := RunMoves(orch, m, moves); Inv(orch, m') && RecordsInv(orch, m') && FailedRecordsHaveNoNext(m')
  {
    hide Inv, WorldInv, RecordsInv, FailedRecordsHaveNoNext, Admissible, Apply;
    RunKeepsInv(orch, world, m, moves);
    if moves != [] {
      var init := moves[..|moves| - 1];
      assert AdmissibleRun(orch, world, m, init) by {
        forall i | 0 <= i < |init| ensures Admissible(world, RunMoves(orch, m, init[..i]), init[i]) {
          assert init[..i] == moves[..i];
        }
      }
      RunKeepsInv(orch, world, m, init);
      RecordsStay(orch, world, m, init);
      ApplyKeepsRecords(orch, RunMoves(orch, m, init), moves[|moves| - 1]);
    }
  }

  /** Over every run whose crashes were harmless so far, the next one is harmless exactly when the
      record under the stored pointer is the last one stored and a success: no crash that the
      refinement leaves out could have been let in. */
  lemma NextCrashIsHarmlessIff(orch: Orchestrator, world: World, workflow_id: string, now: int, moves: seq<Move>)
    requires AdmissibleRun(orch, world, NewRun(workflow_id, now), moves)
    requires var m := RunMoves(orch, NewRun(workflow_id, now), moves); !m.stored.state.IsTerminal() && FlowOf(orch, m).Some?
    ensures var m := RunMoves(orch, NewRun(workflow_id, now), moves);
            Ready(orch, Crash(m), m.stored) <==> Admissible(world, m, CrashMove)
  {
    hide Inv, FindFlow, FrontierOf, AdmissibleRun, RunMoves, FreshPointer;
    NewRunInv(orch, workflow_id, now);
    RecordsStay(orch, world, NewRun(workflow_id, now), moves);
    var m := RunMoves(orch, NewRun(workflow_id, now), moves);
    CrashIsHarmlessIff(orch, m);
    assert Ready(orch, Crash(m), m.stored) == Ready(orch, m, m.stored);
  }

  lemma {:induction false} CheckedRunKeepsAll(orch: Orchestrator, world: World, m: Machine, moves: seq<Move>)
    requires Inv(orch, m) && WorldInv(world, m) && RecordsInv(orch, m) && FailedRecordsHaveNoNext(m)
    requires CheckedRun(orch, world, m, moves)
    ensures var m' := RunMoves(orch, m, moves);
            Inv(orch, m') && WorldInv(world, m') && RecordsInv(orch, m') && FailedRecordsHaveNoNext(m')
    ensures AdmissibleRun(orch, world, m, moves)
  {
    hide Inv, WorldInv, RecordsInv, FailedRecordsHaveNoNext, Checked, Admissible, Apply;
    if moves != [] {
      var init := moves[..|moves| - 1];
      var move := moves[|moves| - 1];
      assert forall i :: 0 <= i < |moves| ==> init[..Min(i, |init|)] == moves[..i];
      assert CheckedRun(orch, world, m, init) by {
        forall i | 0 <= i < |init| ensures Checked(orch, world, RunMoves(orch, m, init[..i]), init[i]) {
          assert init[..i] == moves[..i];
        }
      }
      CheckedRunKeepsAll(orch, world, m, init);
      var prior := RunMoves(orch, m, init);
      assert Checked(orch, world, prior, move);
      CheckedIsAdmissible(orch, world, prior, move);
      ApplyKeepsInv(orch, world, prior, move);
      ApplyKeepsRecords(orch, prior, move);
      forall i | 0 <= i < |moves| ensures Admissible(world, RunMoves(orch, m, moves[..i]), moves[i]) {
        if i < |init| {
          assert init[..i] == moves[..i];
        }
      }
    }
  }

  // ----- workflows that only go forward -------------------------------------------------

  predicate After(flow: Flow, i: nat, target: Option<string>) { target.Some? ==> Position(flow.steps, target.value) > i }

  /** Every target of every step is listed after it: no step can be entered twice. */
  predicate Forward(flow: Flow) {
    && UniqueIds(flow)
    && forall i :: 0 <= i < |flow.steps| ==>
         After(flow, i, flow.steps[i].next) && After(flow, i, flow.steps[i].on_approve) && After(flow, i, flow.steps[i].on_reject)
  }

  lemma ForwardTarget(flow: Flow, e: Exec)
    requires Forward(flow) && FlowStep(flow, e.step).Some? && ResultAt(flow, e).Ok? && ResultAt(flow, e).value.Some?
    ensures Position(flow.steps, ResultAt(flow, e).value.value) > Position(flow.steps, e.step)
  {
    hide Position;
    var i := Position(flow.steps, e.step);
    SuccessTarget(flow, i, e.outcome);
    var target := ResultAt(flow, e).value.value;
    if i + 1 < |flow.steps| && flow.steps[i + 1].id == target {
      var q := Position(flow.steps, target);
      assert q == i + 1;
    }
    assert After(flow, i, Some(target)) || (i + 1 < |flow.steps| && flow.steps[i + 1].id == target);
  }

  /** Along a path positions never fall, and rise after each success. */
  lemma {:induction false} PositionsRise(orch: Orchestrator, flow: Flow, log: seq<Exec>, i: nat, j: nat)
    requires Forward(flow) && IsPath(orch, flow, log) && i <= j < |log|
    ensures Position(flow.steps, log[i].step) <= Position(flow.steps, log[j].step)
    ensures i < j && SucceededEntry(flow, log[i]) ==> Position(flow.steps, log[i].step) < Position(flow.steps, log[j].step)
  {
    hide Position, Forward, EvaluateStep, ResolveLimits;
    if i < j {
      PositionsRise(orch, flow, log, i, j - 1);
      assert Follows(orch, flow, log[j - 1], log[j - 1 + 1]);
      if ResultAt(flow, log[j - 1]).Ok? { ForwardTarget(flow, log[j - 1]); }
    }
  }

  /** In a forward workflow no run re-enters a step: a condition on the workflow alone. */
  lemma ForwardNeverReenters(orch: Orchestrator, m: Machine)
    requires Inv(orch, m) && (FlowOf(orch, m).Some? ==> Forward(FlowOf(orch, m).value))
    ensures NoReentry(orch, m)
  {
    hide Position, Forward, EvaluateStep, ResolveLimits, FindFlow, PcInv, FreshInv, LastRecordInv, StateInv, IsPath, FindStep;
    if FlowOf(orch, m).Some? {
      var flow := FlowOf(orch, m).value;
      LegalLogIsPath(orch, flow, m.log);
      forall i, j | 0 <= i < j < |m.log| && SucceededEntry(flow, m.log[i]) ensures m.log[j].step != m.log[i].step {
        PositionsRise(orch, flow, m.log, i, j);
      }
      if FrontierOf(orch, flow, m.log).At? && m.log != [] {
        var last := m.log[|m.log| - 1];
        if ResultAt(flow, last).Ok? { ForwardTarget(flow, last); }
        forall i | 0 <= i < |m.log| && SucceededEntry(flow, m.log[i]) ensures m.log[i].step != FrontierOf(orch, flow, m.log).step {
          PositionsRise(orch, flow, m.log, i, |m.log| - 1);
        }
      }
    }
  }

  /** The refinement, for runs whose crashes fall where the stored pointer names no failure and
      no attempt so far has re-entered a step; in a forward workflow the second always holds. */
  lemma CheckedResumeRefines(orch: Orchestrator, world: World, workflow_id: string,
                             now1: int, moves1: seq<Move>, now2: int, moves2: seq<Move>)
    requires CheckedRun(orch, world, NewRun(workflow_id, now1), moves1)
    requires CheckedRun(orch, world, NewRun(workflow_id, now2), moves2)
    requires RunMoves(orch, NewRun(workflow_id, now1), moves1).stored.state.Succeeded?
    ensures RunMoves(orch, NewRun(workflow_id, now2), moves2).log
         <= RunMoves(orch, NewRun(workflow_id, now1), moves1).log
    ensures RunMoves(orch, NewRun(workflow_id, now2), moves2).stored.state.Succeeded? ==>
              RunMoves(orch, NewRun(workflow_id, now2), moves2).log == RunMoves(orch, NewRun(workflow_id, now1), moves1).log
  {
    NewRunInv(orch, workflow_id, now1);
    NewRunInv(orch, workflow_id, now2);
    CheckedRunKeepsAll(orch, world, NewRun(workflow_id, now1), moves1);
    CheckedRunKeepsAll(orch, world, NewRun(workflow_id, now2), moves2);
    ResumeRefinesUninterrupted(orch, world, workflow_id, now1, moves1, now2, moves2);
  }
}
