/** Which cancels stick: the engine keeps its own copy of the run and writes it back, so a
    cancel survives exactly when it falls where the next thing the engine does is reload. */
module EngineCancel {
  import opened Prelude
  import opened Workflow
  import opened RunStore
  import opened EngineMachine
  import opened EngineShape
  import opened EngineProgress

  predicate ByCommand(run: RunRecord) {
    run.state.Canceled? ==> run.terminal_reason == Some(CanceledByCommand)
  }

  /** A canceled record always says why. */
  predicate ReasonInv(m: Machine) {
    ByCommand(m.stored) && ByCommand(m.mem) && (m.pc.CountWriting? ==> ByCommand(m.pc.loaded))
  }

  /** The engine, where it stands, will not write an open copy over the stored record. */
  predicate WillReload(orch: Orchestrator, m: Machine) {
    match m.pc
    case Loaded(call) => m.mem.state.IsTerminal() || (call == Start && m.mem.state.Waiting?)
    case LoopHead => !m.mem.state.Running? || m.cycles >= MAX_CYCLES
    case Marking(_, _, _) => m.mem.state.Canceled?
    case Guarding(flow, step, attempt, started) =>
      || m.mem.state.Canceled?
      || EnforceSafety(m.mem, ResolveLimits(orch, flow, step), started, started, attempt).None?
    case CountWriting(_, loaded) => loaded.state.Canceled?
    case Deciding(_) => m.mem.state.Canceled?
    case Failing(_) => m.mem.state.IsTerminal()
    case _ => true
  }

  predicate CancelHeld(orch: Orchestrator, m: Machine) {
    m.stored.state.Canceled? && WillReload(orch, m)
  }

  lemma ApplyKeepsReasons(orch: Orchestrator, m: Machine, move: Move)
    requires ReasonInv(m)
    ensures ReasonInv(Apply(orch, m, move))
  {
    hide EvaluateStep, FindFlow, FindStep, ResolvePointer, ResolveLimits, EnforceSafety, CanRetry, RecordOf, IsRetryable;
  }

  lemma EngineStepKeepsCancel(orch: Orchestrator, m: Machine, i: Input)
    requires CancelHeld(orch, m)
    ensures CancelHeld(orch, EngineStep(orch, m, i))
  {
    hide EvaluateStep, FindFlow, FindStep, ResolvePointer, ResolveLimits, EnforceSafety, CanRetry, RecordOf, IsRetryable;
  }

  lemma ApplyKeepsCancel(orch: Orchestrator, m: Machine, move: Move)
    requires CancelHeld(orch, m)
    ensures CancelHeld(orch, Apply(orch, m, move))
  {
    hide EngineStep, EnforceSafety, ResolveLimits;
    match move
    case EngineMove(i) => EngineStepKeepsCancel(orch, m, i);
    case _ =>
  }

  /** A cancel that is held stays, with its reason, through everything that can happen
      later: retries, checkpoints, failure handling, further cancels, crashes and resumes. */
  lemma {:induction false} HeldCancelIsForever(orch: Orchestrator, m: Machine, moves: seq<Move>)
    requires CancelHeld(orch, m) && ReasonInv(m)
    ensures CancelHeld(orch, RunMoves(orch, m, moves)) && ReasonInv(RunMoves(orch, m, moves))
    ensures RunMoves(orch, m, moves).stored.state == Canceled
    ensures RunMoves(orch, m, moves).stored.terminal_reason == Some(CanceledByCommand)
  {
    hide Apply, WillReload;
    if moves != [] {
      var prior := RunMoves(orch, m, moves[..|moves| - 1]);
      HeldCancelIsForever(orch, m, moves[..|moves| - 1]);
      ApplyKeepsCancel(orch, prior, moves[|moves| - 1]);
      ApplyKeepsReasons(orch, prior, moves[|moves| - 1]);
    }
  }

  predicate NowhereCanceled(m: Machine) {
    && !m.stored.state.Canceled? && !m.mem.state.Canceled?
    && (m.pc.CountWriting? ==> !m.pc.loaded.state.Canceled?)
  }

  lemma EngineNeverCancels(orch: Orchestrator, m: Machine, i: Input)
    requires NowhereCanceled(m)
    ensures NowhereCanceled(EngineStep(orch, m, i))
  {
    hide EvaluateStep, FindFlow, FindStep, ResolvePointer, ResolveLimits, EnforceSafety, CanRetry, RecordOf, IsRetryable;
  }

  /** How far the engine is from overwriting the stored record. */
  function Distance(orch: Orchestrator, m: Machine): nat {
    match m.pc
    case Loaded(call) => if m.mem.state.Queued? || (call == Resume && m.mem.state.Waiting?) then 1 else 3
    case LoopHead => 2
    case Guarding(_, _, _, _) => 2
    case Deciding(v) => 2
    case _ => 1
  }

  lemma OneStepCloser(orch: Orchestrator, m: Machine, i: Input)
    requires m.stored.state.Canceled? && !WillReload(orch, m) && m.pc != Idle
    requires m.mem.state.Running? || (m.pc.Loaded? && !m.mem.state.IsTerminal())
    requires m.pc.CountWriting? ==> m.mem.state == m.pc.loaded.state
    ensures var m' := EngineStep(orch, m, i);
            || NowhereCanceled(m')
            || (m'.stored.state.Canceled? && !WillReload(orch, m') && m'.pc != Idle && m'.mem.state.Running?
                && !m'.pc.CountWriting? && Distance(orch, m') < Distance(orch, m))
  {
    hide EvaluateStep, FindFlow, FindStep, ResolvePointer, ResolveLimits, EnforceSafety, CanRetry, RecordOf, IsRetryable;
  }

  lemma {:induction false} OpenCopyOverwrites(orch: Orchestrator, m: Machine, oracle: nat -> Input, first: nat, k: nat)
    requires m.stored.state.Canceled? && !WillReload(orch, m) && m.pc != Idle
    requires m.mem.state.Running? || (m.pc.Loaded? && !m.mem.state.IsTerminal())
    requires m.pc.CountWriting? ==> m.mem.state == m.pc.loaded.state
    ensures var m' := Iterate(orch, m, oracle, first, k);
            || NowhereCanceled(m')
            || (m'.stored.state.Canceled? && !WillReload(orch, m') && m'.pc != Idle
                && (m'.mem.state.Running? || (m'.pc.Loaded? && !m'.mem.state.IsTerminal()))
                && (m'.pc.CountWriting? ==> m'.mem.state == m'.pc.loaded.state)
                && Distance(orch, m') + k <= Distance(orch, m))
  {
    hide EngineStep, NowhereCanceled, WillReload, Distance;
    if k > 0 {
      OpenCopyOverwrites(orch, m, oracle, first, k - 1);
      var prior := Iterate(orch, m, oracle, first, k - 1);
      if NowhereCanceled(prior) {
        EngineNeverCancels(orch, prior, oracle(first + k - 1));
      } else {
        OneStepCloser(orch, prior, oracle(first + k - 1));
      }
    }
  }

  lemma CancelFindsOpenCopy(orch: Orchestrator, m: Machine)
    requires LiveInv(orch, m) && !m.stored.state.IsTerminal() && !WillReload(orch, Cancel(m))
    ensures var m' := Cancel(m);
            && m'.stored.state.Canceled? && m'.pc != Idle
            && (m'.mem.state.Running? || (m'.pc.Loaded? && !m'.mem.state.IsTerminal()))
            && (m'.pc.CountWriting? ==> m'.mem.state == m'.pc.loaded.state)
  {
    hide EvaluateStep, FindFlow, FindStep, ResolvePointer, ResolveLimits, EnforceSafety, CanRetry, RecordOf, MaxTotal;
  }

  /** A cancel of an open run sticks if and only if it falls where the engine will reload
      before it writes; anywhere else the engine overwrites it within three steps. */
  lemma CancelSticksIff(orch: Orchestrator, m: Machine, oracle: nat -> Input, first: nat)
    requires LiveInv(orch, m) && !m.stored.state.IsTerminal()
    ensures WillReload(orch, Cancel(m)) ==>
              forall k :: Iterate(orch, Cancel(m), oracle, first, k).stored.state.Canceled?
    ensures !WillReload(orch, Cancel(m)) ==>
              !Iterate(orch, Cancel(m), oracle, first, 3).stored.state.Canceled?
  {
    hide WillReload, EngineStep, LiveInv;
    if WillReload(orch, Cancel(m)) {
      forall k: nat ensures Iterate(orch, Cancel(m), oracle, first, k).stored.state.Canceled? {
        HeldCancelIterates(orch, Cancel(m), oracle, first, k);
      }
    } else {
      CancelFindsOpenCopy(orch, m);
      OpenCopyOverwrites(orch, Cancel(m), oracle, first, 3);
    }
  }

  /** So it is wherever a run may have got to, crashes at any moment included. */
  lemma EveryCancelSticksIff(orch: Orchestrator, workflow_id: string, now: int, moves: seq<Move>, oracle: nat -> Input, first: nat)
    requires !RunMoves(orch, NewRun(workflow_id, now), moves).stored.state.IsTerminal()
    ensures var m := Cancel(RunMoves(orch, NewRun(workflow_id, now), moves));
            && (WillReload(orch, m) ==> forall k :: Iterate(orch, m, oracle, first, k).stored.state.Canceled?)
            && (!WillReload(orch, m) ==> !Iterate(orch, m, oracle, first, 3).stored.state.Canceled?)
  {
    hide WillReload, LiveInv, RunMoves, Iterate;
    EveryRunLives(orch, workflow_id, now, moves);
    CancelSticksIff(orch, RunMoves(orch, NewRun(workflow_id, now), moves), oracle, first);
  }

  lemma {:induction false} HeldCancelIterates(orch: Orchestrator, m: Machine, oracle: nat -> Input, first: nat, k: nat)
    requires CancelHeld(orch, m)
    ensures CancelHeld(orch, Iterate(orch, m, oracle, first, k))
  {
    hide WillReload, EngineStep;
    if k > 0 {
      HeldCancelIterates(orch, m, oracle, first, k - 1);
      EngineStepKeepsCancel(orch, Iterate(orch, m, oracle, first, k - 1), oracle(first + k - 1));
    }
  }

  /** While a step attempt executes, from the stored start to the stored count, a cancel sticks,
      provided the safety check made before the execution passes. */
  lemma CancelDuringExecutionSticks(orch: Orchestrator, m: Machine)
    requires m.pc.Recording? || m.pc.Counting? || m.pc.Reloading? || m.pc.Settling? || m.pc.Idle?
          || (m.pc.Guarding? && EnforceSafety(m.mem, ResolveLimits(orch, m.pc.flow, m.pc.step), m.pc.started, m.pc.started, m.pc.attempt).None?)
    requires !m.stored.state.IsTerminal()
    ensures CancelHeld(orch, Cancel(m))
  {
    hide EnforceSafety, ResolveLimits;
  }
}
