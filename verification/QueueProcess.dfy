/** What one process does without crashing: the names it makes up are new, so it loses nothing. */
module QueueProcess {
  import opened QueueNames
  import opened QueueFiles
  import opened QueueMachine
  import opened QueueRuns

  /** Whatever is in processing is in some worker's hands. */
  ghost predicate AllHeld(q: Queue) {
    && q.dropped == {} && q.lost == {}
    && forall name <- q.files.processing :: IsHeld(q, name)
  }

  /** Accepted and requeued files take names that no live file has. */
  predicate NewNames(q: Queue, step: Step) {
    match step
    case Accept(name, _) => name !in q.files.incoming && name !in q.files.processing
    case GiveBack(_, renamed) => Enabled(q, step) ==> renamed !in q.files.incoming && renamed !in q.files.processing
    case _ => true
  }

  predicate Unbroken(steps: seq<Step>) { forall i :: 0 <= i < |steps| ==> !steps[i].Crash? && !steps[i].Abandon? }

  lemma OthersStillHold(q: Queue, q': Queue, w: nat, name: string)
    requires IsHeld(q, name) && forall v :: v != w && v in q.workers ==> v in q'.workers && q'.workers[v] == q.workers[v]
    requires w in q.workers && Holds(q.workers[w]) && q.workers[w].name == name ==>
               w in q'.workers && Holds(q'.workers[w]) && q'.workers[w].name == name
    ensures IsHeld(q', name)
  {
    var v :| v in q.workers && Holds(q.workers[v]) && q.workers[v].name == name;
    if v != w { assert q'.workers[v] == q.workers[v]; }
  }

  /** A step of worker `w` that leaves in processing only what was there or what `w` now holds. */
  lemma WorkerKeepsAllHeld(q: Queue, q': Queue, w: nat)
    requires AllHeld(q) && q'.dropped == {} && q'.lost == {}
    requires forall v <- q.workers :: v != w ==> v in q'.workers && q'.workers[v] == q.workers[v]
    requires forall name <- q'.files.processing ::
               || (w in q'.workers && Holds(q'.workers[w]) && q'.workers[w].name == name)
               || (name in q.files.processing && !(w in q.workers && Holds(q.workers[w]) && q.workers[w].name == name))
    ensures AllHeld(q')
  {
    forall name | name in q'.files.processing ensures IsHeld(q', name) {
      if !(w in q'.workers && Holds(q'.workers[w]) && q'.workers[w].name == name) { OthersStillHold(q, q', w, name); }
    }
  }

  lemma FirstIsThere(order: seq<string>, processing: map<string, Body>)
    requires IsOrder(order, processing)
    ensures order != [] ==> order[0] in processing
  {
  }

  /** Recovery with nothing in processing does nothing. */
  lemma IdleRecovery(q: Queue, hash: string -> string, order: seq<string>, n: nat)
    requires q.files.processing == map[] && Enabled(q, RecoverSome(hash, order, n))
    ensures Apply(q, RecoverSome(hash, order, n)) == q
  {
    FirstIsThere(order, q.files.processing);
    assert DroppedBy(q.files, order, n) == {} && OverwrittenBy(hash, q.files, order, n) == {};
  }

  lemma NothingToRecover(q: Queue, hash: string -> string, order: seq<string>, n: nat)
    requires AllHeld(q) && Enabled(q, RecoverSome(hash, order, n))
    ensures Apply(q, RecoverSome(hash, order, n)) == q
  {
    hide IsOrder, RecoverPrefix, DroppedBy, OverwrittenBy;
    assert forall name <- q.files.processing :: IsHeld(q, name);
    IdleRecovery(q, hash, order, n);
  }

  lemma ApplyKeepsAllHeld(q: Queue, step: Step)
    requires HeldInv(q) && HeldOut(q) && AllHeld(q) && Enabled(q, step) && NewNames(q, step) && !step.Crash? && !step.Abandon?
    ensures AllHeld(Apply(q, step))
  {
    hide RecoverPrefix, IsOrder, Restored, AllHeld, DroppedBy, OverwrittenBy, OutgoingKeys;
    var q' := Apply(q, step);
    NothingDropped(q);
    match step
    case Accept(_, _) => SameHands(q, q');
    case Crash =>
    case Abandon(_) =>
    case RecoverSome(hash, order, n) => NothingToRecover(q, hash, order, n);
    case Try(w) =>
      if Takes(q, step).Some? && Takes(q, step).value in q.files.processing { HeldIsOut(q, Takes(q, step).value); }
      WorkerKeepsAllHeld(q, q', w);
    case _ => WorkerKeepsAllHeld(q, q', step.w);
  }

  lemma NothingDropped(q: Queue)
    requires AllHeld(q)
    ensures q.dropped == {} && q.lost == {}
  {
  }

  lemma HeldIsOut(q: Queue, name: string)
    requires AllHeld(q) && HeldOut(q) && name in q.files.processing
    ensures name !in q.files.incoming
  {
    assert IsHeld(q, name);
  }

  lemma SameHands(q: Queue, q': Queue)
    requires AllHeld(q) && q'.workers == q.workers && q'.files.processing == q.files.processing && q'.dropped == {} && q'.lost == {}
    ensures AllHeld(q')
  {
    forall name | name in q'.files.processing ensures IsHeld(q', name) { assert IsHeld(q, name); }
  }

  lemma NewNamesAreUnheld(q: Queue, step: Step)
    requires HeldInv(q) && NewNames(q, step) && Enabled(q, step)
    ensures NamesUnheld(q, step)
  {
  }

  /** Without crashes and abandoned files, and with new names, nothing is ever dropped or lost,
      and a message in processing is in the hands of exactly one worker. */
  lemma {:induction false} CrashFreeRuns(steps: seq<Step>)
    requires Unbroken(steps) && Always(NewNames, steps)
    ensures AllHeld(Run(steps)) && HeldInv(Run(steps)) && HeldOut(Run(steps)) && OnePlace(Run(steps))
  {
    hide HeldInv, HeldOut, OnePlace, LossInv, Enabled, Apply, AllHeld, NewNames, Always, NamesUnheld, TakesUnheld;
    QueueIsSafe(steps);
    if steps == [] {
      NothingHeld();
    } else {
      var init, step := steps[..|steps| - 1], steps[|steps| - 1];
      AlwaysStep(NewNames, steps);
      CrashFreeRuns(init);
      if Enabled(Run(init), step) {
        ApplyKeepsAllHeld(Run(init), step);
        NewNamesAreUnheld(Run(init), step);
        UnheldStaysOut(Run(init), step);
        ApplyKeepsHeld(Run(init), step);
      }
    }
  }

  lemma NothingHeld()
    ensures AllHeld(EMPTY_QUEUE) && HeldInv(EMPTY_QUEUE) && HeldOut(EMPTY_QUEUE)
  {
  }

  // ----- the names a process makes up ---------------------------------------------------

  /** Requeued and dead-lettered files are named as the repository names them, by the counter of
      the process. */
  predicate NamedByCounter(hash: string -> string, q: Queue, step: Step) {
    match step
    case GiveBack(w, renamed) =>
      Enabled(q, step) ==> renamed == RequeueName(hash, WorkerOf(q, w).name, NextAttempt(WorkerOf(q, w).name), q.counter)
    case WriteDeadLetter(w, name) => Enabled(q, step) ==> name == DeadLetterName(hash, WorkerOf(q, w).body.key.value.1, q.counter)
    case _ => true
  }

  /** Those names, and accepted files whose names are new and no requeue names. */
  predicate CounterNames(hash: string -> string, q: Queue, step: Step) {
    && NamedByCounter(hash, q, step)
    && (step.Accept? ==>
          step.name !in q.files.incoming && step.name !in q.files.processing && !(REQUEUE_PREFIX <= step.name))
  }

  ghost function Named(hash: string -> string): (Queue, Step) -> bool { (q, step) => NamedByCounter(hash, q, step) }

  ghost function Countered(hash: string -> string): (Queue, Step) -> bool { (q, step) => CounterNames(hash, q, step) }

  /** A name that counters from `lo` up to `hi` do not make. */
  predicate Unmade(name: string, lo: nat, hi: nat) { CounterOf(name) < lo || CounterOf(name) >= hi }

  /** The requeue and dead-letter names on disk are none that the process makes from here until
      its counter is `hi`. */
  predicate CounterInv(q: Queue, hi: nat) {
    && (forall name <- q.files.incoming :: REQUEUE_PREFIX <= name ==> Unmade(name, q.counter, hi))
    && (forall name <- q.files.processing :: REQUEUE_PREFIX <= name ==> Unmade(name, q.counter, hi))
    && (forall name <- q.files.failed :: Unmade(name, q.counter, hi))
  }

  /** A process recovers, if at all, before it starts: later it finds nothing in processing. */
  predicate Steady(q: Queue, step: Step) { !step.Crash? && (step.RecoverSome? && Enabled(q, step) ==> q.files.processing == map[]) }

  lemma CounterNamesAreNew(hash: string -> string, q: Queue, step: Step, hi: nat)
    requires CounterInv(q, hi) && CounterNames(hash, q, step) && Enabled(q, step) && Steady(q, step) && Apply(q, step).counter <= hi
    ensures NewNames(q, step) && (step.WriteDeadLetter? ==> step.name !in q.files.failed)
  {
    hide CounterOf, RequeueName, DeadLetterName, IsOrder, RecoverPrefix, DroppedBy, OverwrittenBy;
    match step
    case GiveBack(w, _) => RequeueNameCounts(hash, WorkerOf(q, w).name, NextAttempt(WorkerOf(q, w).name), q.counter);
    case WriteDeadLetter(w, _) => DeadLetterNameCounts(hash, WorkerOf(q, w).body.key.value.1, q.counter);
    case _ =>
  }

  lemma ApplyKeepsCounters(hash: string -> string, q: Queue, step: Step, hi: nat)
    requires CounterInv(q, hi) && CounterNames(hash, q, step) && Enabled(q, step) && Steady(q, step)
    ensures CounterInv(Apply(q, step), hi) && q.counter <= Apply(q, step).counter
  {
    hide CounterOf, RequeueName, DeadLetterName, IsOrder, RecoverPrefix, DroppedBy, OverwrittenBy;
    match step
    case GiveBack(w, _) => RequeueNameCounts(hash, WorkerOf(q, w).name, NextAttempt(WorkerOf(q, w).name), q.counter);
    case WriteDeadLetter(w, _) => DeadLetterNameCounts(hash, WorkerOf(q, w).body.key.value.1, q.counter);
    case RecoverSome(h, order, n) => IdleRecovery(q, h, order, n);
    case _ =>
  }

  /** With new names, and names in incoming and in processing apart, a step loses nothing. */
  lemma NewNamesLoseNothing(q: Queue, step: Step)
    requires HeldInv(q) && Apart(q) && Enabled(q, step) && Steady(q, step)
    requires NewNames(q, step) && (step.WriteDeadLetter? ==> step.name !in q.files.failed)
    ensures var q' := Apply(q, step); q'.lost == q.lost && q'.erased == q.erased && q'.dropped == q.dropped
    ensures TakesUnheld(q, step) && Apart(Apply(q, step))
  {
    hide IsOrder, RecoverPrefix, DroppedBy, OverwrittenBy;
    match step
    case RecoverSome(h, order, n) => IdleRecovery(q, h, order, n);
    case _ =>
  }

  /** The steps of a process that starts where the run `before` has led, as the steps that follow. */
  ghost predicate From(p: (Queue, Step) -> bool, before: seq<Step>, steps: seq<Step>) {
    forall i :: 0 <= i < |steps| ==> p(Run(before + steps[..i]), steps[i])
  }

  lemma FromStep(p: (Queue, Step) -> bool, before: seq<Step>, steps: seq<Step>)
    requires steps != []
    ensures var init := steps[..|steps| - 1];
            From(p, before, steps) <==> From(p, before, init) && p(Run(before + init), steps[|steps| - 1])
  {
    hide Run;
    var init := steps[..|steps| - 1];
    assert forall i :: 0 <= i < |init| ==> init[..i] == steps[..i] && init[i] == steps[i];
    if From(p, before, init) && p(Run(before + init), steps[|steps| - 1]) {
      forall i | 0 <= i < |steps| ensures p(Run(before + steps[..i]), steps[i]) {
        if i < |init| { assert p(Run(before + init[..i]), init[i]); }
      }
    }
  }

  lemma LastOfRun(before: seq<Step>, steps: seq<Step>)
    requires steps != []
    ensures Run(before + steps) == Next(Run(before + steps[..|steps| - 1]), steps[|steps| - 1])
  {
    var all := before + steps;
    assert all[..|all| - 1] == before + steps[..|steps| - 1] && all[|all| - 1] == steps[|steps| - 1];
  }

  /** What a process does after any run: it starts with no worker at work and with names in
      incoming and in processing apart, as after a whole recovery, and until its counter is `hi` it
      makes no name that is already on disk. */
  ghost predicate Starts(before: seq<Step>, hi: nat) {
    var q := Run(before);
    q.workers == map[] && Apart(q) && CounterInv(q, hi)
  }

  lemma {:induction false} ProcessSteps(hash: string -> string, before: seq<Step>, steps: seq<Step>, hi: nat)
    requires Starts(before, hi) && From(Steady, before, steps) && From(Countered(hash), before, steps)
    requires Run(before + steps).counter <= hi
    ensures var q, q' := Run(before), Run(before + steps);
            && q'.lost == q.lost && q'.erased == q.erased && q'.dropped == q.dropped
            && HeldInv(q') && Apart(q') && CounterInv(q', hi)
    ensures From(NewNames, before, steps)
  {
    hide Run, Apply, HeldInv, Apart, CounterInv, Steady, From, NewNames, CounterNames, Enabled;
    if steps == [] {
      assert before + steps == before;
      NothingStarted(before);
    } else {
      var init, step := steps[..|steps| - 1], steps[|steps| - 1];
      FromStep(Steady, before, steps);
      FromStep(Countered(hash), before, steps);
      FromStep(NewNames, before, steps);
      LastOfRun(before, steps);
      var q := Run(before + init);
      if Enabled(q, step) {
        CounterGrows(q, step);
        ProcessSteps(hash, before, init, hi);
        CounterNamesAreNew(hash, q, step, hi);
        NewNamesLoseNothing(q, step);
        ApplyKeepsHeld(q, step);
        ApplyKeepsCounters(hash, q, step, hi);
      } else {
        ProcessSteps(hash, before, init, hi);
        DisabledIsNew(hash, q, step);
      }
    }
  }

  lemma CounterGrows(q: Queue, step: Step)
    requires Enabled(q, step) && Steady(q, step)
    ensures q.counter <= Apply(q, step).counter
  {
    hide IsOrder, RecoverPrefix, DroppedBy, OverwrittenBy;
  }

  lemma DisabledIsNew(hash: string -> string, q: Queue, step: Step)
    requires !Enabled(q, step) && CounterNames(hash, q, step)
    ensures NewNames(q, step)
  {
    hide IsOrder;
  }

  lemma NothingStarted(before: seq<Step>)
    ensures From(NewNames, before, []) && (Run(before).workers == map[] ==> HeldInv(Run(before)))
  {
    hide Run;
  }

  /** A process that does not crash loses nothing, for every hash and after any run, files that it or
      earlier ones gave up on included: its counter keeps the names it makes up apart, so that,
      when none of them is on disk already, it overwrites no message and no dead letter. */
  lemma OneProcessLosesNothing(hash: string -> string, before: seq<Step>, steps: seq<Step>)
    requires Starts(before, Run(before + steps).counter) && From(Steady, before, steps) && From(Countered(hash), before, steps)
    ensures var q, q' := Run(before), Run(before + steps);
            q'.lost == q.lost && q'.erased == q.erased && q'.dropped == q.dropped && HeldInv(q')
  {
    hide Run, HeldInv, Apart, CounterInv, Steady, From, CounterNames;
    ProcessSteps(hash, before, steps, Run(before + steps).counter);
  }

  /** After a restart, a crash and a whole recovery, the names on disk alone decide. */
  lemma RestartStarts(before: seq<Step>, hash: string -> string, order: seq<string>, hi: nat)
    requires Enabled(Run(before + [Crash]), RecoverSome(hash, order, |order|))
    ensures var restarted := before + [Crash] + [RecoverSome(hash, order, |order|)];
            Run(restarted).counter == 0 && (Starts(restarted, hi) <==> CounterInv(Run(restarted), hi))
  {
    hide IsOrder, RecoverPrefix, DroppedBy, OverwrittenBy, CounterInv, Writes, Restored;
    var s0 := before + [Crash];
    var s1 := s0 + [RecoverSome(hash, order, |order|)];
    assert s0[..|s0| - 1] == before && s1[..|s1| - 1] == s0;
    assert Run(s0).workers == map[] && Run(s0).counter == 0;
    RecoveryRestores(hash, Run(s0).files, order, |order|);
  }

  lemma AlwaysIsFrom(p: (Queue, Step) -> bool, steps: seq<Step>)
    ensures Always(p, steps) <==> From(p, [], steps)
  {
    hide Run;
    assert forall i :: 0 <= i <= |steps| ==> [] + steps[..i] == steps[..i];
  }

  lemma EmptyStarts(hi: nat)
    ensures Starts([], hi) && Run([]).erased == {} && From(Steady, [], [])
  {
  }

  /** When all that is in processing is held, a recovery finds nothing. */
  lemma HeldIsSteady(q: Queue, step: Step)
    requires AllHeld(q) && !step.Crash?
    ensures Steady(q, step)
  {
    hide IsOrder;
    assert forall name <- q.files.processing :: IsHeld(q, name);
  }

  /** The first process, on the empty store: it also leaves nothing in processing that no worker
      holds, unless it gives a file up. */
  lemma {:induction false} FirstProcess(hash: string -> string, steps: seq<Step>)
    requires Unbroken(steps) && Always(Countered(hash), steps)
    ensures Always(NewNames, steps) && From(Steady, [], steps) && AllHeld(Run(steps)) && HeldInv(Run(steps))
    ensures Run(steps).lost == {} && Run(steps).erased == {} && Run(steps).dropped == {}
  {
    hide Run, HeldInv, HeldOut, OnePlace, AllHeld, NewNames, Always, CounterNames, From, Apart, CounterInv, Steady, Starts;
    EmptyStarts(Run(steps).counter);
    assert [] + steps == steps;
    if steps != [] {
      var init, step := steps[..|steps| - 1], steps[|steps| - 1];
      AlwaysStep(Countered(hash), steps);
      FirstProcess(hash, init);
      HeldIsSteady(Run(init), step);
      assert [] + init == init;
      FromStep(Steady, [], steps);
    }
    AlwaysIsFrom(Countered(hash), steps);
    OneProcessLosesNothing(hash, [], steps);
    ProcessSteps(hash, [], steps, Run(steps).counter);
    AlwaysIsFrom(NewNames, steps);
    CrashFreeRuns(steps);
    NothingDropped(Run(steps));
  }
}
