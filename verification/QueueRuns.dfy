/** The queue over whole runs: any interleaving of workers, crashes and recoveries, with any
    file names. */
module QueueRuns {
  import opened QueueNames
  import opened QueueFiles
  import opened QueueMachine

  /** Steps that make no sense where they stand do not happen. */
  ghost function Next(q: Queue, step: Step): Queue {
    if Enabled(q, step) then Apply(q, step) else q
  }

  ghost function Run(steps: seq<Step>): Queue {
    if steps == [] then EMPTY_QUEUE else Next(Run(steps[..|steps| - 1]), steps[|steps| - 1])
  }

  lemma Stepwise(steps: seq<Step>, k: nat)
    requires k < |steps|
    ensures Run(steps[..k + 1]) == Next(Run(steps[..k]), steps[k])
  {
    assert steps[..k + 1][..k] == steps[..k];
  }

  /** `p` holds of every step where it stands. */
  ghost predicate Always(p: (Queue, Step) -> bool, steps: seq<Step>) {
    forall i :: 0 <= i < |steps| ==> p(Run(steps[..i]), steps[i])
  }

  lemma AlwaysStep(p: (Queue, Step) -> bool, steps: seq<Step>)
    requires steps != []
    ensures Always(p, steps) <==> Always(p, steps[..|steps| - 1]) && p(Run(steps[..|steps| - 1]), steps[|steps| - 1])
  {
    hide Run;
    var init := steps[..|steps| - 1];
    assert forall i :: 0 <= i < |init| ==> init[..i] == steps[..i] && init[i] == steps[i];
    if Always(p, init) && p(Run(init), steps[|steps| - 1]) {
      forall i | 0 <= i < |steps| ensures p(Run(steps[..i]), steps[i]) {
        if i < |init| { assert p(Run(init[..i]), init[i]); }
      }
    }
  }

  /** Safety over every run: every accepted message is in exactly one place, and each one is
      accounted for, wherever crashes fall, in the middle of a recovery included, and whatever
      names files are given. `NothingIsLostIff` says when a message or a dead letter is lost. */
  lemma {:induction false} QueueIsSafe(steps: seq<Step>)
    ensures OnePlace(Run(steps)) && LossInv(Run(steps))
  {
    hide OnePlace, LossInv, Enabled, Apply;
    if steps == [] {
      EmptyIsSafe();
    } else {
      QueueIsSafe(steps[..|steps| - 1]);
      var q, step := Run(steps[..|steps| - 1]), steps[|steps| - 1];
      if Enabled(q, step) {
        ApplyKeepsPlace(q, step);
        ApplyKeepsLoss(q, step);
      }
    }
  }

  lemma EmptyIsSafe()
    ensures HeldInv(EMPTY_QUEUE) && OnePlace(EMPTY_QUEUE) && LossInv(EMPTY_QUEUE)
  {
  }

  // ----- mutual exclusion ---------------------------------------------------------------

  ghost predicate HeldThroughout(steps: seq<Step>) { forall k :: 0 <= k <= |steps| ==> HeldInv(Run(steps[..k])) }

  lemma HeldThroughoutStep(steps: seq<Step>)
    requires steps != []
    ensures HeldThroughout(steps) <==> HeldThroughout(steps[..|steps| - 1]) && HeldInv(Run(steps))
  {
    hide HeldInv, Run;
    var init := steps[..|steps| - 1];
    assert forall k :: 0 <= k <= |init| ==> init[..k] == steps[..k];
    assert steps[..|steps|] == steps;
    if HeldThroughout(init) && HeldInv(Run(steps)) {
      forall k | 0 <= k <= |steps| ensures HeldInv(Run(steps[..k])) {
        if k <= |init| { assert HeldInv(Run(init[..k])); }
      }
    }
  }

  /** No file is ever held by two workers, throughout a run, if and only if no claim takes a name
      that some worker holds. */
  lemma {:induction false} MutualExclusionIff(steps: seq<Step>)
    ensures HeldThroughout(steps) <==> Always(TakesUnheld, steps)
  {
    hide HeldInv, TakesUnheld, Apply, HeldThroughout, Always;
    if steps == [] {
      assert HeldThroughout([]) && Always(TakesUnheld, []) by { NothingYet(); }
    } else {
      var init, step := steps[..|steps| - 1], steps[|steps| - 1];
      MutualExclusionIff(init);
      AlwaysStep(TakesUnheld, steps);
      HeldThroughoutStep(steps);
      LastIsHeld(init);
      if Enabled(Run(init), step) {
        if !TakesUnheld(Run(init), step) { HeldNameBreaks(Run(init), step); }
        else if HeldInv(Run(init)) { ApplyKeepsHeld(Run(init), step); }
      } else {
        OnlyClaimsTake(Run(init), step);
      }
    }
  }

  lemma NothingYet()
    ensures HeldThroughout([]) && Always(TakesUnheld, [])
  {
    EmptyIsSafe();
  }

  lemma LastIsHeld(steps: seq<Step>)
    ensures HeldThroughout(steps) ==> HeldInv(Run(steps))
  {
    assert steps[..|steps|] == steps;
  }

  lemma OnlyClaimsTake(q: Queue, step: Step)
    ensures !step.Try? || !Enabled(q, step) ==> TakesUnheld(q, step)
  {
  }

  /** Exclusion for callers: accepted and requeued files take no name that a worker holds. */
  predicate NamesUnheld(q: Queue, step: Step) {
    match step
    case Accept(name, _) => !IsHeld(q, name)
    case GiveBack(_, renamed) => !IsHeld(q, renamed)
    case _ => true
  }

  predicate HeldOut(q: Queue) { forall w <- q.workers :: Holds(q.workers[w]) ==> q.workers[w].name !in q.files.incoming }

  lemma UnheldStaysOut(q: Queue, step: Step)
    requires HeldInv(q) && HeldOut(q) && Enabled(q, step) && NamesUnheld(q, step)
    ensures TakesUnheld(q, step) && HeldOut(Apply(q, step))
  {
    hide RecoverPrefix, IsOrder, DroppedBy, OverwrittenBy;
  }

  lemma {:induction false} UnheldNamesExclude(steps: seq<Step>)
    requires Always(NamesUnheld, steps)
    ensures Always(TakesUnheld, steps) && HeldInv(Run(steps)) && HeldOut(Run(steps))
  {
    hide HeldInv, HeldOut, TakesUnheld, Apply, Always, NamesUnheld;
    if steps == [] {
      NothingYet();
      EmptyIsSafe();
      assert HeldOut(EMPTY_QUEUE) by { NoWorkers(); }
    } else {
      var init, step := steps[..|steps| - 1], steps[|steps| - 1];
      AlwaysStep(NamesUnheld, steps);
      UnheldNamesExclude(init);
      AlwaysStep(TakesUnheld, steps);
      OnlyClaimsTake(Run(init), step);
      if Enabled(Run(init), step) {
        UnheldStaysOut(Run(init), step);
        ApplyKeepsHeld(Run(init), step);
      }
    }
  }

  lemma NoWorkers()
    ensures HeldOut(EMPTY_QUEUE)
  {
  }

  // ----- crashes and recovery -----------------------------------------------------------

  /** A crash at any point, of a recovery too, followed by a whole recovery: processing is empty
      and every accepted message is accounted for. */
  lemma CrashThenRecovery(steps: seq<Step>, hash: string -> string, order: seq<string>, b: Body)
    requires var q := Run(steps + [Crash]); Enabled(q, RecoverSome(hash, order, |order|)) && b in q.accepted
    ensures var q := Run(steps + [Crash] + [RecoverSome(hash, order, |order|)]);
            && q.files.processing == map[]
            && (b.key.None? ==> b in q.files.incoming.Values || b in q.lost)
            && (b.key.Some? ==> Accounted(q, b.key.value))
  {
    hide OnePlace, LossInv, Accounted, IsOrder, RecoverPrefix, Writes, Restored;
    var crashed := steps + [Crash];
    var all := crashed + [RecoverSome(hash, order, |order|)];
    assert all[..|all| - 1] == crashed;
    QueueIsSafe(all);
    RecoveryRestores(hash, Run(crashed).files, order, |order|);
    assert Run(all) == Apply(Run(crashed), RecoverSome(hash, order, |order|));
    NothingLost(Run(all), b);
    NoValues();
  }

  /** A recovery cut short after any `n` turns and then run again from the start: every message
      it found in processing is back in incoming, dropped as a duplicate with its key accounted
      for, or lost to a taken name. */
  lemma InterruptedRecovery(steps: seq<Step>, hash: string -> string, order: seq<string>, n: nat, again: seq<string>, b: Body)
    requires var q := Run(steps + [Crash]);
             && Enabled(q, RecoverSome(hash, order, n)) && b in q.files.processing.Values
             && Enabled(Apply(q, RecoverSome(hash, order, n)), RecoverSome(hash, again, |again|))
    ensures var q := Run(steps + [Crash] + [RecoverSome(hash, order, n)] + [Crash] + [RecoverSome(hash, again, |again|)]);
            && q.files.processing == map[]
            && (b in q.files.incoming.Values || b in q.lost || (b in q.dropped && b.key.Some? && Accounted(q, b.key.value)))
  {
    hide IsOrder, RecoverPrefix, Writes, Restored, Injective, Accounted, DroppedBy, OverwrittenBy, LetterInv, KnownInv;
    var s0 := steps + [Crash];
    var s1 := s0 + [RecoverSome(hash, order, n)];
    var s2 := s1 + [Crash];
    var s3 := s2 + [RecoverSome(hash, again, |again|)];
    assert s0[..|s0| - 1] == steps && s1[..|s1| - 1] == s0 && s2[..|s2| - 1] == s1 && s3[..|s3| - 1] == s2;
    QueueIsSafe(s0);
    QueueIsSafe(s1);
    QueueIsSafe(s2);
    QueueIsSafe(s3);
    assert Run(s0) == Next(Run(steps), Crash);
    assert Run(s1) == Apply(Run(s0), RecoverSome(hash, order, n));
    assert Run(s2) == Run(s1);
    assert Run(s3) == Apply(Run(s1), RecoverSome(hash, again, |again|));
    RecoveryRestores(hash, Run(s2).files, again, |again|);
    NoValues();
  }

  // ----- when a message or a dead letter is lost ----------------------------------------

  /** What a caller can check before the step: the name a file is given is free in the directory
      it goes to, or, for a dead letter, taken by a letter for the same message. */
  predicate Spares(q: Queue, step: Step) {
    match step
    case Accept(name, _) => Enabled(q, step) ==> name !in q.files.incoming
    case Try(_) => Takes(q, step).Some? ==> Takes(q, step).value !in q.files.processing
    case GiveBack(w, renamed) => Enabled(q, step) && WorkerOf(q, w).name in q.files.processing ==> renamed !in q.files.incoming
    case WriteDeadLetter(w, name) => Enabled(q, step) && name in q.files.failed ==> q.files.failed[name] == WorkerOf(q, w).body
    case RecoverSome(hash, order, n) =>
      Enabled(q, step) ==>
        forall i :: 0 <= i < n && Restored(q.files, order, i) ==> RecoveredName(hash, i, order[i]) !in q.files.incoming
    case _ => true
  }

  lemma LossesGrow(q: Queue, step: Step)
    requires Enabled(q, step)
    ensures q.lost <= Apply(q, step).lost && q.erased <= Apply(q, step).erased
  {
    hide RecoverPrefix, IsOrder, DroppedBy, OverwrittenBy;
  }

  lemma RecoveryLosesIff(q: Queue, hash: string -> string, order: seq<string>, n: nat)
    requires OnePlace(q) && Enabled(q, RecoverSome(hash, order, n))
    ensures OverwrittenBy(hash, q.files, order, n) == {} <==> Spares(q, RecoverSome(hash, order, n))
  {
    hide Injective, IsOrder, RecoverPrefix, RecoveredName, Restored;
    forall i | 0 <= i < n && Restored(q.files, order, i) && RecoveredName(hash, i, order[i]) in q.files.incoming
      ensures OverwrittenBy(hash, q.files, order, n) != {}
    {
      var name := RecoveredName(hash, i, order[i]);
      assert Writes(hash, q.files, order, n, name);
      assert q.files.incoming[name] in OverwrittenBy(hash, q.files, order, n);
    }
  }

  /** While nothing is lost, the next step loses nothing if and only if its names are free. */
  lemma LosesIff(q: Queue, step: Step)
    requires OnePlace(q) && HeldInv(q) && Enabled(q, step) && q.lost == {} && q.erased == {}
    ensures Apply(q, step).lost == {} && Apply(q, step).erased == {} <==> Spares(q, step)
  {
    hide Injective, IsOrder, RecoverPrefix, DroppedBy, OverwrittenBy, Restored, RecoveredName, OnePlace;
    match step
    case RecoverSome(hash, order, n) => RecoveryLosesIff(q, hash, order, n);
    case Accept(name, _) => UnderNothing(q.files.incoming, name);
    case Try(w) => if Takes(q, step).Some? { UnderNothing(q.files.processing, Takes(q, step).value); }
    case GiveBack(_, renamed) => UnderNothing(q.files.incoming, renamed);
    case WriteDeadLetter(w, name) =>
      if name in q.files.failed && q.files.failed[name] != WorkerOf(q, w).body { assert q.files.failed[name] in Apply(q, step).erased; }
    case _ =>
  }

  lemma UnderNothing(m: map<string, Body>, name: string)
    ensures Under(m, name) == {} <==> name !in m
  {
    if name in m { assert m[name] in Under(m, name); }
  }

  lemma SparesTakesUnheld(q: Queue, step: Step)
    requires HeldInv(q) && Spares(q, step)
    ensures TakesUnheld(q, step)
  {
  }

  /** Over every run, no message and no dead letter is lost if and only if every step gives its
      file a free name; and then no file is held by two workers. */
  lemma {:induction false} NothingIsLostIff(steps: seq<Step>)
    ensures Run(steps).lost == {} && Run(steps).erased == {} <==> Always(Spares, steps)
    ensures Always(Spares, steps) ==> HeldInv(Run(steps))
  {
    hide HeldInv, OnePlace, Apply, Spares, Enabled, Always, LossInv, TakesUnheld;
    if steps == [] {
      assert Always(Spares, []) by { NothingToSpare(); }
      EmptyIsSafe();
    } else {
      var init, step := steps[..|steps| - 1], steps[|steps| - 1];
      NothingIsLostIff(init);
      QueueIsSafe(init);
      AlwaysStep(Spares, steps);
      if Enabled(Run(init), step) {
        LossesGrow(Run(init), step);
        if Always(Spares, init) {
          LosesIff(Run(init), step);
          if Spares(Run(init), step) {
            SparesTakesUnheld(Run(init), step);
            ApplyKeepsHeld(Run(init), step);
          }
        }
      } else {
        DisabledSpares(Run(init), step);
      }
    }
  }

  lemma NothingToSpare()
    ensures Always(Spares, [])
  {
  }

  lemma DisabledSpares(q: Queue, step: Step)
    requires !Enabled(q, step)
    ensures Spares(q, step)
  {
  }

  /** Names in incoming and names in processing differ. */
  predicate Apart(q: Queue) { forall name <- q.files.incoming :: name !in q.files.processing }

  /** Accepted and requeued files take no name that is in processing. */
  predicate NamesApart(q: Queue, step: Step) {
    match step
    case Accept(name, _) => name !in q.files.processing
    case GiveBack(_, renamed) => renamed !in q.files.processing
    case _ => true
  }

  lemma ApplyKeepsApart(q: Queue, step: Step)
    requires Apart(q) && Enabled(q, step) && NamesApart(q, step) && (step.RecoverSome? ==> step.n == |step.order|)
    ensures Apart(Apply(q, step))
  {
    hide IsOrder, RecoverPrefix, Restored, RecoveredName, Writes, DroppedBy, OverwrittenBy;
    if step.RecoverSome? { RecoveryRestores(step.hash, q.files, step.order, step.n); }
  }

  /** While every recovery runs to its end, no claim replaces a file. */
  lemma {:induction false} WholeRecoveriesKeepApart(steps: seq<Step>)
    requires forall i :: 0 <= i < |steps| && steps[i].RecoverSome? ==> steps[i].n == |steps[i].order|
    requires Always(NamesApart, steps)
    ensures Apart(Run(steps))
    ensures forall i :: 0 <= i < |steps| && steps[i].Try? ==> Spares(Run(steps[..i]), steps[i])
  {
    hide Enabled, Apply, Always, NamesApart, Apart, Spares;
    if steps == [] {
      NothingApart();
    } else {
      var init, step := steps[..|steps| - 1], steps[|steps| - 1];
      AlwaysStep(NamesApart, steps);
      WholeRecoveriesKeepApart(init);
      if Enabled(Run(init), step) { ApplyKeepsApart(Run(init), step); }
      forall i | 0 <= i < |steps| && steps[i].Try? ensures Spares(Run(steps[..i]), steps[i]) {
        if i < |init| { assert init[..i] == steps[..i] && init[i] == steps[i]; } else { ApartSpares(Run(init), step); }
      }
    }
  }

  lemma NothingApart()
    ensures Apart(EMPTY_QUEUE)
  {
  }

  lemma ApartSpares(q: Queue, step: Step)
    requires Apart(q) && step.Try?
    ensures Spares(q, step)
  {
  }

  /** When recoveries run to their end and new names are not in processing, nothing is lost if
      and only if every step but the claims gives its file a free name. */
  lemma WholeRecoveriesLoseIff(steps: seq<Step>)
    requires forall i :: 0 <= i < |steps| && steps[i].RecoverSome? ==> steps[i].n == |steps[i].order|
    requires Always(NamesApart, steps)
    ensures Run(steps).lost == {} && Run(steps).erased == {} <==>
              forall i :: 0 <= i < |steps| && !steps[i].Try? ==> Spares(Run(steps[..i]), steps[i])
  {
    hide Run, Spares, NamesApart;
    NothingIsLostIff(steps);
    WholeRecoveriesKeepApart(steps);
  }

  /** Then every accepted message is where it should be: in a directory, completed, or a
      duplicate or failure whose key has a message, a dead letter or a reply; and every
      dead-lettered message has its letter in failed. */
  lemma SparedRunsKeepAll(steps: seq<Step>, b: Body)
    requires Always(Spares, steps) && b in Run(steps).accepted
    ensures var q := Run(steps);
            && b in q.files.incoming.Values + q.files.processing.Values + q.completed + q.buried + q.dropped
            && (b in q.buried ==> b in q.files.failed.Values)
            && (b.key.None? ==> b in q.files.incoming.Values || b in q.files.processing.Values)
            && (b.key.Some? ==>
                  || HasKey(q.files.incoming.Values, b.key.value) || HasKey(q.files.processing.Values, b.key.value)
                  || HasKey(q.files.failed.Values, b.key.value) || HasKey(q.completed, b.key.value)
                  || b.key.value in OutgoingKeys(q.files))
  {
    hide Run, Injective, OutgoingKeys, Always, HeldInv, DroppedInv, KnownInv;
    NothingIsLostIff(steps);
    QueueIsSafe(steps);
    NothingLost(Run(steps), b);
  }
}
