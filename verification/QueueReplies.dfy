/** Answered messages: once its reply is written a message is never in incoming again, a completed
    message has its reply, and what a crash and a recovery leave of each one. */
module QueueReplies {
  import opened Prelude
  import opened QueueFiles
  import opened QueueMachine
  import opened QueueRuns

  predicate Answered(q: Queue, b: Body) { b.key.Some? && b.key.value in OutgoingKeys(q.files) }

  /** A requeue moves the file its worker read, not another that took its name. */
  predicate GivesOwn(q: Queue, step: Step) {
    step.GiveBack? && WorkerOf(q, step.w).Holding? && WorkerOf(q, step.w).name in q.files.processing ==>
      q.files.processing[WorkerOf(q, step.w).name] == WorkerOf(q, step.w).body
  }

  // ----- an answered message stays out of incoming --------------------------------------

  /** The one step that can put an answered message into incoming: a requeue of its file. */
  predicate Returns(q: Queue, step: Step, b: Body) {
    && step.GiveBack? && Enabled(q, step) && WorkerOf(q, step.w).name in q.files.processing
    && q.files.processing[WorkerOf(q, step.w).name] == b
  }

  lemma RecoveryLeavesAnswered(q: Queue, hash: string -> string, order: seq<string>, n: nat, b: Body)
    requires OnePlace(q) && Enabled(q, RecoverSome(hash, order, n)) && Answered(q, b) && b !in q.files.incoming.Values
    ensures b !in Apply(q, RecoverSome(hash, order, n)).files.incoming.Values
  {
    hide Injective, OutgoingKeys, IsOrder, RecoverPrefix, OverwrittenBy, DroppedBy;
    RecoveryValues(hash, q.files, order, n);
    assert b !in RestoredBodies(q.files, order, n);
  }

  lemma BroughtBackIff(q: Queue, step: Step, b: Body)
    requires OnePlace(q) && Enabled(q, step) && Answered(q, b) && b in q.accepted && b !in q.files.incoming.Values
    ensures b in Apply(q, step).files.incoming.Values <==> Returns(q, step, b)
  {
    hide Injective, OutgoingKeys, IsOrder, RecoverPrefix, OverwrittenBy, DroppedBy, Answered;
    match step
    case Accept(name, body) => ValuesPut(q.files.incoming, name, body);
    case Try(w) => if Takes(q, step).Some? { ClaimValues(q, Takes(q, step).value); }
    case GiveBack(w, renamed) =>
      if WorkerOf(q, w).name in q.files.processing { RequeueValues(q, WorkerOf(q, w).name, renamed); }
    case RecoverSome(hash, order, n) => RecoveryLeavesAnswered(q, hash, order, n, b);
    case _ =>
  }

  lemma AcceptedGrows(q: Queue, step: Step)
    requires Enabled(q, step)
    ensures Apply(q, step).accepted == q.accepted + (if step.Accept? then {step.body} else {})
  {
    hide IsOrder, RecoverPrefix, OverwrittenBy, DroppedBy;
  }

  lemma OnlyWritesReply(q: Queue, step: Step)
    requires Enabled(q, step)
    ensures OutgoingKeys(Apply(q, step).files)
         == OutgoingKeys(q.files) + (if step.WriteOne? then {ReplyKey(WorkerOf(q, step.w).left[0])} else {})
  {
    hide OutgoingKeys, IsOrder, RecoverPrefix, OverwrittenBy, DroppedBy, ReplyKey;
    match step
    case WriteOne(w, name) => RepliesGrow(q.files, name, WorkerOf(q, w).left[0]);
    case RecoverSome(hash, order, n) =>
      RecoveryRestores(hash, q.files, order, n);
      SameReplies(q.files, Apply(q, step).files);
    case _ => SameReplies(q.files, Apply(q, step).files);
  }

  /** Accepted messages and replies stay. */
  lemma AnsweredStays(q: Queue, step: Step, b: Body)
    requires Enabled(q, step) && Answered(q, b) && b in q.accepted
    ensures Answered(Apply(q, step), b) && b in Apply(q, step).accepted
  {
    hide Apply, OutgoingKeys;
    OnlyWritesReply(q, step);
    AcceptedGrows(q, step);
  }

  /** From any point of any run: an answered message stays out of incoming if and only if no
      requeue moves its file. */
  lemma {:induction false} AnsweredReturnsIff(steps: seq<Step>, i: nat, b: Body)
    requires i <= |steps|
    requires var q := Run(steps[..i]); Answered(q, b) && b in q.accepted && b !in q.files.incoming.Values
    ensures (forall k :: i <= k <= |steps| ==> b !in Run(steps[..k]).files.incoming.Values)
       <==> (forall j :: i <= j < |steps| ==> !Returns(Run(steps[..j]), steps[j], b))
    ensures Answered(Run(steps), b) && b in Run(steps).accepted
  {
    hide Run, Apply, Answered, OnePlace, Enabled, Returns, LossInv;
    assert steps[..|steps|] == steps;
    if i < |steps| {
      var init, step := steps[..|steps| - 1], steps[|steps| - 1];
      assert forall k :: 0 <= k <= |init| ==> init[..k] == steps[..k];
      assert forall j :: 0 <= j < |init| ==> init[j] == steps[j];
      AnsweredReturnsIff(init, i, b);
      QueueIsSafe(init);
      LastStep(steps);
      if Enabled(Run(init), step) {
        AnsweredStays(Run(init), step, b);
        if b !in Run(init).files.incoming.Values { BroughtBackIff(Run(init), step, b); }
      } else {
        OnlyEnabledReturns(Run(init), step, b);
      }
      assert init == steps[..|init|] && step == steps[|init|];
    }
  }

  lemma LastStep(steps: seq<Step>)
    requires steps != []
    ensures Run(steps) == Next(Run(steps[..|steps| - 1]), steps[|steps| - 1])
  {
  }

  lemma OnlyEnabledReturns(q: Queue, step: Step, b: Body)
    requires !Enabled(q, step)
    ensures !Returns(q, step, b)
  {
  }

  // ----- from the moment the reply is written -------------------------------------------

  /** A claimed message is in the hands of one worker and not in incoming. */
  ghost predicate ClaimInv(q: Queue) {
    && (forall w <- q.workers :: Holds(q.workers[w]) ==> q.workers[w].body in q.accepted && q.workers[w].body !in q.files.incoming.Values)
    && (forall w <- q.workers, v <- q.workers ::
          w != v && Holds(q.workers[w]) && Holds(q.workers[v]) ==> q.workers[w].body != q.workers[v].body)
  }

  lemma AcceptKeepsClaims(q: Queue, name: string, body: Body)
    requires OnePlace(q) && ClaimInv(q) && Enabled(q, Accept(name, body))
    ensures ClaimInv(Apply(q, Accept(name, body)))
  {
    hide Injective;
    ValuesPut(q.files.incoming, name, body);
  }

  lemma TryKeepsClaims(q: Queue, w: nat)
    requires OnePlace(q) && ClaimInv(q) && Enabled(q, Try(w))
    ensures ClaimInv(Apply(q, Try(w)))
  {
    hide Injective;
    if Takes(q, Try(w)).Some? { ClaimValues(q, Takes(q, Try(w)).value); }
  }

  lemma GiveBackKeepsClaims(q: Queue, w: nat, renamed: string)
    requires OnePlace(q) && ClaimInv(q) && Enabled(q, GiveBack(w, renamed)) && GivesOwn(q, GiveBack(w, renamed))
    ensures ClaimInv(Apply(q, GiveBack(w, renamed)))
  {
    hide Injective;
    if WorkerOf(q, w).name in q.files.processing { RequeueValues(q, WorkerOf(q, w).name, renamed); }
  }

  lemma ApplyKeepsClaims(q: Queue, step: Step)
    requires OnePlace(q) && ClaimInv(q) && Enabled(q, step) && GivesOwn(q, step)
    ensures ClaimInv(Apply(q, step))
  {
    hide OnePlace, IsOrder, RecoverPrefix, OverwrittenBy, DroppedBy, TryNext, GiveBackFile, FinishFile, GivesOwn;
    match step
    case Accept(name, body) => AcceptKeepsClaims(q, name, body);
    case Try(w) => TryKeepsClaims(q, w);
    case GiveBack(w, renamed) => GiveBackKeepsClaims(q, w, renamed);
    case Finish(w) => FinishKeepsClaims(q, w);
    case _ =>
  }

  lemma FinishKeepsClaims(q: Queue, w: nat)
    requires ClaimInv(q) && Enabled(q, Finish(w))
    ensures ClaimInv(Apply(q, Finish(w)))
  {
  }

  lemma {:induction false} ClaimsAreApart(steps: seq<Step>)
    requires Always(GivesOwn, steps)
    ensures ClaimInv(Run(steps))
  {
    hide ClaimInv, Apply, GivesOwn, Always, OnePlace, LossInv, Enabled;
    if steps == [] {
      NoClaims();
    } else {
      var init, step := steps[..|steps| - 1], steps[|steps| - 1];
      AlwaysStep(GivesOwn, steps);
      ClaimsAreApart(init);
      QueueIsSafe(init);
      if Enabled(Run(init), step) { ApplyKeepsClaims(Run(init), step); }
    }
  }

  lemma NoClaims()
    ensures ClaimInv(EMPTY_QUEUE)
  {
  }

  /** Answered, not in incoming, and held by nobody but workers that are replying. */
  ghost predicate KeptOut(q: Queue, b: Body) {
    && b in q.accepted && Answered(q, b) && b !in q.files.incoming.Values
    && forall w <- q.workers :: Holds(q.workers[w]) && q.workers[w].body == b ==> q.workers[w].Replying?
  }

  lemma ApplyKeepsOut(q: Queue, step: Step, b: Body)
    requires OnePlace(q) && KeptOut(q, b) && Enabled(q, step) && GivesOwn(q, step)
    ensures KeptOut(Apply(q, step), b)
  {
    hide Injective, IsOrder, RecoverPrefix, OverwrittenBy, DroppedBy, Answered, OnePlace;
    BroughtBackIff(q, step, b);
    AnsweredStays(q, step, b);
    if Takes(q, step).Some? { assert q.files.incoming[Takes(q, step).value] in q.files.incoming.Values; }
  }

  lemma WriteKeepsOut(q: Queue, w: nat, name: string)
    requires OnePlace(q) && ClaimInv(q) && Enabled(q, WriteOne(w, name))
    requires WorkerOf(q, w).body.key == Some(ReplyKey(WorkerOf(q, w).left[0]))
    ensures KeptOut(Apply(q, WriteOne(w, name)), WorkerOf(q, w).body)
  {
    hide Injective, OutgoingKeys, OnePlace;
    RepliesGrow(q.files, name, WorkerOf(q, w).left[0]);
  }

  /** The reply written at `i` carries the key of its worker's message. */
  predicate AnswersAt(steps: seq<Step>, i: nat, q: Queue)
    requires i < |steps|
  {
    && steps[i].WriteOne? && Enabled(q, steps[i])
    && WorkerOf(q, steps[i].w).body.key == Some(ReplyKey(WorkerOf(q, steps[i].w).left[0]))
  }

  /** Over every run in which requeues move their own files, crashes and recoveries included, and
      whatever other messages share its key: once a reply of its own is written, a message is
      answered, never in incoming again, and held by nobody but replying workers. */
  lemma {:induction false} AnsweredStaysOut(steps: seq<Step>, i: nat)
    requires Always(GivesOwn, steps) && i < |steps| && AnswersAt(steps, i, Run(steps[..i]))
    ensures KeptOut(Run(steps), WorkerOf(Run(steps[..i]), steps[i].w).body)
  {
    hide KeptOut, Apply, GivesOwn, Always, OnePlace, LossInv, ClaimInv, ReplyKey;
    var init, step := steps[..|steps| - 1], steps[|steps| - 1];
    AlwaysStep(GivesOwn, steps);
    QueueIsSafe(init);
    if i == |init| {
      ClaimsAreApart(init);
      WriteKeepsOut(Run(init), step.w, step.name);
    } else {
      assert init[..i] == steps[..i] && init[i] == steps[i];
      AnsweredStaysOut(init, i);
      if Enabled(Run(init), step) { ApplyKeepsOut(Run(init), step, WorkerOf(Run(steps[..i]), steps[i].w).body); }
    }
  }

  /** While no claim takes a held name, requeues move their own files. */
  lemma UnheldGivesOwn(steps: seq<Step>)
    requires Always(TakesUnheld, steps)
    ensures Always(GivesOwn, steps)
  {
    hide TakesUnheld, Run, Always, HeldThroughout;
    MutualExclusionIff(steps);
    assert Always(GivesOwn, steps) by {
      forall i | 0 <= i < |steps| ensures GivesOwn(Run(steps[..i]), steps[i]) {
        assert HeldInv(Run(steps[..i])) by { HeldAt(steps, i); }
        HeldGivesOwn(Run(steps[..i]), steps[i]);
      }
      AlwaysIs(steps);
    }
  }

  lemma AlwaysIs(steps: seq<Step>)
    ensures Always(GivesOwn, steps) <==> forall i :: 0 <= i < |steps| ==> GivesOwn(Run(steps[..i]), steps[i])
  {
  }

  lemma HeldAt(steps: seq<Step>, i: nat)
    requires HeldThroughout(steps) && i <= |steps|
    ensures HeldInv(Run(steps[..i]))
  {
  }

  lemma HeldGivesOwn(q: Queue, step: Step)
    requires HeldInv(q)
    ensures GivesOwn(q, step)
  {
  }

  // ----- completed messages have their reply --------------------------------------------

  /** Among the replies to a message at least one carries its key. */
  predicate SomeOwn(q: Queue, step: Step) {
    step.BeginReplies? && WorkerOf(q, step.w).Holding? ==> exists r :: r in step.replies && WorkerOf(q, step.w).body.key == Some(ReplyKey(r))
  }

  /** A replying worker has written such a reply or has it still to write. */
  ghost predicate CompletedInv(q: Queue) {
    && (forall w <- q.workers :: q.workers[w].Replying? ==>
          Answered(q, q.workers[w].body) || exists r :: r in q.workers[w].left && q.workers[w].body.key == Some(ReplyKey(r)))
    && (forall b <- q.completed :: Answered(q, b))
  }

  lemma WriteKeepsCompleted(q: Queue, w: nat, name: string)
    requires CompletedInv(q) && Enabled(q, WriteOne(w, name))
    ensures CompletedInv(Apply(q, WriteOne(w, name)))
  {
    hide OutgoingKeys, ReplyKey;
    var worker := WorkerOf(q, w);
    RepliesGrow(q.files, name, worker.left[0]);
    assert worker.left == [worker.left[0]] + worker.left[1..];
  }

  lemma FinishKeepsCompleted(q: Queue, w: nat)
    requires CompletedInv(q) && Enabled(q, Finish(w))
    ensures CompletedInv(Apply(q, Finish(w)))
  {
    hide OutgoingKeys, ReplyKey;
    SameReplies(q.files, Apply(q, Finish(w)).files);
  }

  lemma RecoverKeepsCompleted(q: Queue, hash: string -> string, order: seq<string>, n: nat)
    requires CompletedInv(q) && Enabled(q, RecoverSome(hash, order, n))
    ensures CompletedInv(Apply(q, RecoverSome(hash, order, n)))
  {
    hide OutgoingKeys, IsOrder, RecoverPrefix, OverwrittenBy, DroppedBy;
    RecoveryRestores(hash, q.files, order, n);
    SameReplies(q.files, Apply(q, RecoverSome(hash, order, n)).files);
  }

  lemma ApplyKeepsCompleted(q: Queue, step: Step)
    requires CompletedInv(q) && Enabled(q, step) && SomeOwn(q, step)
    ensures CompletedInv(Apply(q, step))
  {
    hide OutgoingKeys, IsOrder, RecoverPrefix, OverwrittenBy, DroppedBy, FinishFile, ReplyKey;
    match step
    case WriteOne(w, name) => WriteKeepsCompleted(q, w, name);
    case RecoverSome(hash, order, n) => RecoverKeepsCompleted(q, hash, order, n);
    case Finish(w) => FinishKeepsCompleted(q, w);
    case _ => SameReplies(q.files, Apply(q, step).files);
  }

  /** Over every run in which each message is answered by replies one of which carries its key,
      whatever keys messages share and whatever names files take: completed messages are answered. */
  lemma {:induction false} CompletedAreAnswered(steps: seq<Step>)
    requires Always(SomeOwn, steps)
    ensures CompletedInv(Run(steps))
  {
    hide CompletedInv, Apply, SomeOwn, Always, Enabled;
    if steps == [] {
      NothingCompleted();
    } else {
      var init, step := steps[..|steps| - 1], steps[|steps| - 1];
      AlwaysStep(SomeOwn, steps);
      CompletedAreAnswered(init);
      if Enabled(Run(init), step) { ApplyKeepsCompleted(Run(init), step); }
    }
  }

  lemma NothingCompleted()
    ensures CompletedInv(EMPTY_QUEUE)
  {
  }

  /** In such runs, after a crash anywhere and a whole recovery, the key of every parsed message has
      a message in incoming, a dead letter, or a reply, unless a file of its key lost its name. */
  lemma AnsweredAfterRecovery(steps: seq<Step>, hash: string -> string, order: seq<string>, b: Body)
    requires Always(SomeOwn, steps)
    requires var q := Run(steps + [Crash]); Enabled(q, RecoverSome(hash, order, |order|)) && b in q.accepted
    ensures var q := Run(steps + [Crash] + [RecoverSome(hash, order, |order|)]);
            && q.files.processing == map[]
            && (b.key.None? ==> b in q.files.incoming.Values || b in q.lost)
            && (b.key.Some? ==>
                  || HasKey(q.files.incoming.Values, b.key.value) || HasKey(q.files.failed.Values, b.key.value)
                  || Answered(q, b) || HasKey(q.lost, b.key.value) || HasKey(q.erased, b.key.value))
  {
    hide Run, Apply, IsOrder, SomeOwn, Enabled, HasKey, OutgoingKeys, Always;
    var s0 := steps + [Crash];
    var s1 := s0 + [RecoverSome(hash, order, |order|)];
    assert s0[..|s0| - 1] == steps && s1[..|s1| - 1] == s0;
    AlwaysStep(SomeOwn, s0);
    AlwaysStep(SomeOwn, s1);
    OnlyRepliesOwn(Run(steps), Run(s0), hash, order);
    CompletedAreAnswered(s1);
    CrashThenRecovery(steps, hash, order, b);
    var q := Run(s1);
    NoValues();
    if b.key.Some? {
      NoneWithKey(b.key.value);
      if HasKey(q.completed, b.key.value) { CompletedHasReply(q, b.key.value); }
    }
  }

  lemma OnlyRepliesOwn(q: Queue, q': Queue, hash: string -> string, order: seq<string>)
    ensures SomeOwn(q, Crash) && SomeOwn(q', RecoverSome(hash, order, |order|))
  {
  }

  lemma NoneWithKey(key: Key)
    ensures !HasKey({}, key)
  {
  }

  lemma CompletedHasReply(q: Queue, key: Key)
    requires CompletedInv(q) && HasKey(q.completed, key)
    ensures key in OutgoingKeys(q.files)
  {
    hide OutgoingKeys;
  }

  // ----- messages with keys of their own ------------------------------------------------

  /** No two accepted messages share a key. */
  predicate UniqueKeys(q: Queue, step: Step) {
    step.Accept? && step.body.key.Some? ==> forall b <- q.accepted :: b.key != step.body.key
  }

  ghost predicate KeysDiffer(q: Queue) {
    forall a <- q.accepted, b <- q.accepted :: a != b && a.key.Some? ==> a.key != b.key
  }

  lemma {:induction false} UniqueKeysDiffer(steps: seq<Step>)
    requires Always(UniqueKeys, steps)
    ensures KeysDiffer(Run(steps))
  {
    hide Always, Enabled;
    if steps != [] {
      var init, step := steps[..|steps| - 1], steps[|steps| - 1];
      AlwaysStep(UniqueKeys, steps);
      UniqueKeysDiffer(init);
      if Enabled(Run(init), step) { AcceptedGrows(Run(init), step); }
    }
  }

  /** What carries a message's key is that message. */
  lemma KeyIsOwn(q: Queue, bodies: set<Body>, b: Body)
    requires KeysDiffer(q) && bodies <= q.accepted && b in q.accepted && b.key.Some? && HasKey(bodies, b.key.value)
    ensures b in bodies
  {
  }

  /** With keys of their own: after a crash anywhere and a whole recovery, each message itself is in
      incoming or in failed, or has its reply, unless its file or its dead letter lost its name. */
  lemma EachIsAnsweredOrKept(steps: seq<Step>, hash: string -> string, order: seq<string>, b: Body)
    requires Always(SomeOwn, steps) && Always(UniqueKeys, steps)
    requires var q := Run(steps + [Crash]); Enabled(q, RecoverSome(hash, order, |order|)) && b in q.accepted
    ensures var q := Run(steps + [Crash] + [RecoverSome(hash, order, |order|)]);
            && q.files.processing == map[]
            && (b in q.files.incoming.Values || b in q.files.failed.Values || Answered(q, b) || b in q.lost || b in q.erased)
  {
    hide Run, Apply, IsOrder, SomeOwn, UniqueKeys, Enabled, HasKey, LetterInv, OutgoingKeys, Always, Injective, KeysDiffer;
    var s0 := steps + [Crash];
    var s1 := s0 + [RecoverSome(hash, order, |order|)];
    assert s0[..|s0| - 1] == steps && s1[..|s1| - 1] == s0;
    AlwaysStep(UniqueKeys, s0);
    AlwaysStep(UniqueKeys, s1);
    OnlyAcceptsShare(Run(steps), Crash);
    OnlyAcceptsShare(Run(s0), s1[|s1| - 1]);
    UniqueKeysDiffer(s1);
    QueueIsSafe(s1);
    AnsweredAfterRecovery(steps, hash, order, b);
    var q := Run(s1);
    assert b in q.accepted by { StillAccepted(s0, s1[|s1| - 1], b); }
    if b.key.Some? && !Answered(q, b) {
      if HasKey(q.files.incoming.Values, b.key.value) { KeyIsOwn(q, q.files.incoming.Values, b); }
      else if HasKey(q.files.failed.Values, b.key.value) { KeyIsOwn(q, q.files.failed.Values, b); }
      else if HasKey(q.lost, b.key.value) { KeyIsOwn(q, q.lost, b); }
      else { KeyIsOwn(q, q.erased, b); }
    }
  }

  lemma OnlyAcceptsShare(q: Queue, step: Step)
    requires !step.Accept?
    ensures UniqueKeys(q, step)
  {
  }

  lemma StillAccepted(steps: seq<Step>, step: Step, b: Body)
    requires b in Run(steps).accepted
    ensures b in Run(steps + [step]).accepted
  {
    hide Enabled;
    assert (steps + [step])[..|steps|] == steps;
    if Enabled(Run(steps), step) { AcceptedGrows(Run(steps), step); }
  }

  /** Every reply written for a message carries its key. */
  predicate AllOwn(q: Queue, step: Step) {
    step.BeginReplies? && WorkerOf(q, step.w).Holding? ==> forall r <- step.replies :: WorkerOf(q, step.w).body.key == Some(ReplyKey(r))
  }

  predicate LeftInv(q: Queue) {
    forall w <- q.workers :: q.workers[w].Replying? ==> forall r <- q.workers[w].left :: q.workers[w].body.key == Some(ReplyKey(r))
  }

  lemma ApplyKeepsLeft(q: Queue, step: Step)
    requires LeftInv(q) && Enabled(q, step) && AllOwn(q, step)
    ensures LeftInv(Apply(q, step))
  {
    hide IsOrder, RecoverPrefix, OverwrittenBy, DroppedBy, ReplyKey;
  }

  lemma {:induction false} LeftIsOwn(steps: seq<Step>)
    requires Always(AllOwn, steps)
    ensures LeftInv(Run(steps))
  {
    hide LeftInv, Apply, AllOwn, Always, Enabled;
    if steps == [] {
      NothingLeft();
    } else {
      var init, step := steps[..|steps| - 1], steps[|steps| - 1];
      AlwaysStep(AllOwn, steps);
      LeftIsOwn(init);
      if Enabled(Run(init), step) { ApplyKeepsLeft(Run(init), step); }
    }
  }

  lemma NothingLeft()
    ensures LeftInv(EMPTY_QUEUE) && OutgoingKeys(EMPTY_QUEUE.files) == {}
  {
  }

  /** Every reply in outgoing was written by some step. */
  lemma {:induction false} WrittenAt(steps: seq<Step>, key: Key) returns (i: nat)
    requires Always(AllOwn, steps) && key in OutgoingKeys(Run(steps).files)
    ensures i < |steps| && AnswersAt(steps, i, Run(steps[..i])) && WorkerOf(Run(steps[..i]), steps[i].w).body.key == Some(key)
  {
    hide Apply, AllOwn, Always, OutgoingKeys, ReplyKey;
    i := 0;
    if steps == [] {
      NothingLeft();
      assert false;
    } else {
      var init, step := steps[..|steps| - 1], steps[|steps| - 1];
      AlwaysStep(AllOwn, steps);
      LeftIsOwn(init);
      if key in OutgoingKeys(Run(init).files) {
        i := WrittenAt(init, key);
        assert init[..i] == steps[..i] && init[i] == steps[i];
      } else {
        OnlyWritesReply(Run(init), step);
        i := |init|;
      }
    }
  }

  /** With keys of their own and own requeues: no message in incoming has a reply, over every run with
      crashes and recoveries, for any number of replies to a message. */
  lemma RepliedStaysOut(steps: seq<Step>)
    requires Always(AllOwn, steps) && Always(UniqueKeys, steps) && Always(GivesOwn, steps)
    ensures forall b <- Run(steps).files.incoming.Values :: !Answered(Run(steps), b)
  {
    hide Run, AllOwn, UniqueKeys, GivesOwn, Always, OutgoingKeys, Injective, KeysDiffer, LossInv, ReplyKey;
    QueueIsSafe(steps);
    UniqueKeysDiffer(steps);
    forall b | b in Run(steps).files.incoming.Values ensures !Answered(Run(steps), b) {
      if Answered(Run(steps), b) {
        var i := WrittenAt(steps, b.key.value);
        AnsweredStaysOut(steps, i);
        var other := WorkerOf(Run(steps[..i]), steps[i].w).body;
        assert HasKey({other}, b.key.value);
        KeyIsOwn(Run(steps), {other}, b);
      }
    }
  }
}
