/** Jobs that may not overlap: one active execution at a time; and between two dispatches an
    operation that ends the first, unless a tick failed after dispatching it and so never saved
    the list of active executions. */
module TickOverlap {
  import opened Schedule
  import opened JobStore
  import opened Tick
  import opened TickGuards

  predicate ActiveOnce(active: seq<Active>, id: string) {
    forall i, k :: 0 <= i < k < |active| && active[i].job_id == id ==> active[k].job_id != id
  }

  ghost predicate NoOverlapJob(d: Disk, id: string) {
    id in d.jobs ==> !d.jobs[id].allow_overlap
  }

  ghost predicate NoOverlapListing(listing: seq<Job>, id: string) {
    forall k :: 0 <= k < |listing| && listing[k].job_id == id ==> !listing[k].allow_overlap
  }

  lemma {:induction false} RetainFreshIs(active: seq<Active>, now: int, a: Active)
    ensures a in RetainFresh(active, now) <==> a in active && IsFresh(a, now)
  {
    if active != [] {
      RetainFreshIs(active[..|active| - 1], now, a);
      assert active == active[..|active| - 1] + [active[|active| - 1]];
    }
  }

  lemma {:induction false} RemoveActiveIs(active: seq<Active>, job_id: string, execution_id: string, a: Active)
    ensures a in RemoveActive(active, job_id, execution_id) <==>
              a in active && !(a.job_id == job_id && a.execution_id == execution_id)
  {
    if active != [] {
      RemoveActiveIs(active[..|active| - 1], job_id, execution_id, a);
      assert active == active[..|active| - 1] + [active[|active| - 1]];
    }
  }

  lemma HasActiveIs(active: seq<Active>, id: string)
    ensures HasActive(active, id) <==> exists a :: a in active && a.job_id == id
  {
    if HasActive(active, id) {
      var i :| 0 <= i < |active| && active[i].job_id == id;
      assert active[i] in active;
    }
  }

  lemma ActiveOnceExtends(active: seq<Active>, a: Active, id: string)
    requires ActiveOnce(active, id) && (a.job_id == id ==> !HasActive(active, id))
    ensures ActiveOnce(active + [a], id)
  {
  }

  lemma {:induction false} RetainKeepsOnce(active: seq<Active>, now: int, id: string)
    requires ActiveOnce(active, id)
    ensures ActiveOnce(RetainFresh(active, now), id)
    ensures HasActive(RetainFresh(active, now), id) ==> HasActive(active, id)
  {
    if active != [] {
      var init, last := active[..|active| - 1], active[|active| - 1];
      assert forall i :: 0 <= i < |init| ==> init[i] == active[i];
      RetainKeepsOnce(init, now, id);
      if IsFresh(last, now) { ActiveOnceExtends(RetainFresh(init, now), last, id); }
    }
  }

  lemma {:induction false} RemoveKeepsOnce(active: seq<Active>, job_id: string, execution_id: string, id: string)
    requires ActiveOnce(active, id)
    ensures ActiveOnce(RemoveActive(active, job_id, execution_id), id)
    ensures HasActive(RemoveActive(active, job_id, execution_id), id) ==> HasActive(active, id)
  {
    if active != [] {
      var init, last := active[..|active| - 1], active[|active| - 1];
      assert forall i :: 0 <= i < |init| ==> init[i] == active[i];
      RemoveKeepsOnce(init, job_id, execution_id, id);
      if !(last.job_id == job_id && last.execution_id == execution_id) {
        ActiveOnceExtends(RemoveActive(init, job_id, execution_id), last, id);
      }
    }
  }

  /** A step adds an active entry exactly when it enqueues a trigger and goes on. */
  lemma TickJobActivates(zones: Zones, d: Disk, job: Job, nanos: nat, now: int)
    ensures var o := TickJob(zones, d, job, nanos, now);
            if o.d.enqueued == d.enqueued then o.d.active == d.active
            else
              && (job.allow_overlap || !HasActive(d.active, job.job_id)) && IsDue(job, now)
              && var x := DispatchFor(job, now);
                 && o.d.enqueued == d.enqueued + [x]
                 && (o.Done? ==> o.d.active == d.active + [Active(x.job_id, x.execution_id, now)])
                 && (o.Halted? ==> o.d.active == d.active)
  {
    hide ExecutionId, NextRun, RecoveryNextRun, ExecutionExists, HistoryName, SkipId;
  }

  lemma {:induction false} TickJobsKeepOnce(zones: Zones, d: Disk, listing: seq<Job>, nanos: string -> nat, now: int, id: string)
    requires ActiveOnce(d.active, id) && NoOverlapListing(listing, id)
    ensures var o := TickJobs(zones, d, listing, nanos, now);
            && ActiveOnce(o.d.active, id) && d.active <= o.d.active && d.enqueued <= o.d.enqueued
            && (HasActive(d.active, id) ==>
                  HasActive(o.d.active, id)
                  && forall k :: |d.enqueued| <= k < |o.d.enqueued| ==> o.d.enqueued[k].job_id != id)
  {
    hide TickJob;
    if listing != [] {
      var init, job := listing[..|listing| - 1], listing[|listing| - 1];
      assert forall k :: 0 <= k < |init| ==> init[k] == listing[k];
      TickJobsKeepOnce(zones, d, init, nanos, now, id);
      var o := TickJobs(zones, d, init, nanos, now);
      if o.Done? {
        TickJobActivates(zones, o.d, job, nanos(job.job_id), now);
        var x := Active(job.job_id, ExecutionId(job.job_id, job.next_run_at.GetOr(0)), now);
        if job.job_id != id || !HasActive(o.d.active, id) {
          ActiveOnceExtends(o.d.active, x, id);
        }
      }
    }
  }

  ghost predicate AlwaysNoOverlap(zones: Zones, ops: seq<Op>, id: string) {
    forall i :: 0 <= i <= |ops| ==> NoOverlapJob(RunOps(zones, ops[..i]), id)
  }

  ghost predicate ListingsFit(zones: Zones, ops: seq<Op>) {
    forall i :: 0 <= i < |ops| && ops[i].TickOp? ==> IsListing(RunOps(zones, ops[..i]), ops[i].listing)
  }

  lemma OtherOpsKeepActive(zones: Zones, d: Disk, op: Op)
    requires !op.TickOp? && !op.CompleteOp?
    ensures Perform(zones, d, op).active == d.active && Perform(zones, d, op).enqueued == d.enqueued
  {
    hide NextRun, ScheduleErrorOf, NewJobId, ValidTransition;
  }

  lemma PerformKeepsOnce(zones: Zones, d: Disk, op: Op, id: string)
    requires ActiveOnce(d.active, id) && NoOverlapJob(d, id)
    requires op.TickOp? ==> IsListing(d, op.listing)
    ensures ActiveOnce(Perform(zones, d, op).active, id)
  {
    hide TickJobs, ActiveOnce, Create, Update;
    match op
    case TickOp(listing, stamp, now) =>
      RetainKeepsOnce(d.active, now, id);
      TickJobsKeepOnce(zones, d.(active := RetainFresh(d.active, now)), listing, stamp, now, id);
    case CompleteOp(job_id, e, _, _) => RemoveKeepsOnce(d.active, job_id, e, id);
    case _ => OtherOpsKeepActive(zones, d, op);
  }

  /** In every reachable state a job that never allows overlap has at most one active
      execution; halted ticks do not matter. */
  lemma {:induction false} AtMostOneActive(zones: Zones, ops: seq<Op>, id: string)
    requires AlwaysNoOverlap(zones, ops, id) && ListingsFit(zones, ops)
    ensures ActiveOnce(RunOps(zones, ops).active, id)
  {
    hide Perform, IsListing, NoOverlapJob, ActiveOnce;
    if ops == [] {
      assert ActiveOnce([], id) by { NothingActive(id); }
    } else {
      var init := ops[..|ops| - 1];
      forall i | 0 <= i <= |init| ensures NoOverlapJob(RunOps(zones, init[..i]), id) { assert init[..i] == ops[..i]; }
      forall i | 0 <= i < |init| && init[i].TickOp? ensures IsListing(RunOps(zones, init[..i]), init[i].listing) {
        assert init[..i] == ops[..i];
      }
      AtMostOneActive(zones, init, id);
      PerformKeepsOnce(zones, RunOps(zones, init), ops[|ops| - 1], id);
    }
  }

  lemma NothingActive(id: string)
    ensures ActiveOnce([], id)
  {
  }

  // ----- separation of dispatches -------------------------------------------------------

  /** The operation ends the active execution `a`: it completes it, or is a tick more than a
      day after it started. */
  predicate Ends(op: Op, a: Active) {
    || (op.CompleteOp? && op.job_id == a.job_id && op.execution_id == a.execution_id)
    || (op.TickOp? && op.now - a.started_at > STALE_SECONDS)
  }

  lemma {:induction false} TickJobsGrowActive(zones: Zones, d: Disk, listing: seq<Job>, nanos: string -> nat, now: int)
    ensures d.active <= TickJobs(zones, d, listing, nanos, now).d.active
  {
    hide TickJob;
    if listing != [] {
      TickJobsGrowActive(zones, d, listing[..|listing| - 1], nanos, now);
      var o := TickJobs(zones, d, listing[..|listing| - 1], nanos, now);
      if o.Done? { TickJobActivates(zones, o.d, listing[|listing| - 1], nanos(listing[|listing| - 1].job_id), now); }
    }
  }

  /** Only an ending operation removes an active execution. */
  lemma ActiveUntilEnded(zones: Zones, d: Disk, op: Op, a: Active)
    requires a in d.active && !Ends(op, a)
    ensures a in Perform(zones, d, op).active
  {
    hide TickJobs, Create, Update;
    match op
    case TickOp(listing, stamp, now) =>
      RetainFreshIs(d.active, now, a);
      TickJobsGrowActive(zones, d.(active := RetainFresh(d.active, now)), listing, stamp, now);
    case CompleteOp(job_id, e, _, _) => RemoveActiveIs(d.active, job_id, e, a);
    case _ => OtherOpsKeepActive(zones, d, op);
  }

  /** While an execution is active, no operation dispatches its job again unless it ends it. */
  lemma NoDispatchWhileActive(zones: Zones, d: Disk, op: Op, a: Active)
    requires a in d.active && !Ends(op, a) && ActiveOnce(d.active, a.job_id) && NoOverlapJob(d, a.job_id)
    requires op.TickOp? ==> IsListing(d, op.listing)
    ensures d.enqueued <= Perform(zones, d, op).enqueued
    ensures forall k :: |d.enqueued| <= k < |Perform(zones, d, op).enqueued| ==> Perform(zones, d, op).enqueued[k].job_id != a.job_id
  {
    hide TickJobs, Create, Update;
    if op.TickOp? {
      var d0 := d.(active := RetainFresh(d.active, op.now));
      RetainFreshIs(d.active, op.now, a);
      HasActiveIs(d0.active, a.job_id);
      RetainKeepsOnce(d.active, op.now, a.job_id);
      TickJobsKeepOnce(zones, d0, op.listing, op.stamp, op.now, a.job_id);
    } else if !op.CompleteOp? {
      OtherOpsKeepActive(zones, d, op);
    }
  }

  /** Two dispatches of a job that never allows overlap are separated: from a state in which
      the first is active, the run reaches the second only through an operation that ends it. */
  lemma {:induction false} DispatchesAreSeparated(zones: Zones, ops: seq<Op>, p: nat, a: Active)
    requires AlwaysNoOverlap(zones, ops, a.job_id) && ListingsFit(zones, ops)
    requires p <= |ops| && a in RunOps(zones, ops[..p]).active
    requires forall k :: p <= k < |ops| ==> !Ends(ops[k], a)
    ensures a in RunOps(zones, ops).active
    ensures RunOps(zones, ops[..p]).enqueued <= RunOps(zones, ops).enqueued
    ensures forall k :: |RunOps(zones, ops[..p]).enqueued| <= k < |RunOps(zones, ops).enqueued| ==>
              RunOps(zones, ops).enqueued[k].job_id != a.job_id
  {
    hide Perform, IsListing, NoOverlapJob, ActiveOnce, Ends;
    if p == |ops| {
      assert ops[..p] == ops;
    } else {
      var init := ops[..|ops| - 1];
      assert init[..p] == ops[..p];
      forall i | 0 <= i <= |init| ensures NoOverlapJob(RunOps(zones, init[..i]), a.job_id) { assert init[..i] == ops[..i]; }
      forall i | 0 <= i < |init| && init[i].TickOp? ensures IsListing(RunOps(zones, init[..i]), init[i].listing) {
        assert init[..i] == ops[..i];
      }
      DispatchesAreSeparated(zones, init, p, a);
      AtMostOneActive(zones, init, a.job_id);
      ActiveUntilEnded(zones, RunOps(zones, init), ops[|ops| - 1], a);
      NoDispatchWhileActive(zones, RunOps(zones, init), ops[|ops| - 1], a);
    }
  }

  /** Every trigger of a tick that reaches its end is active afterwards. */
  lemma {:induction false} DispatchedIsActive(zones: Zones, d: Disk, listing: seq<Job>, nanos: string -> nat, now: int, k: nat)
    requires TickJobs(zones, d, listing, nanos, now).Done?
    requires |d.enqueued| <= k < |TickJobs(zones, d, listing, nanos, now).d.enqueued|
    ensures var d' := TickJobs(zones, d, listing, nanos, now).d;
            && d'.enqueued[k].triggered_at == now
            && Active(d'.enqueued[k].job_id, d'.enqueued[k].execution_id, now) in d'.active
  {
    hide TickJob;
    var init, job := listing[..|listing| - 1], listing[|listing| - 1];
    var d1 := TickJobs(zones, d, init, nanos, now).d;
    TickJobActivates(zones, d1, job, nanos(job.job_id), now);
    TickJobsGrowActive(zones, d, init, nanos, now);
    if k < |d1.enqueued| {
      DispatchedIsActive(zones, d, init, nanos, now, k);
    }
  }

  // ----- which operation dispatched what ------------------------------------------------

  /** The `i`-th trigger was enqueued by the operation at `p`. */
  ghost predicate DispatchedBy(zones: Zones, ops: seq<Op>, p: nat, i: nat) {
    p < |ops| && |RunOps(zones, ops[..p]).enqueued| <= i < |RunOps(zones, ops[..p + 1]).enqueued|
  }

  lemma {:induction false} TickJobsGrow(zones: Zones, d: Disk, listing: seq<Job>, nanos: string -> nat, now: int)
    ensures d.enqueued <= TickJobs(zones, d, listing, nanos, now).d.enqueued
  {
    hide TickJob;
    if listing != [] {
      var init, job := listing[..|listing| - 1], listing[|listing| - 1];
      TickJobsGrow(zones, d, init, nanos, now);
      var o := TickJobs(zones, d, init, nanos, now);
      if o.Done? { TickJobActivates(zones, o.d, job, nanos(job.job_id), now); }
    }
  }

  lemma PerformGrows(zones: Zones, d: Disk, op: Op)
    ensures d.enqueued <= Perform(zones, d, op).enqueued
    ensures !op.TickOp? ==> Perform(zones, d, op).enqueued == d.enqueued
  {
    hide TickJobs, Create, Update;
    match op
    case TickOp(listing, stamp, now) => TickJobsGrow(zones, d.(active := RetainFresh(d.active, now)), listing, stamp, now);
    case CompleteOp(_, _, _, _) =>
    case _ => OtherOpsKeepActive(zones, d, op);
  }

  lemma {:induction false} EnqueuedGrows(zones: Zones, ops: seq<Op>, p: nat)
    requires p <= |ops|
    ensures RunOps(zones, ops[..p]).enqueued <= RunOps(zones, ops).enqueued
  {
    hide Perform;
    if p == |ops| {
      assert ops[..p] == ops;
    } else {
      var init := ops[..|ops| - 1];
      assert init[..p] == ops[..p];
      EnqueuedGrows(zones, init, p);
      PerformGrows(zones, RunOps(zones, init), ops[|ops| - 1]);
    }
  }

  lemma Prefixes(zones: Zones, ops: seq<Op>, p: nat, q: nat)
    requires p <= q <= |ops|
    ensures RunOps(zones, ops[..p]).enqueued <= RunOps(zones, ops[..q]).enqueued
  {
    hide RunOps;
    assert ops[..q][..p] == ops[..p];
    EnqueuedGrows(zones, ops[..q], p);
  }

  lemma {:induction false} DispatchingOp(zones: Zones, ops: seq<Op>, i: nat) returns (p: nat)
    requires i < |RunOps(zones, ops).enqueued|
    ensures DispatchedBy(zones, ops, p, i)
  {
    hide Perform;
    var init := ops[..|ops| - 1];
    if i < |RunOps(zones, init).enqueued| {
      p := DispatchingOp(zones, init, i);
      assert init[..p] == ops[..p] && init[..p + 1] == ops[..p + 1];
    } else {
      p := |init|;
      assert ops[..p + 1] == ops;
    }
  }

  /** A tick triggers each listed job once at most, and no other. */
  lemma {:induction false} OneTriggerEach(zones: Zones, d: Disk, listing: seq<Job>, nanos: string -> nat, now: int)
    requires forall i, j :: 0 <= i < j < |listing| ==> listing[i].job_id != listing[j].job_id
    ensures var e := TickJobs(zones, d, listing, nanos, now).d.enqueued;
            && d.enqueued <= e
            && (forall i :: |d.enqueued| <= i < |e| ==> exists q :: 0 <= q < |listing| && listing[q].job_id == e[i].job_id)
            && (forall i, k :: |d.enqueued| <= i < k < |e| ==> e[i].job_id != e[k].job_id)
  {
    hide TickJob;
    if listing != [] {
      var init, job := listing[..|listing| - 1], listing[|listing| - 1];
      assert forall k :: 0 <= k < |init| ==> init[k] == listing[k];
      OneTriggerEach(zones, d, init, nanos, now);
      var o := TickJobs(zones, d, init, nanos, now);
      if o.Done? { TickJobActivates(zones, o.d, job, nanos(job.job_id), now); }
    }
  }

  // ----- ticks that forget --------------------------------------------------------------

  /** A job of the tick makes it fail, at or after the turn in which job `id` is dispatched: the
      list of active executions, saved last, never learns of that dispatch. */
  ghost predicate Forgets(zones: Zones, d: Disk, op: Op, id: string) {
    op.TickOp? && exists q, p :: 0 <= q <= p < |op.listing| && ForgetsAt(zones, d, op, id, q, p)
  }

  ghost predicate ForgetsAt(zones: Zones, d: Disk, op: Op, id: string, q: nat, p: nat)
    requires op.TickOp? && q <= p < |op.listing|
  {
    && op.listing[q].job_id == id
    && ReachedAt(zones, d, op.listing, p, op.stamp, op.now).Done?
    && Dispatchable(ReachedAt(zones, d, op.listing, q, op.stamp, op.now).d, op.listing[q], op.now)
    && Halts(zones, ReachedAt(zones, d, op.listing, p, op.stamp, op.now).d, op.listing[p], op.now)
  }

  /** While the jobs before `n` are done, each trigger comes from the turn of a dispatchable job. */
  lemma {:induction false} TurnOfTrigger(zones: Zones, d: Disk, listing: seq<Job>, nanos: string -> nat, now: int, i: nat) returns (q: nat)
    requires |d.enqueued| <= i < |TickJobs(zones, d, listing, nanos, now).d.enqueued|
    ensures q < |listing| && TickJobs(zones, d, listing[..q], nanos, now).Done?
    ensures listing[q].job_id == TickJobs(zones, d, listing, nanos, now).d.enqueued[i].job_id
    ensures Dispatchable(TickJobs(zones, d, listing[..q], nanos, now).d, listing[q], now)
    ensures TickJobs(zones, d, listing, nanos, now).Halted? ==>
              q <= HaltsFrom(zones, d, listing, nanos, now)
  {
    hide TickJob, Dispatchable, HaltsFrom;
    var init, job := listing[..|listing| - 1], listing[|listing| - 1];
    var o := TickJobs(zones, d, init, nanos, now);
    HaltsFromStep(zones, d, listing, nanos, now);
    if o.Halted? || i < |o.d.enqueued| {
      if o.Done? { TurnOf(zones, o.d, job, nanos(job.job_id), now); }
      q := TurnOfTrigger(zones, d, init, nanos, now, i);
      assert init[..q] == listing[..q];
    } else {
      TurnOf(zones, o.d, job, nanos(job.job_id), now);
      q := |init|;
      assert listing[..q] == init;
    }
  }

  /** The turn at which a failing pass fails. */
  ghost function HaltsFrom(zones: Zones, d: Disk, listing: seq<Job>, nanos: string -> nat, now: int): nat {
    if listing == [] then 0
    else if TickJobs(zones, d, listing[..|listing| - 1], nanos, now).Halted?
    then HaltsFrom(zones, d, listing[..|listing| - 1], nanos, now)
    else |listing| - 1
  }

  lemma HaltsFromStep(zones: Zones, d: Disk, listing: seq<Job>, nanos: string -> nat, now: int)
    ensures listing != [] ==>
              HaltsFrom(zones, d, listing, nanos, now)
              == if TickJobs(zones, d, listing[..|listing| - 1], nanos, now).Halted?
                 then HaltsFrom(zones, d, listing[..|listing| - 1], nanos, now) else |listing| - 1
  {
    hide TickJob;
  }

  lemma {:induction false} HaltsThere(zones: Zones, d: Disk, listing: seq<Job>, nanos: string -> nat, now: int)
    requires TickJobs(zones, d, listing, nanos, now).Halted?
    ensures var p := HaltsFrom(zones, d, listing, nanos, now);
            && p < |listing| && TickJobs(zones, d, listing[..p], nanos, now).Done?
            && Halts(zones, TickJobs(zones, d, listing[..p], nanos, now).d, listing[p], now)
  {
    hide TickJob, Halts;
    var init, job := listing[..|listing| - 1], listing[|listing| - 1];
    var o := TickJobs(zones, d, init, nanos, now);
    if o.Halted? {
      HaltsThere(zones, d, init, nanos, now);
      var p := HaltsFrom(zones, d, init, nanos, now);
      assert init[..p] == listing[..p];
    } else {
      TurnOf(zones, o.d, job, nanos(job.job_id), now);
      assert listing[..|listing| - 1] == init;
    }
  }

  /** A failing tick forgets every job it has triggered. */
  lemma HaltedTickForgets(zones: Zones, d: Disk, op: Op, i: nat)
    requires op.TickOp? && |d.enqueued| <= i < |Perform(zones, d, op).enqueued|
    requires TickAll(zones, d, op.listing, op.stamp, op.now).Halted?
    ensures Forgets(zones, d, op, Perform(zones, d, op).enqueued[i].job_id)
  {
    hide TickJobs, Dispatchable, Halts, RetainFresh, HaltsFrom;
    var d0 := d.(active := RetainFresh(d.active, op.now));
    var q := TurnOfTrigger(zones, d0, op.listing, op.stamp, op.now, i);
    HaltsThere(zones, d0, op.listing, op.stamp, op.now);
    var p := HaltsFrom(zones, d0, op.listing, op.stamp, op.now);
    assert ForgetsAt(zones, d, op, op.listing[q].job_id, q, p);
  }

  lemma {:induction false} EarlierIsDone(zones: Zones, d: Disk, listing: seq<Job>, stamp: string -> nat, now: int, q: nat, p: nat)
    requires q <= p <= |listing| && TickJobs(zones, d, listing[..p], stamp, now).Done?
    ensures TickJobs(zones, d, listing[..q], stamp, now).Done?
  {
    hide TickJob;
    if q < p {
      assert listing[..p][..p - 1] == listing[..p - 1];
      EarlierIsDone(zones, d, listing, stamp, now, q, p - 1);
    }
  }

  /** The guard says exactly when a tick fails after triggering the job. */
  lemma ForgetsIff(zones: Zones, d: Disk, op: Op, id: string)
    requires op.TickOp?
    ensures Forgets(zones, d, op, id) <==>
              && TickAll(zones, d, op.listing, op.stamp, op.now).Halted?
              && exists i :: |d.enqueued| <= i < |Perform(zones, d, op).enqueued| && Perform(zones, d, op).enqueued[i].job_id == id
  {
    hide TickJobs, Dispatchable, Halts, RetainFresh;
    if Forgets(zones, d, op, id) {
      var q, p :| 0 <= q <= p < |op.listing| && ForgetsAt(zones, d, op, id, q, p);
      var d0 := d.(active := RetainFresh(d.active, op.now));
      HaltIsFinalAt(zones, d0, op.listing, op.stamp, op.now, p);
      EarlierIsDone(zones, d0, op.listing, op.stamp, op.now, q, p);
      var i := SecondTrigger(zones, d0, op.listing, op.stamp, op.now, q);
      assert Perform(zones, d, op).enqueued == TickJobs(zones, d0, op.listing, op.stamp, op.now).d.enqueued;
      assert Perform(zones, d, op).enqueued[i].job_id == id;
    }
    if TickAll(zones, d, op.listing, op.stamp, op.now).Halted?
       && exists i :: |d.enqueued| <= i < |Perform(zones, d, op).enqueued| && Perform(zones, d, op).enqueued[i].job_id == id {
      var i: nat :| |d.enqueued| <= i < |Perform(zones, d, op).enqueued| && Perform(zones, d, op).enqueued[i].job_id == id;
      HaltedTickForgets(zones, d, op, i);
    }
  }

  // ----- separation over whole runs -----------------------------------------------------

  function EntryOf(x: Dispatch): Active { Active(x.job_id, x.execution_id, x.triggered_at) }

  /** Between two dispatches of job `id`, some operation completes the first or finds it stale. */
  ghost predicate Separated(zones: Zones, ops: seq<Op>, id: string) {
    var enqueued := RunOps(zones, ops).enqueued;
    forall i, k :: 0 <= i < k < |enqueued| && enqueued[i].job_id == id && enqueued[k].job_id == id ==>
      EndedBetween(zones, ops, i, k)
  }

  ghost predicate EndedBetween(zones: Zones, ops: seq<Op>, i: nat, k: nat)
    requires i < |RunOps(zones, ops).enqueued|
  {
    exists p, e :: 0 <= p < e < |ops| && DispatchedBy(zones, ops, p, i)
      && Ends(ops[e], EntryOf(RunOps(zones, ops).enqueued[i])) && |RunOps(zones, ops[..e]).enqueued| <= k
  }

  lemma SameTickOnce(zones: Zones, ops: seq<Op>, p: nat, i: nat, k: nat)
    requires ListingsFit(zones, ops) && DispatchedBy(zones, ops, p, i) && DispatchedBy(zones, ops, p, k) && i < k
    ensures RunOps(zones, ops[..p + 1]).enqueued[i].job_id != RunOps(zones, ops[..p + 1]).enqueued[k].job_id
  {
    hide TickJobs, Create, Update, RetainFresh;
    var d := RunOps(zones, ops[..p]);
    assert ops[..p + 1][..p] == ops[..p];
    PerformGrows(zones, d, ops[p]);
    OneTriggerEach(zones, d.(active := RetainFresh(d.active, ops[p].now)), ops[p].listing, ops[p].stamp, ops[p].now);
  }

  /** After a dispatch that is not forgotten, its execution is active. */
  lemma ActiveAfterDispatch(zones: Zones, ops: seq<Op>, p: nat, i: nat)
    requires DispatchedBy(zones, ops, p, i)
    requires var x := RunOps(zones, ops[..p + 1]).enqueued[i]; !Forgets(zones, RunOps(zones, ops[..p]), ops[p], x.job_id)
    ensures EntryOf(RunOps(zones, ops[..p + 1]).enqueued[i]) in RunOps(zones, ops[..p + 1]).active
  {
    hide TickJobs, Create, Update, RetainFresh, Forgets;
    var d := RunOps(zones, ops[..p]);
    assert ops[..p + 1][..p] == ops[..p];
    PerformGrows(zones, d, ops[p]);
    ForgetsIff(zones, d, ops[p], RunOps(zones, ops[..p + 1]).enqueued[i].job_id);
    DispatchedIsActive(zones, d.(active := RetainFresh(d.active, ops[p].now)), ops[p].listing, ops[p].stamp, ops[p].now, i);
  }

  /** No overlap over whole runs: when no tick fails at or after the turn in which it dispatches
      job `id`, any two dispatches of that job are separated by the completion of the first or
      by a tick more than a day after it. */
  lemma NoOverlapOverRuns(zones: Zones, ops: seq<Op>, id: string)
    requires AlwaysNoOverlap(zones, ops, id) && ListingsFit(zones, ops)
    requires forall p :: 0 <= p < |ops| ==> !Forgets(zones, RunOps(zones, ops[..p]), ops[p], id)
    ensures Separated(zones, ops, id)
  {
    hide Perform, Forgets, EndedBetween, NoOverlapJob, IsListing;
    var enqueued := RunOps(zones, ops).enqueued;
    forall i, k | 0 <= i < k < |enqueued| && enqueued[i].job_id == id && enqueued[k].job_id == id
      ensures EndedBetween(zones, ops, i, k)
    {
      var p := DispatchingOp(zones, ops, i);
      var q := DispatchingOp(zones, ops, k);
      if q < p { Prefixes(zones, ops, q + 1, p); }
      if p == q {
        SameTickOnce(zones, ops, p, i, k);
        EnqueuedGrows(zones, ops, p + 1);
      }
      assert p < q;
      EndComesBetween(zones, ops, id, p, q, i, k);
    }
  }

  lemma EndComesBetween(zones: Zones, ops: seq<Op>, id: string, p: nat, q: nat, i: nat, k: nat)
    requires AlwaysNoOverlap(zones, ops, id) && ListingsFit(zones, ops)
    requires p < q && DispatchedBy(zones, ops, p, i) && DispatchedBy(zones, ops, q, k)
    requires !Forgets(zones, RunOps(zones, ops[..p]), ops[p], id)
    requires i < |RunOps(zones, ops).enqueued| && RunOps(zones, ops).enqueued[i].job_id == id
    requires k < |RunOps(zones, ops).enqueued| && RunOps(zones, ops).enqueued[k].job_id == id
    ensures EndedBetween(zones, ops, i, k)
  {
    hide RunOps, Forgets, NoOverlapJob, IsListing, Ends;
    EnqueuedGrows(zones, ops, p + 1);
    EnqueuedGrows(zones, ops, q + 1);
    var a := EntryOf(RunOps(zones, ops).enqueued[i]);
    ActiveAfterDispatch(zones, ops, p, i);
    var upto := ops[..q + 1];
    assert upto[..p + 1] == ops[..p + 1] && |upto| == q + 1;
    assert forall j :: 0 <= j <= |upto| ==> upto[..j] == ops[..j];
    if forall e :: p + 1 <= e < |upto| ==> !Ends(upto[e], a) {
      DispatchesAreSeparated(zones, upto, p + 1, a);
      Prefixes(zones, ops, p + 1, q);
    } else {
      var e :| p + 1 <= e < |upto| && Ends(upto[e], a);
      Prefixes(zones, ops, e, q);
      assert Ends(ops[e], a) && |RunOps(zones, ops[..e]).enqueued| <= k;
    }
  }

  /** The same under a condition on the jobs alone: the searches for the jobs that are due succeed. */
  lemma NoOverlapWhenSearchesSucceed(zones: Zones, ops: seq<Op>, id: string)
    requires AlwaysNoOverlap(zones, ops, id) && ListingsFit(zones, ops)
    requires forall i :: 0 <= i < |ops| && ops[i].TickOp? ==> SearchesSucceed(zones, ops[i].listing, ops[i].now)
    ensures Separated(zones, ops, id)
  {
    hide Perform, Forgets, Separated, AlwaysNoOverlap, ListingsFit, SearchesSucceed;
    forall p | 0 <= p < |ops| ensures !Forgets(zones, RunOps(zones, ops[..p]), ops[p], id) {
      if ops[p].TickOp? {
        ForgetsIff(zones, RunOps(zones, ops[..p]), ops[p], id);
        WholeTickLeavesNoOrphan(zones, RunOps(zones, ops[..p]), ops[p].listing, ops[p].stamp, ops[p].now);
      } else {
        OnlyTicksForget(zones, RunOps(zones, ops[..p]), ops[p], id);
      }
    }
    NoOverlapOverRuns(zones, ops, id);
  }

  lemma OnlyTicksForget(zones: Zones, d: Disk, op: Op, id: string)
    requires !op.TickOp?
    ensures !Forgets(zones, d, op, id)
  {
  }

  // ----- the converse -------------------------------------------------------------------

  lemma {:induction false} TickJobsKeepOthersInactive(zones: Zones, d: Disk, listing: seq<Job>, nanos: string -> nat, now: int, id: string)
    requires !HasActive(d.active, id) && forall k :: 0 <= k < |listing| ==> listing[k].job_id != id
    ensures !HasActive(TickJobs(zones, d, listing, nanos, now).d.active, id)
  {
    hide TickJob;
    if listing != [] {
      var init, job := listing[..|listing| - 1], listing[|listing| - 1];
      assert forall k :: 0 <= k < |init| ==> init[k] == listing[k];
      TickJobsKeepOthersInactive(zones, d, init, nanos, now, id);
      var o := TickJobs(zones, d, init, nanos, now);
      if o.Done? { TickJobActivates(zones, o.d, job, nanos(job.job_id), now); }
    }
  }

  /** What was not fresh at one time is not fresh later. */
  lemma StaleStays(active: seq<Active>, now: int, later: int, id: string)
    requires now <= later && !HasActive(RetainFresh(active, now), id)
    ensures !HasActive(RetainFresh(active, later), id)
  {
    hide RetainFresh;
    if HasActive(RetainFresh(active, later), id) {
      var j :| 0 <= j < |RetainFresh(active, later)| && RetainFresh(active, later)[j].job_id == id;
      var a := RetainFresh(active, later)[j];
      RetainFreshIs(active, later, a);
      RetainFreshIs(active, now, a);
      HasActiveIs(RetainFresh(active, now), id);
    }
  }

  /** After a tick that forgets, any later tick that reaches the job when it is due for an unknown
      run dispatches it again, whether or not the first execution has ended. */
  lemma ForgottenIsDispatchedAgain(zones: Zones, d: Disk, op: Op, id: string, listing: seq<Job>, stamp: string -> nat, now: int, q: nat)
    requires Forgets(zones, d, op, id) && NoOverlapListing(op.listing, id) && op.now <= now
    requires forall i, j :: 0 <= i < j < |op.listing| ==> op.listing[i].job_id != op.listing[j].job_id
    requires forall i, j :: 0 <= i < j < |listing| ==> listing[i].job_id != listing[j].job_id
    requires var d1 := Perform(zones, d, op);
             && q < |listing| && listing[q].job_id == id && ReachedAt(zones, d1, listing, q, stamp, now).Done?
             && IsDue(listing[q], now) && !IsMissed(listing[q], now)
             && !IsKnown(ReachedAt(zones, d1, listing, q, stamp, now).d, id, ExecutionId(id, listing[q].next_run_at.value))
    ensures var d1 := Perform(zones, d, op);
            var d2 := TickAll(zones, d1, listing, stamp, now).d;
            && (exists i :: |d.enqueued| <= i < |d1.enqueued| && d1.enqueued[i].job_id == id)
            && (exists k :: |d1.enqueued| <= k < |d2.enqueued| && d2.enqueued[k] == DispatchFor(listing[q], now))
  {
    hide TickJobs, Halts, IsKnown, RetainFresh, ExecutionId;
    var p0, p :| 0 <= p0 <= p < |op.listing| && ForgetsAt(zones, d, op, id, p0, p);
    ForgottenFirst(zones, d, op, id, p0, p);
    var d1 := Perform(zones, d, op);
    StaleStays(d.active, op.now, now, id);
    var e0 := d1.(active := RetainFresh(d1.active, now));
    var prefix := listing[..q];
    forall k | 0 <= k < |prefix| ensures prefix[k].job_id != id { assert prefix[k] == listing[k]; }
    TickJobsKeepOthersInactive(zones, e0, prefix, stamp, now, id);
    var i := SecondTrigger(zones, e0, listing, stamp, now, q);
  }

  /** The first tick: it fails, keeps the old list, and has enqueued a trigger of the job. */
  lemma ForgottenFirst(zones: Zones, d: Disk, op: Op, id: string, q: nat, p: nat)
    requires op.TickOp? && q <= p < |op.listing| && ForgetsAt(zones, d, op, id, q, p) && NoOverlapListing(op.listing, id)
    requires forall i, j :: 0 <= i < j < |op.listing| ==> op.listing[i].job_id != op.listing[j].job_id
    ensures Perform(zones, d, op).active == d.active && !HasActive(RetainFresh(d.active, op.now), id)
    ensures exists i :: |d.enqueued| <= i < |Perform(zones, d, op).enqueued| && Perform(zones, d, op).enqueued[i].job_id == id
  {
    hide TickJobs, Halts, Dispatchable, RetainFresh;
    var d0 := d.(active := RetainFresh(d.active, op.now));
    HaltIsFinalAt(zones, d0, op.listing, op.stamp, op.now, p);
    EarlierIsDone(zones, d0, op.listing, op.stamp, op.now, q, p);
    var i := SecondTrigger(zones, d0, op.listing, op.stamp, op.now, q);
    var dq := TickJobs(zones, d0, op.listing[..q], op.stamp, op.now).d;
    TickJobsGrowActive(zones, d0, op.listing[..q], op.stamp, op.now);
    NotActiveBefore(d0.active, dq, op.listing[q], op.now);
  }

  lemma NotActiveBefore(active: seq<Active>, d: Disk, job: Job, now: int)
    requires active <= d.active && Dispatchable(d, job, now) && !job.allow_overlap
    ensures !HasActive(active, job.job_id)
  {
    hide IsKnown;
  }

  lemma HaltIsFinalAt(zones: Zones, d: Disk, listing: seq<Job>, stamp: string -> nat, now: int, p: nat)
    requires p < |listing| && TickJobs(zones, d, listing[..p], stamp, now).Done?
    requires Halts(zones, TickJobs(zones, d, listing[..p], stamp, now).d, listing[p], now)
    ensures TickJobs(zones, d, listing, stamp, now).Halted?
  {
    hide TickJobs, Halts;
    TurnOf(zones, TickJobs(zones, d, listing[..p], stamp, now).d, listing[p], stamp(listing[p].job_id), now);
    HaltIsFinal(zones, d, listing, p, stamp, now);
  }

  lemma LastTurn(zones: Zones, d: Disk, listing: seq<Job>, stamp: string -> nat, now: int)
    requires listing != []
    ensures var job := listing[|listing| - 1];
            var o := TickJobs(zones, d, listing[..|listing| - 1], stamp, now);
            TickJobs(zones, d, listing, stamp, now) == if o.Halted? then o else TickJob(zones, o.d, job, stamp(job.job_id), now)
  {
    hide TickJob;
  }

  /** A dispatchable job that is reached has its trigger enqueued, whatever comes after. */
  lemma {:induction false} SecondTrigger(zones: Zones, d: Disk, listing: seq<Job>, stamp: string -> nat, now: int, q: nat) returns (i: nat)
    requires q < |listing| && TickJobs(zones, d, listing[..q], stamp, now).Done?
    requires Dispatchable(TickJobs(zones, d, listing[..q], stamp, now).d, listing[q], now)
    ensures var e := TickJobs(zones, d, listing, stamp, now).d.enqueued;
            listing[q].next_run_at.Some? && |d.enqueued| <= i < |e| && e[i] == DispatchFor(listing[q], now)
  {
    hide TickJob, TickJobs, Dispatchable, DispatchFor;
    var init, job := listing[..|listing| - 1], listing[|listing| - 1];
    var o := TickJobs(zones, d, init, stamp, now);
    LastTurn(zones, d, listing, stamp, now);
    TickJobsGrow(zones, d, init, stamp, now);
    DispatchableIsDue(TickJobs(zones, d, listing[..q], stamp, now).d, listing[q], now);
    TurnOf(zones, o.d, job, stamp(job.job_id), now);
    if q == |init| {
      i := |o.d.enqueued|;
    } else {
      assert init[..q] == listing[..q];
      i := SecondTrigger(zones, d, init, stamp, now, q);
    }
  }
}
