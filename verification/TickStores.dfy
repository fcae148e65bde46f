/** What every store keeps, stranded triggers and repeated dispatches included: jobs under their own
    ids, history files named after what they hold, and a cache inside the history. */
module TickStores {
  import opened Schedule
  import opened JobStore
  import opened Tick
  import opened TickSafety

  ghost predicate StoreInv(d: Disk) { JobsInv(d) && HistoryInv(d) && RecentInv(d) }

  /** The store without its triggers, and with others before them. No operation reads them. */
  function Blank(d: Disk): Disk { d.(enqueued := []) }

  function Behind(d: Disk, xs: seq<Dispatch>): Disk { d.(enqueued := xs + d.enqueued) }

  function BehindAll(o: Outcome, xs: seq<Dispatch>): Outcome {
    match o
    case Done(d) => Done(Behind(d, xs))
    case Halted(d, e, orphan) => Halted(Behind(d, xs), e, orphan)
  }

  lemma TurnIgnoresTriggers(zones: Zones, d: Disk, xs: seq<Dispatch>, job: Job, nanos: nat, now: int)
    ensures TickJob(zones, Behind(d, xs), job, nanos, now) == BehindAll(TickJob(zones, d, job, nanos, now), xs)
  {
    hide ExecutionId, SkipId, HistoryName, NextRun, RecoveryNextRun, NextAfterDispatch;
    SameRuns(d, Behind(d, xs));
    assert forall x: Dispatch :: (xs + d.enqueued) + [x] == xs + (d.enqueued + [x]);
  }

  lemma {:induction false} TurnsIgnoreTriggers(zones: Zones, d: Disk, xs: seq<Dispatch>, listing: seq<Job>, nanos: string -> nat, now: int)
    ensures TickJobs(zones, Behind(d, xs), listing, nanos, now) == BehindAll(TickJobs(zones, d, listing, nanos, now), xs)
  {
    hide TickJob;
    if listing != [] {
      var init, job := listing[..|listing| - 1], listing[|listing| - 1];
      TurnsIgnoreTriggers(zones, d, xs, init, nanos, now);
      var o := TickJobs(zones, d, init, nanos, now);
      if o.Done? { TurnIgnoresTriggers(zones, o.d, xs, job, nanos(job.job_id), now); }
    }
  }

  lemma TickIgnoresTriggers(zones: Zones, d: Disk, xs: seq<Dispatch>, listing: seq<Job>, nanos: string -> nat, now: int)
    ensures TickAll(zones, Behind(d, xs), listing, nanos, now) == BehindAll(TickAll(zones, d, listing, nanos, now), xs)
  {
    hide TickJobs, RetainFresh;
    var d0 := d.(active := RetainFresh(d.active, now));
    TurnsIgnoreTriggers(zones, d0, xs, listing, nanos, now);
    assert Behind(d, xs).(active := RetainFresh(d.active, now)) == Behind(d0, xs);
  }

  lemma BlankIsSafe(d: Disk)
    ensures StoreInv(d) <==> SafetyInv(Blank(d), 0)
    ensures Behind(Blank(d), d.enqueued) == d
  {
    hide HistoryName, GenuineDispatch, WellFormedId, ExecutionExists, ExecutionId, RecentInv;
    assert d.enqueued + [] == d.enqueued;
    SameRuns(d, Blank(d));
    if RecentInv(d) { RemembersKeepsRecent(d, Blank(d)); }
    if RecentInv(Blank(d)) { RemembersKeepsRecent(Blank(d), d); }
  }

  /** Every tick keeps it, one that fails anywhere included. */
  lemma TickKeepsStore(zones: Zones, d: Disk, listing: seq<Job>, nanos: string -> nat, now: int)
    requires StoreInv(d) && IsListing(d, listing)
    ensures StoreInv(TickAll(zones, d, listing, nanos, now).d)
  {
    hide TickAll, StoreInv, SafetyInv;
    BlankIsSafe(d);
    TickIgnoresTriggers(zones, Blank(d), d.enqueued, listing, nanos, now);
    TickKeepsSafety(zones, Blank(d), listing, nanos, now);
    var o := TickAll(zones, Blank(d), listing, nanos, now);
    SafeIsStored(o.d, Settled(o));
    BlankIsSafe(o.d);
    BlankIsSafe(Behind(o.d, d.enqueued));
    assert Blank(o.d) == Blank(Behind(o.d, d.enqueued));
  }

  lemma SafeIsStored(d: Disk, settled: nat)
    requires SafetyInv(d, settled)
    ensures StoreInv(d)
  {
  }

  lemma SameGuards(zones: Zones, d: Disk, op: Op)
    requires !op.TickOp?
    ensures WellFormedOp(Blank(d), op) == WellFormedOp(d, op) && LeavesNoOrphan(zones, Blank(d), op)
    ensures Perform(zones, d, op) == Behind(Perform(zones, Blank(d), op), d.enqueued)
  {
    hide HistoryName, Canonical, NextRun, ScheduleErrorOf, NewJobId, KeepsKnown;
    assert d.enqueued + [] == d.enqueued;
    if op.CompleteOp? { SameGuard(d, Blank(d), op.job_id, op.execution_id, op.now); }
  }

  lemma PerformKeepsStore(zones: Zones, d: Disk, op: Op)
    requires StoreInv(d) && WellFormedOp(d, op)
    ensures StoreInv(Perform(zones, d, op))
  {
    if op.TickOp? {
      hide StoreInv, TickAll;
      TickKeepsStore(zones, d, op.listing, op.stamp, op.now);
    } else {
      hide StoreInv, SafetyInv, WellFormedOp, Perform, LeavesNoOrphan;
      BlankIsSafe(d);
      SameGuards(zones, d, op);
      PerformKeepsSafety(zones, Blank(d), op);
      var d' := Perform(zones, Blank(d), op);
      SafeIsStored(d', |d'.enqueued|);
      BlankIsSafe(d');
      BlankIsSafe(Behind(d', d.enqueued));
      assert Blank(d') == Blank(Behind(d', d.enqueued));
    }
  }

  /** Over every run in which completions take no other execution's only record, whatever triggers
      ticks strand and repeat. */
  lemma {:induction false} EveryRunKeepsStore(zones: Zones, ops: seq<Op>)
    requires WellFormedRun(zones, ops)
    ensures StoreInv(RunOps(zones, ops))
  {
    hide Perform, WellFormedOp, StoreInv;
    if ops == [] {
      EmptyIsSafe();
      SafeIsStored(EMPTY_DISK, 0);
    } else {
      var init := ops[..|ops| - 1];
      forall i | 0 <= i < |init| ensures WellFormedOp(RunOps(zones, init[..i]), init[i]) {
        assert init[..i] == ops[..i];
      }
      EveryRunKeepsStore(zones, init);
      assert ops[..|ops| - 1] == init;
      PerformKeepsStore(zones, RunOps(zones, init), ops[|ops| - 1]);
    }
  }
}
