/** Any number of queue workers, each with its own stale listing, one file operation at a
    time, with crashes anywhere and recovery after them (src/queue/lifecycle.rs,
    src/runtime/recovery.rs). */
module QueueMachine {
  import opened Prelude
  import opened QueueNames
  import opened QueueFiles

  /** A claimed file is known to its worker by name and by the message read from it. */
  datatype Worker =
    | Free
    | Walking(snapshot: seq<string>)                         // trying the names of a listing, in order
    | Holding(name: string, body: Body)                      // has claimed a file, has done nothing with it yet
    | Replying(name: string, body: Body, left: seq<Reply>)   // writing replies; removes the file when none is left
    | Burying(name: string, body: Body)                      // has written the dead letter, not removed the file

  /** The directories, the workers, the number in the next requeue or dead-letter name, and the
      history of messages: everything accepted, completed, dead-lettered, dropped by recovery as
      a duplicate, lost because its file was overwritten or removed under another message's
      name, and those whose dead letter another message's replaced. */
  datatype Queue = Queue(
    files: Files,
    workers: map<nat, Worker>,
    counter: nat,
    accepted: set<Body>,
    completed: set<Body>,
    buried: set<Body>,
    dropped: set<Body>,
    lost: set<Body>,
    erased: set<Body>)

  const EMPTY_QUEUE := Queue(Files(map[], map[], map[], map[]), map[], 0, {}, {}, {}, {}, {}, {})

  /** Names of accepted, requeued and dead-lettered files may be any, taken ones included. */
  datatype Step =
    | Accept(name: string, body: Body)
    | Look(w: nat, snapshot: seq<string>)
    | Try(w: nat)                                  // rename the next name of the listing, or give up
    | GiveBack(w: nat, renamed: string)            // requeue, after a failure or an unparseable body
    | BeginReplies(w: nat, replies: seq<Reply>)
    | WriteOne(w: nat, name: string)
    | Finish(w: nat)                               // remove the file once nothing is left to write
    | WriteDeadLetter(w: nat, name: string)
    | Abandon(w: nat)                              // return with an error, leaving the file in processing
    | Crash                                        // the process ends; a stop with files at rest is one too
    | RecoverSome(hash: string -> string, order: seq<string>, n: nat)  // the first `n` turns of recovery

  function WorkerOf(q: Queue, w: nat): Worker { if w in q.workers then q.workers[w] else Free }

  predicate Holds(worker: Worker) { worker.Holding? || worker.Replying? || worker.Burying? }

  /** A step makes sense where it stands. Each acceptance is a message of its own; replies take
      free names, as the search for one makes sure; only parsed messages get an outcome. */
  predicate Enabled(q: Queue, step: Step) {
    match step
    case Accept(_, body) => body !in q.accepted
    case Look(w, _) => WorkerOf(q, w).Free?
    case Try(w) => WorkerOf(q, w).Walking?
    case GiveBack(w, _) => WorkerOf(q, w).Holding?
    case BeginReplies(w, _) => WorkerOf(q, w).Holding? && WorkerOf(q, w).body.key.Some?
    case WriteOne(w, name) => WorkerOf(q, w).Replying? && WorkerOf(q, w).left != [] && name !in q.files.outgoing
    case Finish(w) => (WorkerOf(q, w).Replying? && WorkerOf(q, w).left == []) || WorkerOf(q, w).Burying?
    case WriteDeadLetter(w, _) => WorkerOf(q, w).Holding? && WorkerOf(q, w).body.key.Some?
    case Abandon(w) => Holds(WorkerOf(q, w))
    case Crash => true
    case RecoverSome(hash, order, n) => q.workers == map[] && IsOrder(order, q.files.processing) && n <= |order|
  }

  function Set(q: Queue, w: nat, worker: Worker): Queue { q.(workers := q.workers[w := worker]) }

  /** The message under this name, which a new file of that name replaces. */
  function Under(m: map<string, Body>, name: string): set<Body> {
    if name in m then {m[name]} else {}
  }

  function TryNext(q: Queue, w: nat, snapshot: seq<string>): Queue {
    if snapshot == [] then Set(q, w, Free)
    else if snapshot[0] in q.files.incoming then
      Set(q.(files := Claim(q.files, snapshot[0]), lost := q.lost + Under(q.files.processing, snapshot[0])), w,
          Holding(snapshot[0], q.files.incoming[snapshot[0]]))
    else Set(q, w, Walking(snapshot[1..]))
  }

  /** The rename fails when the file is gone; its new name is used up all the same. */
  function GiveBackFile(q: Queue, worker: Worker, renamed: string): Queue
    requires worker.Holding?
  {
    var q1 := q.(counter := q.counter + 1);
    if worker.name in q.files.processing
    then q1.(files := Requeue(q.files, worker.name, renamed), lost := q.lost + Under(q.files.incoming, renamed))
    else q1
  }

  /** Removes whatever has the name of the claimed file. */
  function FinishFile(q: Queue, worker: Worker): Queue
    requires Holds(worker)
  {
    var q1 := q.(files := RemoveProcessing(q.files, worker.name));
    if worker.name !in q.files.processing then q
    else if q.files.processing[worker.name] != worker.body then q1.(lost := q.lost + {q.files.processing[worker.name]})
    else if worker.Burying? then q1.(buried := q.buried + {worker.body})
    else q1.(completed := q.completed + {worker.body})
  }

  /** The duplicates among the first `n` files. */
  ghost function DroppedBy(f: Files, order: seq<string>, n: nat): set<Body>
    requires IsOrder(order, f.processing) && n <= |order|
  {
    set i | 0 <= i < n && !Restored(f, order, i) :: BodyAt(f, order, i)
  }

  /** The messages in incoming whose names the first `n` turns take. */
  ghost function OverwrittenBy(hash: string -> string, f: Files, order: seq<string>, n: nat): set<Body>
    requires IsOrder(order, f.processing) && n <= |order|
  {
    set name | name in f.incoming && Writes(hash, f, order, n, name) :: f.incoming[name]
  }

  ghost function Apply(q: Queue, step: Step): Queue
    requires Enabled(q, step)
  {
    match step
    case Accept(name, body) =>
      q.(files := q.files.(incoming := q.files.incoming[name := body]), accepted := q.accepted + {body},
         lost := q.lost + Under(q.files.incoming, name))
    case Look(w, snapshot) => Set(q, w, Walking(snapshot))
    case Try(w) => TryNext(q, w, WorkerOf(q, w).snapshot)
    case GiveBack(w, renamed) => Set(GiveBackFile(q, WorkerOf(q, w), renamed), w, Free)
    case BeginReplies(w, replies) => Set(q, w, Replying(WorkerOf(q, w).name, WorkerOf(q, w).body, replies))
    case WriteOne(w, name) =>
      var worker := WorkerOf(q, w);
      Set(q.(files := WriteReply(q.files, name, worker.left[0])), w, Replying(worker.name, worker.body, worker.left[1..]))
    case Finish(w) => Set(FinishFile(q, WorkerOf(q, w)), w, Free)
    case WriteDeadLetter(w, name) =>
      var worker := WorkerOf(q, w);
      Set(q.(files := WriteFailed(q.files, name, worker.body), counter := q.counter + 1,
             erased := q.erased + (Under(q.files.failed, name) - {worker.body})), w, Burying(worker.name, worker.body))
    case Abandon(w) => Set(q, w, Free)
    case Crash => q.(workers := map[], counter := 0)
    case RecoverSome(hash, order, n) =>
      q.(files := RecoverPrefix(hash, q.files, order, n).files, dropped := q.dropped + DroppedBy(q.files, order, n),
         lost := q.lost + OverwrittenBy(hash, q.files, order, n))
  }

  // ----- mutual exclusion ---------------------------------------------------------------

  /** Every held file is in processing with the message its worker read, and has one holder. */
  predicate HeldInv(q: Queue) {
    && (forall w <- q.workers :: Holds(q.workers[w]) ==>
          q.workers[w].name in q.files.processing && q.files.processing[q.workers[w].name] == q.workers[w].body)
    && (forall w <- q.workers, v <- q.workers ::
          w != v && Holds(q.workers[w]) && Holds(q.workers[v]) ==> q.workers[w].name != q.workers[v].name)
  }

  predicate IsHeld(q: Queue, name: string) { exists w :: w in q.workers && Holds(q.workers[w]) && q.workers[w].name == name }

  /** The name a claim takes from incoming. */
  function Takes(q: Queue, step: Step): Option<string> {
    if !step.Try? || !WorkerOf(q, step.w).Walking? then None
    else
      var snapshot := WorkerOf(q, step.w).snapshot;
      if snapshot != [] && snapshot[0] in q.files.incoming then Some(snapshot[0]) else None
  }

  /** A claim takes no name that some worker holds. */
  predicate TakesUnheld(q: Queue, step: Step) { Takes(q, step).Some? ==> !IsHeld(q, Takes(q, step).value) }

  lemma ApplyKeepsHeld(q: Queue, step: Step)
    requires HeldInv(q) && Enabled(q, step) && TakesUnheld(q, step)
    ensures HeldInv(Apply(q, step))
  {
    hide Restored, IsOrder, RecoverPrefix, RecoveredName, BodyAt, OutgoingKeys, DroppedBy, OverwrittenBy, TakesUnheld, IsHeld;
    match step
    case Try(w) => TryKeepsHeld(q, w);
    case GiveBack(w, renamed) => GiveBackKeepsHeld(q, w, renamed);
    case Finish(w) => FinishKeepsHeld(q, w);
    case _ =>
  }

  lemma TryKeepsHeld(q: Queue, w: nat)
    requires HeldInv(q) && Enabled(q, Try(w)) && TakesUnheld(q, Try(w))
    ensures HeldInv(Apply(q, Try(w)))
  {
  }

  lemma GiveBackKeepsHeld(q: Queue, w: nat, renamed: string)
    requires HeldInv(q) && Enabled(q, GiveBack(w, renamed))
    ensures HeldInv(Apply(q, GiveBack(w, renamed)))
  {
  }

  lemma FinishKeepsHeld(q: Queue, w: nat)
    requires HeldInv(q) && Enabled(q, Finish(w))
    ensures HeldInv(Apply(q, Finish(w)))
  {
  }

  /** A claim of a held name gives the file two holders. */
  lemma HeldNameBreaks(q: Queue, step: Step)
    requires Enabled(q, step) && !TakesUnheld(q, step)
    ensures !HeldInv(Apply(q, step))
  {
    hide RecoverPrefix, IsOrder, DroppedBy, OverwrittenBy;
    var name := WorkerOf(q, step.w).snapshot[0];
    var v :| v in q.workers && Holds(q.workers[v]) && q.workers[v].name == name;
    var q' := Apply(q, step);
    assert q'.workers[v] == q.workers[v] && q'.workers[step.w].Holding? && v != step.w;
  }

  // ----- conservation -------------------------------------------------------------------

  predicate Injective(m: map<string, Body>) {
    forall a <- m, b <- m :: a != b ==> m[a] != m[b]
  }

  /** Every accepted message is in exactly one place: incoming, processing, completed,
      dead-lettered, dropped as a duplicate, or lost; and no two live files hold the same one. */
  predicate OnePlace(q: Queue) {
    && Injective(q.files.incoming) && Injective(q.files.processing)
    && q.files.incoming.Values !! q.files.processing.Values !! q.completed !! q.buried !! q.dropped !! q.lost
    && q.accepted == q.files.incoming.Values + q.files.processing.Values + q.completed + q.buried + q.dropped + q.lost
  }

  lemma ValuesRemove(m: map<string, Body>, name: string)
    requires Injective(m) && name in m
    ensures Injective(m - {name}) && (m - {name}).Values == m.Values - {m[name]} && m[name] in m.Values
  {
    var rest := m - {name};
    forall b | b in m.Values - {m[name]} ensures b in rest.Values {
      var a :| a in m && m[a] == b;
      assert a in rest && rest[a] == b;
    }
  }

  lemma ValuesReplace(m: map<string, Body>, name: string, b: Body)
    requires Injective(m) && name in m && b !in m.Values
    ensures Injective(m[name := b]) && m[name := b].Values == m.Values - {m[name]} + {b} && m[name] in m.Values
  {
    ValuesRemove(m, name);
    ValuesInsert(m - {name}, name, b);
    assert (m - {name})[name := b] == m[name := b];
  }

  lemma ValuesInsert(m: map<string, Body>, name: string, b: Body)
    requires Injective(m) && name !in m && b !in m.Values
    ensures Injective(m[name := b]) && m[name := b].Values == m.Values + {b}
  {
    var more := m[name := b];
    forall c | c in m.Values + {b} ensures c in more.Values {
      if c == b {
        assert more[name] == c;
      } else {
        var a :| a in m && m[a] == c;
        assert more[a] == c;
      }
    }
    forall a | a in m ensures m[a] != b { assert m[a] in m.Values; }
  }

  /** Writing a message under a name, which may be taken. */
  lemma ValuesPut(m: map<string, Body>, name: string, b: Body)
    requires Injective(m) && b !in m.Values
    ensures Injective(m[name := b]) && m[name := b].Values == m.Values - Under(m, name) + {b} && Under(m, name) <= m.Values
  {
    if name in m { ValuesReplace(m, name, b); } else { ValuesInsert(m, name, b); }
  }

  ghost function RestoredBodies(f: Files, order: seq<string>, n: nat): set<Body>
    requires IsOrder(order, f.processing) && n <= |order|
  {
    set i | 0 <= i < n && Restored(f, order, i) :: BodyAt(f, order, i)
  }

  lemma SameTurn(f: Files, order: seq<string>, i: nat, j: nat)
    requires IsOrder(order, f.processing) && i < |order| && j < |order| && Injective(f.processing)
    ensures BodyAt(f, order, i) == BodyAt(f, order, j) ==> i == j
  {
    assert order[i] in f.processing && order[j] in f.processing;
  }

  /** What is left in processing, and what was taken from it. */
  lemma RecoverySplits(hash: string -> string, f: Files, order: seq<string>, n: nat)
    requires IsOrder(order, f.processing) && n <= |order| && Injective(f.processing)
    ensures var r := RecoverPrefix(hash, f, order, n).files;
            && Injective(r.processing)
            && f.processing.Values == r.processing.Values + RestoredBodies(f, order, n) + DroppedBy(f, order, n)
            && r.processing.Values !! RestoredBodies(f, order, n) !! DroppedBy(f, order, n)
  {
    hide Restored, RecoverPrefix, RecoveredName, Writes;
    var r := RecoverPrefix(hash, f, order, n).files;
    RecoveryRestores(hash, f, order, n);
    forall b | b in f.processing.Values
      ensures b in r.processing.Values + RestoredBodies(f, order, n) + DroppedBy(f, order, n)
    {
      var name :| name in f.processing && f.processing[name] == b;
      var i :| 0 <= i < |order| && order[i] == name;
      assert BodyAt(f, order, i) == b;
      if i >= n {
        assert name !in order[..n];
        assert r.processing[name] == b;
      }
    }
    forall i | 0 <= i < n ensures BodyAt(f, order, i) !in r.processing.Values {
      assert order[..n][i] == order[i];
    }
    forall i, j | 0 <= i < n && 0 <= j < n && Restored(f, order, i) && !Restored(f, order, j)
      ensures BodyAt(f, order, i) != BodyAt(f, order, j)
    {
      SameTurn(f, order, i, j);
    }
  }

  /** Where a file of incoming comes from after `n` turns. */
  lemma Origin(hash: string -> string, f: Files, order: seq<string>, n: nat, name: string) returns (i: nat)
    requires IsOrder(order, f.processing) && n <= |order| && name in RecoverPrefix(hash, f, order, n).files.incoming
    ensures var b := RecoverPrefix(hash, f, order, n).files.incoming[name];
            if Writes(hash, f, order, n, name)
            then i < n && Restored(f, order, i) && name == RecoveredName(hash, i, order[i]) && b == BodyAt(f, order, i)
                 && b in f.processing.Values
            else name in f.incoming && b == f.incoming[name]
  {
    hide Restored, RecoverPrefix, RecoveredName;
    RecoveryRestores(hash, f, order, n);
    i := 0;
    if Writes(hash, f, order, n, name) {
      i :| 0 <= i < n && Restored(f, order, i) && name == RecoveredName(hash, i, order[i]);
      assert f.processing[order[i]] == BodyAt(f, order, i);
    }
  }

  lemma IncomingStaysInjective(hash: string -> string, f: Files, order: seq<string>, n: nat)
    requires IsOrder(order, f.processing) && n <= |order|
    requires Injective(f.incoming) && Injective(f.processing) && f.incoming.Values !! f.processing.Values
    ensures Injective(RecoverPrefix(hash, f, order, n).files.incoming)
  {
    hide Restored, RecoverPrefix, RecoveredName, Writes, BodyAt;
    var r := RecoverPrefix(hash, f, order, n).files;
    forall a, b | a in r.incoming && b in r.incoming && r.incoming[a] == r.incoming[b] ensures a == b {
      var i := Origin(hash, f, order, n, a);
      var j := Origin(hash, f, order, n, b);
      if Writes(hash, f, order, n, a) && Writes(hash, f, order, n, b) { SameTurn(f, order, i, j); }
      if !Writes(hash, f, order, n, a) { assert r.incoming[a] in f.incoming.Values; }
      if !Writes(hash, f, order, n, b) { assert r.incoming[b] in f.incoming.Values; }
    }
  }

  lemma RecoveryValues(hash: string -> string, f: Files, order: seq<string>, n: nat)
    requires IsOrder(order, f.processing) && n <= |order|
    requires Injective(f.incoming) && Injective(f.processing) && f.incoming.Values !! f.processing.Values
    ensures var r := RecoverPrefix(hash, f, order, n).files;
            && Injective(r.incoming)
            && r.incoming.Values == f.incoming.Values - OverwrittenBy(hash, f, order, n) + RestoredBodies(f, order, n)
            && OverwrittenBy(hash, f, order, n) <= f.incoming.Values
  {
    hide Restored, RecoverPrefix, RecoveredName, Writes, BodyAt;
    var r := RecoverPrefix(hash, f, order, n).files;
    RecoveryRestores(hash, f, order, n);
    IncomingStaysInjective(hash, f, order, n);
    forall b | b in f.incoming.Values - OverwrittenBy(hash, f, order, n) + RestoredBodies(f, order, n) ensures b in r.incoming.Values {
      if b in RestoredBodies(f, order, n) {
        var i :| 0 <= i < n && Restored(f, order, i) && b == BodyAt(f, order, i);
        assert r.incoming[RecoveredName(hash, i, order[i])] == b;
      } else {
        var name :| name in f.incoming && f.incoming[name] == b;
        assert r.incoming[name] == b;
      }
    }
    forall b | b in r.incoming.Values ensures b in f.incoming.Values - OverwrittenBy(hash, f, order, n) + RestoredBodies(f, order, n) {
      var name :| name in r.incoming && r.incoming[name] == b;
      var i := Origin(hash, f, order, n, name);
      if !Writes(hash, f, order, n, name) {
        assert b in f.incoming.Values;
        assert forall other :: other in f.incoming && f.incoming[other] == b ==> other == name;
      }
    }
  }

  lemma ClaimValues(q: Queue, name: string)
    requires OnePlace(q) && name in q.files.incoming
    ensures var f := Claim(q.files, name);
            var b := q.files.incoming[name];
            && Injective(f.incoming) && Injective(f.processing) && b in q.files.incoming.Values
            && f.incoming.Values == q.files.incoming.Values - {b}
            && f.processing.Values == q.files.processing.Values - Under(q.files.processing, name) + {b}
            && Under(q.files.processing, name) <= q.files.processing.Values
  {
    hide Injective;
    ValuesRemove(q.files.incoming, name);
    ValuesPut(q.files.processing, name, q.files.incoming[name]);
  }

  lemma RequeueValues(q: Queue, name: string, renamed: string)
    requires OnePlace(q) && name in q.files.processing
    ensures var f := Requeue(q.files, name, renamed);
            var b := q.files.processing[name];
            && Injective(f.incoming) && Injective(f.processing) && b in q.files.processing.Values
            && f.incoming.Values == q.files.incoming.Values - Under(q.files.incoming, renamed) + {b}
            && Under(q.files.incoming, renamed) <= q.files.incoming.Values
            && f.processing.Values == q.files.processing.Values - {b}
  {
    hide Injective;
    ValuesRemove(q.files.processing, name);
    ValuesPut(q.files.incoming, renamed, q.files.processing[name]);
  }

  lemma RecoverKeepsPlace(q: Queue, hash: string -> string, order: seq<string>, n: nat)
    requires OnePlace(q) && Enabled(q, RecoverSome(hash, order, n))
    ensures OnePlace(Apply(q, RecoverSome(hash, order, n)))
  {
    hide Injective, IsOrder, RecoverPrefix, DroppedBy, RestoredBodies, OverwrittenBy;
    RecoverySplits(hash, q.files, order, n);
    RecoveryValues(hash, q.files, order, n);
  }

  lemma NoValues()
    ensures var m: map<string, Body> := map[]; m.Values == {} && Injective(m)
  {
  }

  lemma AcceptKeepsPlace(q: Queue, name: string, body: Body)
    requires OnePlace(q) && Enabled(q, Accept(name, body))
    ensures OnePlace(Apply(q, Accept(name, body)))
  {
    hide Injective;
    ValuesPut(q.files.incoming, name, body);
  }

  lemma TryKeepsPlace(q: Queue, w: nat)
    requires OnePlace(q) && Enabled(q, Try(w))
    ensures OnePlace(Apply(q, Try(w)))
  {
    hide Injective;
    if Takes(q, Try(w)).Some? { ClaimValues(q, Takes(q, Try(w)).value); }
  }

  lemma GiveBackKeepsPlace(q: Queue, w: nat, renamed: string)
    requires OnePlace(q) && Enabled(q, GiveBack(w, renamed))
    ensures OnePlace(Apply(q, GiveBack(w, renamed)))
  {
    hide Injective;
    if WorkerOf(q, w).name in q.files.processing { RequeueValues(q, WorkerOf(q, w).name, renamed); }
  }

  lemma FinishKeepsPlace(q: Queue, w: nat)
    requires OnePlace(q) && Enabled(q, Finish(w))
    ensures OnePlace(Apply(q, Finish(w)))
  {
    hide Injective;
    if WorkerOf(q, w).name in q.files.processing { ValuesRemove(q.files.processing, WorkerOf(q, w).name); }
  }

  lemma ApplyKeepsPlace(q: Queue, step: Step)
    requires OnePlace(q) && Enabled(q, step)
    ensures OnePlace(Apply(q, step))
  {
    hide Injective, RecoverPrefix, IsOrder, RecoveredName, OutgoingKeys, DroppedBy, OverwrittenBy, TryNext, GiveBackFile, FinishFile;
    match step
    case Accept(name, body) => AcceptKeepsPlace(q, name, body);
    case Try(w) => TryKeepsPlace(q, w);
    case GiveBack(w, renamed) => GiveBackKeepsPlace(q, w, renamed);
    case Finish(w) => FinishKeepsPlace(q, w);
    case RecoverSome(hash, order, n) => RecoverKeepsPlace(q, hash, order, n);
    case _ =>
  }

  // ----- what became of each message ----------------------------------------------------

  ghost predicate HasKey(bodies: set<Body>, key: Key) { exists b :: b in bodies && b.key == Some(key) }

  /** A message with this key is in incoming, in processing or in failed, or was completed, or
      a reply with this key is in outgoing; or it is among the lost or the erased. */
  ghost predicate Accounted(q: Queue, key: Key) {
    || HasKey(q.files.incoming.Values, key) || HasKey(q.files.processing.Values, key)
    || HasKey(q.files.failed.Values, key) || HasKey(q.completed, key) || key in OutgoingKeys(q.files)
    || HasKey(q.lost, key) || HasKey(q.erased, key)
  }

  /** A dead letter for every message dead-lettered, in failed unless another's replaced it; a
      worker removing a buried file has written its own. */
  ghost predicate LetterInv(q: Queue) {
    && (forall b <- q.buried :: b in q.files.failed.Values + q.erased)
    && (forall w <- q.workers :: q.workers[w].Burying? ==> q.workers[w].body in q.files.failed.Values + q.erased)
  }

  /** Workers, letters and erasures concern accepted messages; only parsed ones have an outcome. */
  ghost predicate KnownInv(q: Queue) {
    && (forall w <- q.workers :: Holds(q.workers[w]) ==> q.workers[w].body in q.accepted)
    && (forall w <- q.workers :: q.workers[w].Replying? || q.workers[w].Burying? ==> q.workers[w].body.key.Some?)
    && q.files.failed.Values <= q.accepted && q.erased <= q.accepted
    && (forall b <- q.completed + q.buried + q.dropped :: b.key.Some?)
  }

  /** What recovery dropped is accounted for. */
  ghost predicate DroppedInv(q: Queue) {
    forall b <- q.dropped :: b.key.Some? && Accounted(q, b.key.value)
  }

  ghost predicate LossInv(q: Queue) { LetterInv(q) && KnownInv(q) && DroppedInv(q) }

  /** A dead letter keeps every other one, except the one under its name. */
  lemma LettersAfter(f: Files, name: string, body: Body)
    ensures var f' := WriteFailed(f, name, body);
            && body in f'.failed.Values
            && f'.failed.Values <= f.failed.Values + {body}
            && f.failed.Values <= f'.failed.Values + (Under(f.failed, name) - {body})
            && Under(f.failed, name) <= f.failed.Values
  {
    var more := f.failed[name := body];
    assert more[name] == body;
    forall b | b in f.failed.Values ensures b in more.Values + (Under(f.failed, name) - {body}) {
      var n :| n in f.failed && f.failed[n] == b;
      if n != name { assert more[n] == b; }
    }
  }

  lemma RepliesGrow(f: Files, name: string, r: Reply)
    requires name !in f.outgoing
    ensures OutgoingKeys(WriteReply(f, name, r)) == OutgoingKeys(f) + {ReplyKey(r)}
  {
    var f' := WriteReply(f, name, r);
    forall k | k in OutgoingKeys(f) + {ReplyKey(r)} ensures k in OutgoingKeys(f') {
      if k in OutgoingKeys(f) {
        var n :| n in f.outgoing && ReplyKey(f.outgoing[n]) == k;
        assert f'.outgoing[n] == f.outgoing[n];
      } else {
        assert f'.outgoing[name] == r;
      }
    }
  }

  lemma HasKeyOf(bodies: set<Body>, b: Body)
    requires b in bodies && b.key.Some?
    ensures HasKey(bodies, b.key.value)
  {
  }

  lemma HasKeyMoves(a: set<Body>, b: set<Body>, key: Key)
    requires a <= b && HasKey(a, key)
    ensures HasKey(b, key)
  {
  }

  lemma SameReplies(f: Files, f': Files)
    requires f.outgoing == f'.outgoing
    ensures OutgoingKeys(f) == OutgoingKeys(f')
  {
  }

  /** A duplicate without a reply follows the restored file of its key. */
  lemma RestoredEarlier(f: Files, order: seq<string>, i: nat, key: Key) returns (first: nat)
    requires IsOrder(order, f.processing) && i < |order| && BodyAt(f, order, i).key == Some(key) && key !in OutgoingKeys(f)
    ensures first <= i && BodyAt(f, order, first).key == Some(key) && Restored(f, order, first)
  {
    hide OutgoingKeys;
    first := FirstWithKey(f, order, key, i);
  }

  lemma RecoverAccounts(q: Queue, hash: string -> string, order: seq<string>, n: nat, key: Key)
    requires OnePlace(q) && Enabled(q, RecoverSome(hash, order, n))
    requires HasKey(q.files.processing.Values, key) || HasKey(q.files.incoming.Values, key)
    ensures Accounted(Apply(q, RecoverSome(hash, order, n)), key)
  {
    hide Injective, RecoverPrefix, Restored, OutgoingKeys, RecoveredName, Writes;
    var q' := Apply(q, RecoverSome(hash, order, n));
    RecoveryRestores(hash, q.files, order, n);
    assert OutgoingKeys(q'.files) == OutgoingKeys(q.files) by { SameReplies(q.files, q'.files); }
    RecoveryValues(hash, q.files, order, n);
    RecoverySplits(hash, q.files, order, n);
    var b :| b in q.files.processing.Values + q.files.incoming.Values && b.key == Some(key);
    if b in q'.files.processing.Values { HasKeyOf(q'.files.processing.Values, b); }
    else if b in q'.files.incoming.Values { HasKeyOf(q'.files.incoming.Values, b); }
    else if b in q'.lost { HasKeyOf(q'.lost, b); }
    else {
      var i :| 0 <= i < n && !Restored(q.files, order, i) && b == BodyAt(q.files, order, i);
      if key !in OutgoingKeys(q.files) {
        var first := RestoredEarlier(q.files, order, i, key);
        HasKeyOf(q'.files.incoming.Values, BodyAt(q.files, order, first));
      }
    }
  }

  /** Everything but recovery moves messages from place to place, and so keeps every key. */
  lemma MovesAccount(q: Queue, q': Queue, key: Key)
    requires Accounted(q, key) && OutgoingKeys(q'.files) >= OutgoingKeys(q.files) && LetterInv(q')
    requires q'.completed >= q.completed && q'.lost >= q.lost && q'.erased >= q.erased
    requires q.files.failed.Values <= q'.files.failed.Values + q'.erased
    requires forall b :: b in q.files.incoming.Values + q.files.processing.Values ==>
               b in q'.files.incoming.Values + q'.files.processing.Values + q'.lost + q'.completed + q'.buried
    ensures Accounted(q', key)
  {
    hide OutgoingKeys;
    if key !in OutgoingKeys(q.files) {
      var b :| b in q.files.incoming.Values + q.files.processing.Values + q.files.failed.Values + q.completed + q.lost + q.erased
               && b.key == Some(key);
      assert b in q'.files.incoming.Values + q'.files.processing.Values + q'.files.failed.Values + q'.completed + q'.lost + q'.erased;
    }
  }

  /** Where the live messages are after a step, recovery aside. */
  lemma LiveAfter(q: Queue, step: Step)
    requires OnePlace(q) && Enabled(q, step) && !step.RecoverSome?
    ensures var q' := Apply(q, step);
            && OutgoingKeys(q'.files) >= OutgoingKeys(q.files)
            && q'.completed >= q.completed && q'.lost >= q.lost && q'.erased >= q.erased
            && q.files.failed.Values <= q'.files.failed.Values + q'.erased
            && forall b :: b in q.files.incoming.Values + q.files.processing.Values ==>
                 b in q'.files.incoming.Values + q'.files.processing.Values + q'.lost + q'.completed + q'.buried
  {
    hide Injective, IsOrder, RecoverPrefix, OutgoingKeys, DroppedBy, OverwrittenBy;
    var q' := Apply(q, step);
    match step
    case Accept(name, body) =>
      ValuesPut(q.files.incoming, name, body);
      SameReplies(q.files, q'.files);
    case Try(w) =>
      SameReplies(q.files, q'.files);
      if Takes(q, step).Some? { ClaimValues(q, Takes(q, step).value); }
    case GiveBack(w, renamed) =>
      SameReplies(q.files, q'.files);
      if WorkerOf(q, w).name in q.files.processing { RequeueValues(q, WorkerOf(q, w).name, renamed); }
    case WriteOne(w, name) => RepliesGrow(q.files, name, WorkerOf(q, w).left[0]);
    case Finish(w) =>
      SameReplies(q.files, q'.files);
      if WorkerOf(q, w).name in q.files.processing { ValuesRemove(q.files.processing, WorkerOf(q, w).name); }
    case WriteDeadLetter(w, name) =>
      SameReplies(q.files, q'.files);
      LettersAfter(q.files, name, WorkerOf(q, w).body);
    case _ => SameReplies(q.files, q'.files);
  }

  lemma ApplyKeepsLetters(q: Queue, step: Step)
    requires OnePlace(q) && LossInv(q) && Enabled(q, step)
    ensures LetterInv(Apply(q, step))
  {
    hide Injective, IsOrder, RecoverPrefix, OutgoingKeys, DroppedInv, Restored, DroppedBy, OverwrittenBy;
    match step
    case WriteDeadLetter(w, name) => LettersAfter(q.files, name, WorkerOf(q, w).body);
    case RecoverSome(hash, order, n) => RecoveryRestores(hash, q.files, order, n);
    case _ =>
  }

  lemma ApplyKeepsKnown(q: Queue, step: Step)
    requires OnePlace(q) && LossInv(q) && Enabled(q, step)
    ensures KnownInv(Apply(q, step))
  {
    hide Injective, IsOrder, RecoverPrefix, OutgoingKeys, DroppedInv, DroppedBy, OverwrittenBy, LetterInv, TryNext;
    match step
    case Try(w) => TryKeepsKnown(q, w);
    case WriteDeadLetter(w, name) => LettersAfter(q.files, name, WorkerOf(q, w).body);
    case RecoverSome(hash, order, n) => RecoverKeepsKnown(q, hash, order, n);
    case _ =>
  }

  lemma TryKeepsKnown(q: Queue, w: nat)
    requires OnePlace(q) && KnownInv(q) && Enabled(q, Try(w))
    ensures KnownInv(Apply(q, Try(w)))
  {
    hide Injective;
    if Takes(q, Try(w)).Some? { assert q.files.incoming[Takes(q, Try(w)).value] in q.files.incoming.Values; }
  }

  lemma RecoverKeepsKnown(q: Queue, hash: string -> string, order: seq<string>, n: nat)
    requires KnownInv(q) && Enabled(q, RecoverSome(hash, order, n))
    ensures KnownInv(Apply(q, RecoverSome(hash, order, n)))
  {
    hide IsOrder, RecoverPrefix, DroppedBy, OverwrittenBy;
    RecoveryRestores(hash, q.files, order, n);
    DroppedParse(q.files, order, n);
  }

  /** Recovery drops no file that does not parse. */
  lemma DroppedParse(f: Files, order: seq<string>, n: nat)
    requires IsOrder(order, f.processing) && n <= |order|
    ensures forall b <- DroppedBy(f, order, n) :: b.key.Some? && b in f.processing.Values
  {
    hide OutgoingKeys;
    forall b | b in DroppedBy(f, order, n) ensures b.key.Some? && b in f.processing.Values {
      var i :| 0 <= i < n && !Restored(f, order, i) && b == BodyAt(f, order, i);
      assert order[i] in f.processing;
    }
  }

  lemma ApplyKeepsDropped(q: Queue, step: Step)
    requires OnePlace(q) && LossInv(q) && Enabled(q, step)
    ensures DroppedInv(Apply(q, step))
  {
    hide Injective, RecoverPrefix, OutgoingKeys, HasKey, Accounted, RecoveredName, OnePlace, LetterInv, KnownInv, DroppedBy, OverwrittenBy;
    var q' := Apply(q, step);
    forall b | b in q'.dropped ensures b.key.Some? && Accounted(q', b.key.value) {
      if b in q.dropped {
        AccountedGrows(q, step, b.key.value);
      } else {
        DroppedParse(q.files, step.order, step.n);
        HasKeyOf(q.files.processing.Values, b);
        RecoverAccounts(q, step.hash, step.order, step.n, b.key.value);
      }
    }
  }

  /** What is accounted for stays accounted for. */
  lemma AccountedGrows(q: Queue, step: Step, key: Key)
    requires OnePlace(q) && LossInv(q) && Enabled(q, step) && Accounted(q, key)
    ensures Accounted(Apply(q, step), key)
  {
    hide Injective, IsOrder, RecoverPrefix, OutgoingKeys, HasKey, Restored, DroppedBy, OverwrittenBy, OnePlace, LossInv, LetterInv;
    var q' := Apply(q, step);
    if step.RecoverSome? {
      RecoveryRestores(step.hash, q.files, step.order, step.n);
      SameReplies(q.files, q'.files);
      if HasKey(q.files.processing.Values, key) || HasKey(q.files.incoming.Values, key) { RecoverAccounts(q, step.hash, step.order, step.n, key); }
      if HasKey(q.lost, key) { HasKeyMoves(q.lost, q'.lost, key); }
    } else {
      hide Accounted, Apply;
      ApplyKeepsLetters(q, step);
      LiveAfter(q, step);
      MovesAccount(q, q', key);
    }
  }

  lemma ApplyKeepsLoss(q: Queue, step: Step)
    requires OnePlace(q) && LossInv(q) && Enabled(q, step)
    ensures LossInv(Apply(q, step))
  {
    hide Apply, OnePlace, LetterInv, KnownInv, DroppedInv;
    ApplyKeepsLetters(q, step);
    ApplyKeepsKnown(q, step);
    ApplyKeepsDropped(q, step);
  }

  /** An accepted message that does not parse is in incoming or processing, or lost; the key of
      one that parses is accounted for. */
  lemma NothingLost(q: Queue, b: Body)
    requires OnePlace(q) && LossInv(q) && b in q.accepted
    ensures b.key.None? ==> b in q.files.incoming.Values || b in q.files.processing.Values || b in q.lost
    ensures b.key.Some? ==> Accounted(q, b.key.value)
  {
    hide Injective, OutgoingKeys;
  }
}
