/** The queue's directories as values, the file operations on them, and crash recovery
    (src/queue/lifecycle.rs, src/runtime/recovery.rs). */
module QueueFiles {
  import opened Prelude
  import opened Positions
  import opened QueueNames

  /** Channel and message id. */
  type Key = (string, string)

  /** One message file. `id` tells contents apart; `key` is absent when the content does not parse. */
  datatype Body = Body(id: nat, key: Option<Key>)

  datatype Reply = Reply(channel: string, message_id: string, timestamp: int)

  function ReplyKey(r: Reply): Key { (r.channel, r.message_id) }

  datatype Files = Files(
    incoming: map<string, Body>,
    processing: map<string, Body>,
    outgoing: map<string, Reply>,
    failed: map<string, Body>)

  function OutgoingKeys(f: Files): (keys: set<Key>)
    ensures forall name <- f.outgoing :: ReplyKey(f.outgoing[name]) in keys
    ensures forall k <- keys :: exists name :: name in f.outgoing && ReplyKey(f.outgoing[name]) == k
  {
    set name | name in f.outgoing :: ReplyKey(f.outgoing[name])
  }

  // ----- single file operations ---------------------------------------------------------

  function Claim(f: Files, name: string): Files
    requires name in f.incoming
  {
    f.(incoming := f.incoming - {name}, processing := f.processing[name := f.incoming[name]])
  }

  function Requeue(f: Files, name: string, renamed: string): Files
    requires name in f.processing
  {
    f.(incoming := f.incoming[renamed := f.processing[name]], processing := f.processing - {name})
  }

  function WriteReply(f: Files, name: string, r: Reply): Files { f.(outgoing := f.outgoing[name := r]) }

  function WriteFailed(f: Files, name: string, body: Body): Files { f.(failed := f.failed[name := body]) }

  function RemoveProcessing(f: Files, name: string): Files { f.(processing := f.processing - {name}) }

  // ----- recovery -----------------------------------------------------------------------

  datatype Recovery = Recovery(files: Files, seen: set<Key>, recovered: seq<string>, dropped: seq<string>)

  predicate IsDuplicate(body: Body, replied: set<Key>, seen: set<Key>) {
    body.key.Some? && (body.key.value in replied || body.key.value in seen)
  }

  function RecoverOne(hash: string -> string, replied: set<Key>, r: Recovery, index: nat, name: string, body: Body): Recovery {
    if IsDuplicate(body, replied, r.seen) then
      r.(files := RemoveProcessing(r.files, name), dropped := r.dropped + [name])
    else
      var target := RecoveredName(hash, index, name);
      r.(files := r.files.(incoming := r.files.incoming[target := body], processing := r.files.processing - {name}),
         recovered := r.recovered + [target],
         seen := r.seen + (if body.key.Some? then {body.key.value} else {}))
  }

  /** The processing files in some order, each once. */
  predicate IsOrder(order: seq<string>, processing: map<string, Body>) {
    && (forall i, j :: 0 <= i < j < |order| ==> order[i] != order[j])
    && (forall i :: 0 <= i < |order| ==> order[i] in processing)
    && (forall name <- processing :: name in order)
  }

  function BodyAt(f: Files, order: seq<string>, i: nat): Body
    requires IsOrder(order, f.processing) && i < |order|
  {
    f.processing[order[i]]
  }

  /** Recovery after its first `n` turns. */
  function RecoverPrefix(hash: string -> string, f: Files, order: seq<string>, n: nat): Recovery
    requires IsOrder(order, f.processing) && n <= |order|
  {
    if n == 0 then Recovery(f, {}, [], [])
    else RecoverOne(hash, OutgoingKeys(f), RecoverPrefix(hash, f, order, n - 1), n - 1, order[n - 1], BodyAt(f, order, n - 1))
  }

  function Recover(hash: string -> string, f: Files, order: seq<string>): Recovery
    requires IsOrder(order, f.processing)
  {
    RecoverPrefix(hash, f, order, |order|)
  }

  // ----- what recovery does, file by file -----------------------------------------------

  /** The file goes back to incoming: it does not parse, or its key has neither a reply nor an
      earlier processing file. */
  predicate Restored(f: Files, order: seq<string>, i: nat)
    requires IsOrder(order, f.processing) && i < |order|
  {
    var key := BodyAt(f, order, i).key;
    key.None?
    || (key.value !in OutgoingKeys(f) && forall j :: 0 <= j < i ==> BodyAt(f, order, j).key != key)
  }

  /** One of the first `n` turns writes this name into incoming. */
  predicate Writes(hash: string -> string, f: Files, order: seq<string>, n: nat, name: string)
    requires IsOrder(order, f.processing) && n <= |order|
  {
    exists i :: 0 <= i < n && Restored(f, order, i) && name == RecoveredName(hash, i, order[i])
  }

  /** Only the files whose turn is still to come are left in processing. */
  lemma {:induction false} LeftInProcessing(hash: string -> string, f: Files, order: seq<string>, n: nat, name: string)
    requires IsOrder(order, f.processing) && n <= |order|
    ensures var r := RecoverPrefix(hash, f, order, n).files;
            && (name in r.processing <==> name in f.processing && forall j :: 0 <= j < n ==> order[j] != name)
            && (name in r.processing ==> r.processing[name] == f.processing[name])
            && r.outgoing == f.outgoing && r.failed == f.failed
  {
    hide RecoveredName, OutgoingKeys, IsOrder, BodyAt, IsDuplicate;
    if n > 0 { LeftInProcessing(hash, f, order, n - 1, name); }
  }

  /** One turn of recovery. */
  lemma NextTurn(hash: string -> string, f: Files, order: seq<string>, n: nat)
    requires IsOrder(order, f.processing) && n < |order|
    ensures var prior := RecoverPrefix(hash, f, order, n);
            var next := RecoverPrefix(hash, f, order, n + 1);
            var body := BodyAt(f, order, n);
            if IsDuplicate(body, OutgoingKeys(f), prior.seen)
            then next.seen == prior.seen && next.files.incoming == prior.files.incoming
            else next.seen == prior.seen + (if body.key.Some? then {body.key.value} else {})
                 && next.files.incoming == prior.files.incoming[RecoveredName(hash, n, order[n]) := body]
  {
    hide RecoveredName, OutgoingKeys, IsOrder, BodyAt, IsDuplicate;
  }

  lemma {:induction false} SeenKeys(hash: string -> string, f: Files, order: seq<string>, n: nat, key: Key)
    requires IsOrder(order, f.processing) && n <= |order| && key !in OutgoingKeys(f)
    ensures key in RecoverPrefix(hash, f, order, n).seen <==> exists j :: 0 <= j < n && BodyAt(f, order, j).key == Some(key)
  {
    hide RecoveredName, OutgoingKeys, IsOrder, BodyAt, RecoverOne;
    if n > 0 {
      SeenKeys(hash, f, order, n - 1, key);
      NextTurn(hash, f, order, n - 1);
      assert BodyAt(f, order, n - 1).key == Some(key) ==> key in RecoverPrefix(hash, f, order, n).seen;
    }
  }

  /** After `n` turns, incoming holds the restored files under their new names, and everything
      else it held. */
  lemma {:induction false} RestoredFiles(hash: string -> string, f: Files, order: seq<string>, n: nat, name: string)
    requires IsOrder(order, f.processing) && n <= |order|
    ensures var r := RecoverPrefix(hash, f, order, n).files;
            && (name in r.incoming <==> name in f.incoming || Writes(hash, f, order, n, name))
            && (forall i :: 0 <= i < n && Restored(f, order, i) && name == RecoveredName(hash, i, order[i]) ==>
                  name in r.incoming && r.incoming[name] == BodyAt(f, order, i))
            && (name in f.incoming && !Writes(hash, f, order, n, name) ==> r.incoming[name] == f.incoming[name])
  {
    hide RecoveredName, OutgoingKeys, Restored, IsOrder, BodyAt, RecoverOne, IsDuplicate;
    if n > 0 {
      RestoredFiles(hash, f, order, n - 1, name);
      NextTurn(hash, f, order, n - 1);
      DuplicateIsNotRestored(hash, f, order, n - 1);
      var target := RecoveredName(hash, n - 1, order[n - 1]);
      if name == target {
        forall i | 0 <= i < n && RecoveredName(hash, i, order[i]) == target ensures i == n - 1 {
          RecoveredNamesDiffer(hash, i, order[i], n - 1, order[n - 1]);
        }
      }
    }
  }

  lemma DuplicateIsNotRestored(hash: string -> string, f: Files, order: seq<string>, i: nat)
    requires IsOrder(order, f.processing) && i < |order|
    ensures IsDuplicate(BodyAt(f, order, i), OutgoingKeys(f), RecoverPrefix(hash, f, order, i).seen) <==> !Restored(f, order, i)
  {
    hide RecoveredName, OutgoingKeys, RecoverPrefix;
    var key := BodyAt(f, order, i).key;
    if key.Some? && key.value !in OutgoingKeys(f) {
      SeenKeys(hash, f, order, i, key.value);
    }
  }

  /** What the first `n` turns of recovery do to every directory. */
  lemma RecoveryRestores(hash: string -> string, f: Files, order: seq<string>, n: nat)
    requires IsOrder(order, f.processing) && n <= |order|
    ensures var r := RecoverPrefix(hash, f, order, n).files;
            && r.outgoing == f.outgoing && r.failed == f.failed
            && (forall name :: name in r.processing <==> name in f.processing && name !in order[..n])
            && (forall name <- r.processing :: r.processing[name] == f.processing[name])
            && (n == |order| ==> r.processing == map[])
            && (forall name :: name in r.incoming <==> name in f.incoming || Writes(hash, f, order, n, name))
            && (forall name <- f.incoming :: !Writes(hash, f, order, n, name) ==> r.incoming[name] == f.incoming[name])
            && (forall i :: 0 <= i < n && Restored(f, order, i) ==>
                  RecoveredName(hash, i, order[i]) in r.incoming
                  && r.incoming[RecoveredName(hash, i, order[i])] == BodyAt(f, order, i))
  {
    hide RecoveredName, OutgoingKeys, Restored, RecoverPrefix;
    var r := RecoverPrefix(hash, f, order, n).files;
    LeftInProcessing(hash, f, order, n, "");
    forall name ensures name in r.processing <==> name in f.processing && name !in order[..n] {
      LeftInProcessing(hash, f, order, n, name);
      assert forall j :: 0 <= j < n ==> order[..n][j] == order[j];
    }
    forall name | name in r.processing ensures r.processing[name] == f.processing[name] { LeftInProcessing(hash, f, order, n, name); }
    assert order[..|order|] == order;
    forall name
      ensures name in r.incoming <==> name in f.incoming || Writes(hash, f, order, n, name)
      ensures name in f.incoming && !Writes(hash, f, order, n, name) ==> r.incoming[name] == f.incoming[name]
    {
      RestoredFiles(hash, f, order, n, name);
    }
    forall i | 0 <= i < n && Restored(f, order, i)
      ensures RecoveredName(hash, i, order[i]) in r.incoming && r.incoming[RecoveredName(hash, i, order[i])] == BodyAt(f, order, i)
    {
      RestoredFiles(hash, f, order, n, RecoveredName(hash, i, order[i]));
    }
  }

  /** The first `n` turns keep everything in incoming if and only if no restored file goes to a
      name that another message already has there. */
  lemma RecoverySparesIff(hash: string -> string, f: Files, order: seq<string>, n: nat)
    requires IsOrder(order, f.processing) && n <= |order|
    ensures var r := RecoverPrefix(hash, f, order, n).files;
            (forall name <- f.incoming :: name in r.incoming && r.incoming[name] == f.incoming[name]) <==>
            (forall i :: 0 <= i < n && Restored(f, order, i) && RecoveredName(hash, i, order[i]) in f.incoming ==>
               f.incoming[RecoveredName(hash, i, order[i])] == BodyAt(f, order, i))
  {
    hide RecoveredName, OutgoingKeys, Restored, RecoverPrefix, IsOrder, BodyAt;
    RecoveryRestores(hash, f, order, n);
  }

  /** Each key found in processing without a reply is restored exactly once: its first file. */
  lemma EachKeyRestoredOnce(f: Files, order: seq<string>, key: Key)
    requires IsOrder(order, f.processing)
    ensures key in OutgoingKeys(f) ==>
              forall i :: 0 <= i < |order| && BodyAt(f, order, i).key == Some(key) ==> !Restored(f, order, i)
    ensures key !in OutgoingKeys(f) && (exists name :: name in f.processing && f.processing[name].key == Some(key)) ==>
              exists i :: 0 <= i < |order| && BodyAt(f, order, i).key == Some(key) && Restored(f, order, i)
                && forall j :: 0 <= j < |order| && BodyAt(f, order, j).key == Some(key) && Restored(f, order, j) ==> j == i
  {
    hide OutgoingKeys;
    if key !in OutgoingKeys(f) && exists name :: name in f.processing && f.processing[name].key == Some(key) {
      var name :| name in f.processing && f.processing[name].key == Some(key);
      var p :| 0 <= p < |order| && order[p] == name;
      var i := FirstWithKey(f, order, key, p);
      assert Restored(f, order, i);
      forall j | 0 <= j < |order| && BodyAt(f, order, j).key == Some(key) && Restored(f, order, j) ensures j == i {
      }
    }
  }

  lemma FirstWithKey(f: Files, order: seq<string>, key: Key, p: nat) returns (i: nat)
    requires IsOrder(order, f.processing) && p < |order| && BodyAt(f, order, p).key == Some(key)
    ensures i <= p && BodyAt(f, order, i).key == Some(key)
    ensures forall j :: 0 <= j < i ==> BodyAt(f, order, j).key != Some(key)
  {
    i := 0;
    while BodyAt(f, order, i).key != Some(key)
      invariant i <= p && forall j :: 0 <= j < i ==> BodyAt(f, order, j).key != Some(key)
      decreases p - i
    {
      i := i + 1;
    }
  }

  // ----- recovery by the files' own keys ------------------------------------------------

  /** The file at `i` carries a key that a reply has, or an earlier file in processing. */
  predicate Repeats(f: Files, order: seq<string>, i: nat)
    requires IsOrder(order, f.processing) && i < |order|
  {
    var key := f.processing[order[i]].key;
    && key.Some?
    && (|| (exists name <- f.outgoing :: f.outgoing[name].channel == key.value.0 && f.outgoing[name].message_id == key.value.1)
        || exists j :: 0 <= j < i && f.processing[order[j]].key == key)
  }

  function Targets(hash: string -> string, order: seq<string>): seq<string> {
    seq(|order|, i requires 0 <= i < |order| => RecoveredName(hash, i, order[i]))
  }

  function Repeated(f: Files, order: seq<string>, n: nat): set<nat>
    requires IsOrder(order, f.processing) && n <= |order|
  {
    set i | 0 <= i < n && Repeats(f, order, i)
  }

  function Returning(f: Files, order: seq<string>, n: nat): set<nat>
    requires IsOrder(order, f.processing) && n <= |order|
  {
    set i | 0 <= i < n && !Repeats(f, order, i)
  }

  /** A whole recovery: files whose key repeats go, all others come back into incoming under their new
      names, and nothing else changes. */
  ghost predicate RecoveredTo(hash: string -> string, f: Files, order: seq<string>, r: Files, recovered: seq<string>, dropped: seq<string>)
    requires IsOrder(order, f.processing)
  {
    && Selects(order, Repeated(f, order, |order|), dropped) && Selects(Targets(hash, order), Returning(f, order, |order|), recovered)
    && r.processing == map[] && r.outgoing == f.outgoing && r.failed == f.failed
    && r.incoming.Keys == f.incoming.Keys + (set name | name in recovered)
    && (forall name <- f.incoming :: name !in recovered ==> r.incoming[name] == f.incoming[name])
    && (forall i :: 0 <= i < |order| && !Repeats(f, order, i) ==>
          RecoveredName(hash, i, order[i]) in r.incoming && r.incoming[RecoveredName(hash, i, order[i])] == f.processing[order[i]])
  }

  lemma RepeatsIff(f: Files, order: seq<string>, i: nat)
    requires IsOrder(order, f.processing) && i < |order|
    ensures Restored(f, order, i) <==> !Repeats(f, order, i)
  {
    hide OutgoingKeys;
    var key := f.processing[order[i]].key;
    if key.Some? && key.value in OutgoingKeys(f) {
      var name :| name in f.outgoing && ReplyKey(f.outgoing[name]) == key.value;
    }
    if name :| key.Some? && name in f.outgoing && f.outgoing[name].channel == key.value.0 && f.outgoing[name].message_id == key.value.1 {
      assert ReplyKey(f.outgoing[name]) == key.value;
    }
    forall j | 0 <= j < i ensures BodyAt(f, order, j) == f.processing[order[j]] { }
  }

  lemma {:induction false} ListsOf(hash: string -> string, f: Files, order: seq<string>, n: nat)
    requires IsOrder(order, f.processing) && n <= |order|
    ensures var r := RecoverPrefix(hash, f, order, n);
            && Selects(order[..n], Repeated(f, order, n), r.dropped)
            && Selects(Targets(hash, order[..n]), Returning(f, order, n), r.recovered)
  {
    hide RecoveredName, OutgoingKeys, IsOrder, BodyAt, IsDuplicate, Selects, Repeats, Restored;
    if n == 0 {
      NoPositions(order[..0]);
      NoPositions(Targets(hash, order[..0]));
      assert Repeated(f, order, n) == {} == Returning(f, order, n);
    } else {
      ListsOf(hash, f, order, n - 1);
      var r := RecoverPrefix(hash, f, order, n - 1);
      var gone := Repeated(f, order, n - 1);
      var kept := Returning(f, order, n - 1);
      var target := RecoveredName(hash, n - 1, order[n - 1]);
      assert order[..n] == order[..n - 1] + [order[n - 1]];
      assert Targets(hash, order[..n]) == Targets(hash, order[..n - 1]) + [target];
      SelectsNext(order[..n - 1], order[n - 1], gone, r.dropped);
      SelectsNext(Targets(hash, order[..n - 1]), target, kept, r.recovered);
      DuplicateIsNotRestored(hash, f, order, n - 1);
      RepeatsIff(f, order, n - 1);
      assert Repeated(f, order, n) == if Repeats(f, order, n - 1) then gone + {n - 1} else gone;
      assert Returning(f, order, n) == if Repeats(f, order, n - 1) then kept else kept + {n - 1};
    }
  }

  lemma RecoveryMeans(hash: string -> string, f: Files, order: seq<string>)
    requires IsOrder(order, f.processing)
    ensures var r := Recover(hash, f, order); RecoveredTo(hash, f, order, r.files, r.recovered, r.dropped)
  {
    hide RecoveredName, OutgoingKeys, Restored, RecoverPrefix, IsOrder, BodyAt, Repeats;
    var r := Recover(hash, f, order);
    ListsOf(hash, f, order, |order|);
    assert order[..|order|] == order;
    RecoveryRestores(hash, f, order, |order|);
    forall i | 0 <= i < |order| ensures Restored(f, order, i) <==> !Repeats(f, order, i) { RepeatsIff(f, order, i); }
    forall name ensures name in r.recovered <==> Writes(hash, f, order, |order|, name) {
      SelectedNames(Targets(hash, order), Returning(f, order, |order|), r.recovered, name);
      if i :| 0 <= i < |order| && Restored(f, order, i) && name == RecoveredName(hash, i, order[i]) {
        assert i in Returning(f, order, |order|) && Targets(hash, order)[i] == name;
      }
    }
    forall i | 0 <= i < |order| ensures order[i] in f.processing && BodyAt(f, order, i) == f.processing[order[i]] {
      BodyIs(f, order, i);
    }
  }

  lemma BodyIs(f: Files, order: seq<string>, i: nat)
    requires IsOrder(order, f.processing) && i < |order|
    ensures order[i] in f.processing && BodyAt(f, order, i) == f.processing[order[i]]
  {
  }

  lemma SelectedNames(items: seq<string>, wanted: set<nat>, values: seq<string>, name: string)
    requires Selects(items, wanted, values) && forall p <- wanted :: p < |items|
    ensures name in values <==> exists p :: p in wanted && items[p] == name
  {
    var at: seq<nat> :| ItemsAt(items, at, values) && Members(at) == wanted;
    if name in values {
      var i :| 0 <= i < |values| && values[i] == name;
      assert at[i] in Members(at);
    }
    if p :| p in wanted && items[p] == name {
      assert p in at;
      var i :| 0 <= i < |at| && at[i] == p;
      assert values[i] == name;
    }
  }
}
