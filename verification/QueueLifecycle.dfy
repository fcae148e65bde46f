/** The queue operations as the repository writes them, on directories held as fields
    (src/queue/lifecycle.rs, src/runtime/recovery.rs). */
module QueueLifecycle {
  import opened Prelude
  import opened QueueNames
  import opened QueueFiles

  datatype ClaimResult = Claimed(name: string, body: Body) | NothingToClaim | Unparseable(renamed: string)

  /** Position of the first name of the snapshot that is still in incoming, or its length. */
  function FirstPresent(snapshot: seq<string>, incoming: map<string, Body>): (i: nat)
    ensures i <= |snapshot| && (i < |snapshot| ==> snapshot[i] in incoming)
    ensures forall j :: 0 <= j < i ==> snapshot[j] !in incoming
  {
    if snapshot == [] || snapshot[0] in incoming then 0 else 1 + FirstPresent(snapshot[1..], incoming)
  }

  /** The file claimed is the first of the snapshot still in incoming; one that does not parse goes back
      under a new name. */
  ghost predicate ClaimedTo(f: Files, snapshot: seq<string>, r: ClaimResult, f': Files) {
    && f'.outgoing == f.outgoing && f'.failed == f.failed
    && match r
       case NothingToClaim => f' == f && forall i :: 0 <= i < |snapshot| ==> snapshot[i] !in f.incoming
       case Claimed(name, body) =>
         && (exists i :: 0 <= i < |snapshot| && snapshot[i] == name && forall j :: 0 <= j < i ==> snapshot[j] !in f.incoming)
         && name in f.incoming && f.incoming[name] == body && body.key.Some?
         && f'.incoming == f.incoming - {name} && f'.processing == f.processing[name := body]
       case Unparseable(renamed) =>
         exists i :: && 0 <= i < |snapshot| && snapshot[i] in f.incoming && f.incoming[snapshot[i]].key.None?
                     && (forall j :: 0 <= j < i ==> snapshot[j] !in f.incoming)
                     && f'.incoming == (f.incoming - {snapshot[i]})[renamed := f.incoming[snapshot[i]]]
                     && f'.processing == f.processing - {snapshot[i]}
  }

  lemma ClaimMeans(f: Files, snapshot: seq<string>, r: ClaimResult, f': Files)
    requires var i := FirstPresent(snapshot, f.incoming);
             if i == |snapshot| then r.NothingToClaim? && f' == f
             else
               var body := f.incoming[snapshot[i]];
               if body.key.Some? then r == Claimed(snapshot[i], body) && f' == Claim(f, snapshot[i])
               else r.Unparseable? && f' == Requeue(Claim(f, snapshot[i]), snapshot[i], r.renamed)
    ensures ClaimedTo(f, snapshot, r, f')
  {
    var i := FirstPresent(snapshot, f.incoming);
    if r.Unparseable? {
      assert f'.processing == f.processing - {snapshot[i]};
    }
  }

  predicate AllPresent(r: Reply, outgoing: map<string, Reply>, start: nat, end: nat) {
    forall j :: start <= j < end ==> OutgoingName(r.channel, r.message_id, r.timestamp, j) in outgoing
  }

  /** The indices from `start` on whose name is taken. */
  ghost function TakenFrom(r: Reply, outgoing: map<string, Reply>, start: nat): set<string> {
    set name | name in outgoing && exists j :: j >= start && name == OutgoingName(r.channel, r.message_id, r.timestamp, j)
  }

  lemma TakenShrinks(r: Reply, outgoing: map<string, Reply>, i: nat)
    requires OutgoingName(r.channel, r.message_id, r.timestamp, i) in outgoing
    ensures TakenFrom(r, outgoing, i + 1) < TakenFrom(r, outgoing, i)
  {
    hide OutgoingName;
    var name := OutgoingName(r.channel, r.message_id, r.timestamp, i);
    assert name in TakenFrom(r, outgoing, i);
    if name in TakenFrom(r, outgoing, i + 1) {
      var j :| j >= i + 1 && name == OutgoingName(r.channel, r.message_id, r.timestamp, j);
      OutgoingNamesDiffer(r.channel, r.message_id, r.timestamp, i, j);
    }
  }

  /** Between `before` and `after`, exactly the replies were added, one file each, under new
      names; nothing was overwritten. */
  predicate Wrote(before: map<string, Reply>, after: map<string, Reply>, names: seq<string>, replies: seq<Reply>) {
    && |names| == |replies| && |after| == |before| + |names|
    && (forall n <- before :: n in after && after[n] == before[n])
    && (forall i :: 0 <= i < |names| ==> names[i] !in before && names[i] in after && after[names[i]] == replies[i])
    && (forall i, j :: 0 <= i < j < |names| ==> names[i] != names[j])
  }

  lemma WroteOneMore(before: map<string, Reply>, after: map<string, Reply>, names: seq<string>, replies: seq<Reply>, name: string, r: Reply)
    requires Wrote(before, after, names, replies) && name !in after
    ensures Wrote(before, after[name := r], names + [name], replies + [r])
  {
    assert forall i :: 0 <= i < |names| ==> names[i] in after;
  }

  lemma NothingWritten(outgoing: map<string, Reply>)
    ensures Wrote(outgoing, outgoing, [], [])
  {
  }

  class QueueDirectory {
    const hash: string -> string        // short SHA-256 of a name
    var incoming: map<string, Body>
    var processing: map<string, Body>
    var outgoing: map<string, Reply>
    var failed: map<string, Body>
    var counter: nat                    // REQUEUE_COUNTER

    constructor (hash: string -> string)
      ensures Contents() == Files(map[], map[], map[], map[]) && this.hash == hash
    {
      this.hash := hash;
      incoming, processing, outgoing, failed, counter := map[], map[], map[], map[], 0;
    }

    ghost function Contents(): Files
      reads this
    {
      Files(incoming, processing, outgoing, failed)
    }

    /** `requeue_processing_file`. The rename fails when the file is gone, and its name is used up
        all the same. */
    method RequeueProcessingFile(name: string) returns (ok: bool, renamed: string, attempt: u32)
      modifies this`incoming, this`processing, this`counter
      ensures attempt == NextAttempt(name)
      ensures renamed == RequeueName(hash, name, attempt, old(counter)) && RequeueAttempt(renamed) == attempt
      ensures counter == old(counter) + 1
      ensures ok <==> name in old(processing)
      ensures Contents() == if ok then Requeue(old(Contents()), name, renamed) else old(Contents())
      ensures RequeueAttempt(name) < U32_MAX ==> attempt == RequeueAttempt(name) + 1
      ensures ok ==> incoming == old(incoming)[renamed := old(processing)[name]] && processing == old(processing) - {name}
    {
      attempt := NextAttempt(name);
      renamed := RequeueName(hash, name, attempt, counter);
      RequeueNameDecodes(hash, name, attempt, counter);
      counter := counter + 1;
      ok := name in processing;
      if ok {
        incoming := incoming[renamed := processing[name]];
        processing := processing - {name};
      }
    }

    /** `claim_oldest`, on a listing of incoming that may be out of date. */
    method ClaimOldest(snapshot: seq<string>) returns (r: ClaimResult)
      modifies this`incoming, this`processing, this`counter
      ensures var i := FirstPresent(snapshot, old(incoming));
              if i == |snapshot| then r.NothingToClaim? && Contents() == old(Contents())
              else
                var body := old(incoming)[snapshot[i]];
                if body.key.Some? then r == Claimed(snapshot[i], body) && Contents() == Claim(old(Contents()), snapshot[i])
                else r.Unparseable? && Contents() == Requeue(Claim(old(Contents()), snapshot[i]), snapshot[i], r.renamed)
      ensures ClaimedTo(old(Contents()), snapshot, r, Contents())
    {
      hide ClaimedTo, FirstPresent, RequeueName, RequeueAttempt, NextAttempt;
      ghost var f := Contents();
      for k := 0 to |snapshot|
        invariant k <= FirstPresent(snapshot, incoming) && Contents() == old(Contents())
      {
        var name := snapshot[k];
        if name in incoming {
          var body := incoming[name];
          incoming, processing := incoming - {name}, processing[name := body];
          if body.key.None? {
            var _, renamed, _ := RequeueProcessingFile(name);
            r := Unparseable(renamed);
            ClaimMeans(f, snapshot, r, Contents());
            return;
          }
          r := Claimed(name, body);
          ClaimMeans(f, snapshot, r, Contents());
          return;
        }
      }
      r := NothingToClaim;
      ClaimMeans(f, snapshot, r, Contents());
    }

    /** `write_outgoing_message`: takes the first free index from `start` on. */
    method WriteOutgoing(r: Reply, start: nat) returns (name: string, ghost index: nat)
      modifies this`outgoing
      ensures index >= start && name == OutgoingName(r.channel, r.message_id, r.timestamp, index)
      ensures name !in old(outgoing) && AllPresent(r, old(outgoing), start, index)
      ensures Contents() == WriteReply(old(Contents()), name, r) && outgoing == old(outgoing)[name := r]
    {
      hide OutgoingName;
      var i := start;
      while true
        invariant i >= start && AllPresent(r, outgoing, start, i) && outgoing == old(outgoing)
        decreases TakenFrom(r, outgoing, i)
      {
        name := OutgoingName(r.channel, r.message_id, r.timestamp, i);
        if name !in outgoing {
          outgoing := outgoing[name := r];
          index := i;
          return;
        }
        TakenShrinks(r, outgoing, i);
        i := i + 1;
      }
    }

    /** `complete_success_many`: exactly one new outgoing file for each reply, none overwritten;
        only then is the message removed. An empty reply list is refused. */
    method CompleteSuccessMany(name: string, replies: seq<Reply>) returns (written: Option<seq<string>>, ghost names: seq<string>)
      modifies this`outgoing, this`processing
      ensures replies == [] ==> written == None && Contents() == old(Contents())
      ensures incoming == old(incoming) && failed == old(failed)
      ensures replies != [] ==> Wrote(old(outgoing), outgoing, names, replies) && (written.Some? ==> written.value == names)
      ensures replies != [] && name in old(processing) ==> written.Some? && processing == old(processing) - {name}
      ensures name !in old(processing) ==> written == None && processing == old(processing)
    {
      hide Wrote, OutgoingName;
      if replies == [] {
        return None, [];
      }
      var paths: seq<string> := [];
      NothingWritten(outgoing);
      for i := 0 to |replies|
        invariant Wrote(old(outgoing), outgoing, paths, replies[..i])
        invariant processing == old(processing)
      {
        ghost var before := outgoing;
        var path, _ := WriteOutgoing(replies[i], i);
        WroteOneMore(old(outgoing), before, paths, replies[..i], path, replies[i]);
        assert replies[..i + 1] == replies[..i] + [replies[i]];
        paths := paths + [path];
      }
      assert replies[..|replies|] == replies;
      names := paths;
      if name !in processing {
        return None, names;
      }
      processing := processing - {name};
      written := Some(paths);
    }

    method CompleteSuccessNoOutgoing(name: string) returns (ok: bool)
      modifies this`processing
      ensures ok <==> name in old(processing)
      ensures Contents() == RemoveProcessing(old(Contents()), name) && processing == old(processing) - {name}
    {
      ok := name in processing;
      processing := processing - {name};
    }

    /** `requeue_or_dead_letter_failure`, for a message read from the file of this name. The dead letter
        is written before the file is removed; both a rename and a removal fail when it is gone. */
    method RequeueOrDeadLetter(name: string, body: Body, message_id: string, limit: u32) returns (ok: bool, d: Disposition, path: string)
      modifies this`incoming, this`processing, this`failed, this`counter
      ensures d == Dispose(name, limit) && counter == old(counter) + 1
      ensures RequeueAttempt(name) < U32_MAX ==> d.attempt == RequeueAttempt(name) + 1
      ensures d.DeadLettered? <==> d.attempt >= limit
      ensures ok <==> name in old(processing)
      ensures d.Requeued? ==>
                path == RequeueName(hash, name, d.attempt, old(counter)) && RequeueAttempt(path) == d.attempt
                && Contents() == if ok then Requeue(old(Contents()), name, path) else old(Contents())
      ensures d.Requeued? && ok ==> incoming == old(incoming)[path := old(processing)[name]] && processing == old(processing) - {name}
      ensures d.DeadLettered? ==>
                path == DeadLetterName(hash, message_id, old(counter))
                && Contents() == RemoveProcessing(WriteFailed(old(Contents()), path, body), name)
                && failed == old(failed)[path := body] && processing == old(processing) - {name} && incoming == old(incoming)
    {
      DisposedByLimit(name, limit);
      var attempt := NextAttempt(name);
      if attempt >= Max1(limit) {
        path := DeadLetterName(hash, message_id, counter);
        counter := counter + 1;
        failed := failed[path := body];
        ok := name in processing;
        processing := processing - {name};
        return ok, DeadLettered(attempt), path;
      }
      var requeued, renamed, again := RequeueProcessingFile(name);
      return requeued, Requeued(again), renamed;
    }

    /** `recover_queue_processing_paths`, given the sorted listing of processing. */
    method RecoverProcessing(order: seq<string>) returns (recovered: seq<string>, dropped: seq<string>)
      requires IsOrder(order, processing)
      modifies this`incoming, this`processing
      ensures var r := Recover(hash, old(Contents()), order);
              Contents() == r.files && recovered == r.recovered && dropped == r.dropped
      ensures RecoveredTo(hash, old(Contents()), order, Contents(), recovered, dropped)
    {
      hide RecoveredName, IsOrder, OutgoingKeys, BodyAt, RecoveredTo;
      ghost var f := Contents();
      var replied := OutgoingKeysOf();
      var seen: set<Key> := {};
      recovered, dropped := [], [];
      for index := 0 to |order|
        invariant RecoverPrefix(hash, f, order, index) == Recovery(Contents(), seen, recovered, dropped)
      {
        var name := order[index];
        StillThere(hash, f, order, index);
        var body := processing[name];
        if body.key.Some? {
          var key := body.key.value;
          if key in replied || key in seen {
            processing := processing - {name};
            dropped := dropped + [name];
            continue;
          }
          seen := seen + {key};
        }
        var target := RecoveredName(hash, index, name);
        incoming := incoming[target := body];
        processing := processing - {name};
        recovered := recovered + [target];
      }
      RecoveryMeans(hash, f, order);
    }

    /** `collect_outgoing_message_keys`. */
    method OutgoingKeysOf() returns (keys: set<Key>)
      ensures keys == OutgoingKeys(Contents())
      ensures forall k: Key :: k in keys <==>
                exists name :: name in outgoing && outgoing[name].channel == k.0 && outgoing[name].message_id == k.1
    {
      keys := {};
      var names := outgoing.Keys;
      while names != {}
        invariant names <= outgoing.Keys
        invariant forall name <- outgoing :: name in names || ReplyKey(outgoing[name]) in keys
        invariant forall k <- keys :: exists name :: name in outgoing && ReplyKey(outgoing[name]) == k
        decreases names
      {
        var name :| name in names;
        keys := keys + {ReplyKey(outgoing[name])};
        names := names - {name};
      }
    }
  }

  lemma StillThere(hash: string -> string, f: Files, order: seq<string>, i: nat)
    requires IsOrder(order, f.processing) && i < |order|
    ensures var p := RecoverPrefix(hash, f, order, i).files.processing;
            order[i] in p && p[order[i]] == BodyAt(f, order, i)
  {
    hide RecoverPrefix;
    LeftInProcessing(hash, f, order, i, order[i]);
  }
}
