/** The per-key scheduler (src/queue/scheduler.rs): first in, first out for each key, and at
    most one value of a key at work at a time. */
module KeyScheduler {
  import opened Prelude
  import opened Positions

  datatype Scheduled<K, T> = Scheduled(key: K, value: T)

  // ----- what one dequeue hands out -----------------------------------------------------

  /** Item `i` is the first of its key, and its key is not active. */
  predicate Runnable<K(==), T>(items: seq<Scheduled<K, T>>, active: set<K>, i: nat)
    requires i < |items|
  {
    items[i].key !in active && forall j :: 0 <= j < i ==> items[j].key != items[i].key
  }

  function RunnableCount<K(==), T>(items: seq<Scheduled<K, T>>, active: set<K>, m: nat): nat
    requires m <= |items|
  {
    if m == 0 then 0 else RunnableCount(items, active, m - 1) + (if Runnable(items, active, m - 1) then 1 else 0)
  }

  /** Item `i` is one of the first `n` runnable items. */
  predicate Chosen<K(==), T>(items: seq<Scheduled<K, T>>, active: set<K>, n: nat, i: nat)
    requires i < |items|
  {
    Runnable(items, active, i) && RunnableCount(items, active, i) < n
  }

  function Picked<K(==), T>(items: seq<Scheduled<K, T>>, active: set<K>, n: nat, m: nat): seq<Scheduled<K, T>>
    requires m <= |items|
  {
    if m == 0 then []
    else Picked(items, active, n, m - 1) + (if Chosen(items, active, n, m - 1) then [items[m - 1]] else [])
  }

  function Rest<K(==), T>(items: seq<Scheduled<K, T>>, active: set<K>, n: nat, m: nat): seq<Scheduled<K, T>>
    requires m <= |items|
  {
    if m == 0 then []
    else Rest(items, active, n, m - 1) + (if Chosen(items, active, n, m - 1) then [] else [items[m - 1]])
  }

  function Keys<K(==), T>(items: seq<Scheduled<K, T>>): (ks: set<K>)
    ensures forall i :: 0 <= i < |items| ==> items[i].key in ks
    ensures forall k <- ks :: exists i :: 0 <= i < |items| && items[i].key == k
  {
    set i | 0 <= i < |items| :: items[i].key
  }

  predicate DistinctKeys<K(==), T>(items: seq<Scheduled<K, T>>) {
    forall i, j :: 0 <= i < j < |items| ==> items[i].key != items[j].key
  }

  predicate Avoids<K(==), T>(items: seq<Scheduled<K, T>>, keys: set<K>) {
    forall i :: 0 <= i < |items| ==> items[i].key !in keys
  }

  lemma {:induction false} CountGrows<K, T>(items: seq<Scheduled<K, T>>, active: set<K>, a: nat, b: nat)
    requires a <= b <= |items|
    ensures RunnableCount(items, active, a) <= RunnableCount(items, active, b)
  {
    if a < b { CountGrows(items, active, a, b - 1); }
  }

  /** Fewer than `n` values come out only when nothing else is runnable. */
  lemma {:induction false} PickedLength<K, T>(items: seq<Scheduled<K, T>>, active: set<K>, n: nat, m: nat)
    requires m <= |items|
    ensures |Picked(items, active, n, m)| == Min(n, RunnableCount(items, active, m))
  {
    if m > 0 { PickedLength(items, active, n, m - 1); }
  }

  lemma {:induction false} PickedContains<K, T>(items: seq<Scheduled<K, T>>, active: set<K>, n: nat, m: nat, i: nat)
    requires i < m <= |items| && Chosen(items, active, n, i)
    ensures items[i].key in Keys(Picked(items, active, n, m))
  {
    var picked := Picked(items, active, n, m);
    if i == m - 1 {
      assert picked[|picked| - 1].key == items[i].key;
    } else {
      PickedContains(items, active, n, m - 1, i);
      var shorter := Picked(items, active, n, m - 1);
      var j :| 0 <= j < |shorter| && shorter[j].key == items[i].key;
      assert picked[j].key == items[i].key;
    }
  }

  /** Everything handed out is one of the first `n` runnable items. */
  lemma {:induction false} PickedAreChosen<K, T>(items: seq<Scheduled<K, T>>, active: set<K>, n: nat, m: nat, p: nat)
    requires m <= |items| && p < |Picked(items, active, n, m)|
    ensures exists i :: 0 <= i < m && Chosen(items, active, n, i) && items[i] == Picked(items, active, n, m)[p]
  {
    if p < |Picked(items, active, n, m - 1)| {
      PickedAreChosen(items, active, n, m - 1, p);
    } else {
      assert items[m - 1] == Picked(items, active, n, m)[p];
    }
  }

  /** The loop's own test for "not busy and room left" is the definition of a chosen item. */
  lemma BusyTestIsChosen<K, T>(items: seq<Scheduled<K, T>>, active: set<K>, n: nat, m: nat)
    requires m < |items|
    ensures (items[m].key !in active + Keys(Picked(items, active, n, m)) && |Picked(items, active, n, m)| < n)
         <==> Chosen(items, active, n, m)
  {
    var picked := Picked(items, active, n, m);
    var key := items[m].key;
    PickedLength(items, active, n, m);
    if Chosen(items, active, n, m) {
      if key in Keys(picked) {
        var p :| 0 <= p < |picked| && picked[p].key == key;
        PickedAreChosen(items, active, n, m, p);
        assert false;
      }
    } else if key !in active && !Runnable(items, active, m) {
      var f := FirstOfKey(items, m);
      if RunnableCount(items, active, f) < n {
        PickedContains(items, active, n, m, f);
      } else {
        CountGrows(items, active, f, m);
      }
    }
  }

  lemma {:induction false} FirstOfKey<K, T>(items: seq<Scheduled<K, T>>, m: nat) returns (f: nat)
    requires m < |items|
    ensures f <= m && items[f].key == items[m].key && forall j :: 0 <= j < f ==> items[j].key != items[m].key
  {
    f := 0;
    while items[f].key != items[m].key
      invariant f <= m && forall j :: 0 <= j < f ==> items[j].key != items[m].key
      decreases m - f
    {
      f := f + 1;
    }
  }

  /** No key is handed out twice in one batch, nor while it is active. */
  lemma {:induction false} PickedKeysDistinct<K, T>(items: seq<Scheduled<K, T>>, active: set<K>, n: nat, m: nat)
    requires m <= |items|
    ensures DistinctKeys(Picked(items, active, n, m)) && Avoids(Picked(items, active, n, m), active)
  {
    if m > 0 {
      PickedKeysDistinct(items, active, n, m - 1);
      BusyTestIsChosen(items, active, n, m - 1);
    }
  }

  // ----- a batch by its positions -------------------------------------------------------

  /** The positions are the first `n` at which an item is the first of its key and its key is not
      active. */
  ghost predicate FirstRunnable<K, T>(items: seq<Scheduled<K, T>>, active: set<K>, n: nat, at: seq<nat>) {
    && |at| <= n
    && (forall i :: 0 <= i < |at| ==>
          at[i] < |items| && items[at[i]].key !in active && forall j :: 0 <= j < at[i] ==> items[j].key != items[at[i]].key)
    && (forall p :: 0 <= p < |items| && p !in at && items[p].key !in active ==>
          || (exists j :: 0 <= j < p && items[j].key == items[p].key)
          || (|at| == n && forall i :: 0 <= i < |at| ==> at[i] < p))
  }

  /** `out` is the batch, in the order of the items, and `stay` all other items, in their order. */
  ghost predicate Batch<K, T>(items: seq<Scheduled<K, T>>, active: set<K>, n: nat,
                              out: seq<Scheduled<K, T>>, stay: seq<Scheduled<K, T>>) {
    exists at: seq<nat> ::
      && FirstRunnable(items, active, n, at) && ItemsAt(items, at, out)
      && Selects(items, (set p: nat | p < |items| && p !in at), stay)
  }

  function PickedAt<K(==), T>(items: seq<Scheduled<K, T>>, active: set<K>, n: nat, m: nat, chosen: bool): seq<nat>
    requires m <= |items|
  {
    if m == 0 then []
    else PickedAt(items, active, n, m - 1, chosen) + (if Chosen(items, active, n, m - 1) == chosen then [m - 1] else [])
  }

  lemma {:induction false} PositionsAre<K, T>(items: seq<Scheduled<K, T>>, active: set<K>, n: nat, m: nat, chosen: bool)
    requires m <= |items|
    ensures forall p :: p in PickedAt(items, active, n, m, chosen) <==> 0 <= p < m && Chosen(items, active, n, p) == chosen
  {
    hide Chosen;
    if m > 0 { PositionsAre(items, active, n, m - 1, chosen); }
  }

  lemma {:induction false} PositionsGive<K, T>(items: seq<Scheduled<K, T>>, active: set<K>, n: nat, m: nat, chosen: bool)
    requires m <= |items|
    ensures ItemsAt(items, PickedAt(items, active, n, m, chosen),
                    if chosen then Picked(items, active, n, m) else Rest(items, active, n, m))
  {
    hide Chosen, ItemsAt, Members;
    if m == 0 {
      assert ItemsAt(items, [], []) by { NoPositions(items); }
    } else {
      PositionsGive(items, active, n, m - 1, chosen);
      PositionsAre(items, active, n, m - 1, chosen);
      var at := PickedAt(items, active, n, m - 1, chosen);
      var values := if chosen then Picked(items, active, n, m - 1) else Rest(items, active, n, m - 1);
      if Chosen(items, active, n, m - 1) == chosen {
        AppendPosition(items, at, values, m - 1);
      } else {
        assert at + [] == at && values + [] == values;
      }
    }
  }

  /** What `Picked` and `Rest` compute is the batch. */
  lemma PickedIsBatch<K, T>(items: seq<Scheduled<K, T>>, active: set<K>, n: nat)
    ensures Batch(items, active, n, Picked(items, active, n, |items|), Rest(items, active, n, |items|))
  {
    hide Picked, Rest, PickedAt, ItemsAt, FirstRunnable;
    var at, rest := PickedAt(items, active, n, |items|, true), PickedAt(items, active, n, |items|, false);
    PositionsAre(items, active, n, |items|, true);
    PositionsAre(items, active, n, |items|, false);
    PositionsGive(items, active, n, |items|, true);
    PositionsGive(items, active, n, |items|, false);
    assert Members(rest) == (set p: nat | p < |items| && p !in at);
    PositionsAreFirst(items, active, n);
  }

  lemma PositionsAreFirst<K, T>(items: seq<Scheduled<K, T>>, active: set<K>, n: nat)
    ensures FirstRunnable(items, active, n, PickedAt(items, active, n, |items|, true))
  {
    hide Picked, Rest, PickedAt, RunnableCount, Increasing;
    var m, at := |items|, PickedAt(items, active, n, |items|, true);
    PositionsAre(items, active, n, m, true);
    PositionsGive(items, active, n, m, true);
    PickedLength(items, active, n, m);
    forall i | 0 <= i < |at| ensures at[i] < m && Chosen(items, active, n, at[i]) { assert at[i] in at; }
    forall p | 0 <= p < m && p !in at && Runnable(items, active, p) ensures |at| == n && forall i :: 0 <= i < |at| ==> at[i] < p {
      CountGrows(items, active, p, m);
      forall i | 0 <= i < |at| ensures at[i] < p {
        if at[i] > p { CountGrows(items, active, p, at[i]); }
      }
    }
  }

  lemma FirstPositionsAgree<K, T>(items: seq<Scheduled<K, T>>, active: set<K>, n: nat, a: seq<nat>, b: seq<nat>)
    requires Increasing(a) && Increasing(b) && FirstRunnable(items, active, n, a) && FirstRunnable(items, active, n, b)
    ensures Members(a) <= Members(b)
  {
    if p :| p in a && p !in b {
      assert forall q :: q in b ==> q < p && q in a;
      assert Members(b) + {p} <= Members(a);
      MembersCount(a);
      MembersCount(b);
      SubsetCount(Members(b) + {p}, Members(a));
    }
  }

  /** Only one batch and one rest meet the description. */
  lemma BatchIsUnique<K, T>(items: seq<Scheduled<K, T>>, active: set<K>, n: nat,
      out: seq<Scheduled<K, T>>, stay: seq<Scheduled<K, T>>, out': seq<Scheduled<K, T>>, stay': seq<Scheduled<K, T>>)
    requires Batch(items, active, n, out, stay) && Batch(items, active, n, out', stay')
    ensures out == out' && stay == stay'
  {
    hide FirstRunnable, Selects, ItemsAt;
    var at: seq<nat> :| FirstRunnable(items, active, n, at) && ItemsAt(items, at, out)
      && Selects(items, (set p: nat | p < |items| && p !in at), stay);
    var at': seq<nat> :| FirstRunnable(items, active, n, at') && ItemsAt(items, at', out')
      && Selects(items, (set p: nat | p < |items| && p !in at'), stay');
    SamePositions(items, active, n, at, at', out, out');
    SelectsOnce(items, (set p: nat | p < |items| && p !in at), stay, stay');
  }

  lemma SamePositions<K, T>(items: seq<Scheduled<K, T>>, active: set<K>, n: nat, at: seq<nat>, at': seq<nat>,
      out: seq<Scheduled<K, T>>, out': seq<Scheduled<K, T>>)
    requires FirstRunnable(items, active, n, at) && ItemsAt(items, at, out)
    requires FirstRunnable(items, active, n, at') && ItemsAt(items, at', out')
    ensures at == at' && out == out'
  {
    hide FirstRunnable;
    FirstPositionsAgree(items, active, n, at, at');
    FirstPositionsAgree(items, active, n, at', at);
    IncreasingAreEqual(at, at');
  }

  // ----- order within a key -------------------------------------------------------------

  function OfKey<K(==), T>(items: seq<Scheduled<K, T>>, key: K): seq<T> {
    if items == [] then []
    else OfKey(items[..|items| - 1], key) + (if items[|items| - 1].key == key then [items[|items| - 1].value] else [])
  }

  lemma {:induction false} OfKeyConcat<K, T>(a: seq<Scheduled<K, T>>, b: seq<Scheduled<K, T>>, key: K)
    ensures OfKey(a + b, key) == OfKey(a, key) + OfKey(b, key)
  {
    if b == [] {
      assert a + b == a;
    } else {
      assert (a + b)[..|a + b| - 1] == a + b[..|b| - 1];
      OfKeyConcat(a, b[..|b| - 1], key);
    }
  }

  lemma OfKeyAppend<K, T>(a: seq<Scheduled<K, T>>, item: Scheduled<K, T>, key: K)
    ensures OfKey(a + [item], key) == OfKey(a, key) + (if item.key == key then [item.value] else [])
  {
    assert (a + [item])[..|a|] == a;
  }

  lemma {:induction false} NoneOfKey<K, T>(items: seq<Scheduled<K, T>>, key: K)
    requires key !in Keys(items)
    ensures OfKey(items, key) == []
  {
    if items != [] {
      var init := items[..|items| - 1];
      assert items[|items| - 1].key in Keys(items);
      assert forall i :: 0 <= i < |init| ==> init[i] == items[i] && items[i].key in Keys(items);
      NoneOfKey(init, key);
    }
  }

  lemma MoveToRest<T>(p: seq<T>, r: seq<T>, all: seq<T>, x: seq<T>)
    requires p + r == all
    ensures p + (r + x) == all + x
    ensures all == [] ==> (p + x) + r == all + x
  {
    assert p + (r + x) == (p + r) + x;
    if all == [] { assert |p| + |r| == 0; }
  }

  /** Splitting the pending items into a batch and the rest keeps each key's order: what comes
      out of a key was ahead of what stays. */
  lemma {:induction false} BatchKeepsOrder<K, T>(items: seq<Scheduled<K, T>>, active: set<K>, n: nat, m: nat, key: K)
    requires m <= |items|
    ensures OfKey(Picked(items, active, n, m), key) + OfKey(Rest(items, active, n, m), key) == OfKey(items[..m], key)
  {
    if m > 0 {
      BatchKeepsOrder(items, active, n, m - 1, key);
      BatchStep(items, active, n, m - 1, key);
    }
  }

  lemma BatchStep<K, T>(items: seq<Scheduled<K, T>>, active: set<K>, n: nat, m: nat, key: K)
    requires m < |items|
    requires OfKey(Picked(items, active, n, m), key) + OfKey(Rest(items, active, n, m), key) == OfKey(items[..m], key)
    ensures OfKey(Picked(items, active, n, m + 1), key) + OfKey(Rest(items, active, n, m + 1), key) == OfKey(items[..m + 1], key)
  {
    hide OfKey, Chosen;
    var item := items[m];
    var picked, rest := Picked(items, active, n, m), Rest(items, active, n, m);
    var x := if item.key == key then [item.value] else [];
    assert items[..m + 1] == items[..m] + [item];
    OfKeyAppend(items[..m], item, key);
    OfKeyAppend(picked, item, key);
    OfKeyAppend(rest, item, key);
    MoveToRest(OfKey(picked, key), OfKey(rest, key), OfKey(items[..m], key), x);
    if Chosen(items, active, n, m) && item.key == key { ChosenIsFirst(items, active, n, m); }
    assert picked + [] == picked && rest + [] == rest;
  }

  lemma ChosenIsFirst<K, T>(items: seq<Scheduled<K, T>>, active: set<K>, n: nat, m: nat)
    requires m < |items| && Chosen(items, active, n, m)
    ensures OfKey(items[..m], items[m].key) == []
  {
    NothingEarlier(items, m, items[m].key);
  }

  lemma NothingEarlier<K, T>(items: seq<Scheduled<K, T>>, m: nat, key: K)
    requires m <= |items| && forall j :: 0 <= j < m ==> items[j].key != key
    ensures OfKey(items[..m], key) == []
  {
    NoneOfKey(items[..m], key);
  }

  // ----- the scheduler ------------------------------------------------------------------

  class PerKeyScheduler<K(==), T> {
    var pending: seq<Scheduled<K, T>>
    var activeKeys: set<K>

    constructor ()
      ensures pending == [] && activeKeys == {}
    {
      pending, activeKeys := [], {};
    }

    method Enqueue(key: K, value: T)
      modifies this
      ensures pending == old(pending) + [Scheduled(key, value)] && activeKeys == old(activeKeys)
    {
      pending := pending + [Scheduled(key, value)];
    }

    method DequeueRunnable(maxItems: nat) returns (selected: seq<Scheduled<K, T>>)
      modifies this
      ensures selected == Picked(old(pending), old(activeKeys), maxItems, |old(pending)|)
      ensures pending == Rest(old(pending), old(activeKeys), maxItems, |old(pending)|)
      ensures activeKeys == old(activeKeys) + Keys(selected)
      ensures Batch(old(pending), old(activeKeys), maxItems, selected, pending)
    {
      hide Batch, Chosen;
      ghost var items, active := pending, activeKeys;
      PickedIsBatch(items, active, maxItems);
      if maxItems == 0 || pending == [] {
        NothingPicked(items, active, |items|);
        assert items[..|items|] == items && Keys<K, T>([]) == {};
        return [];
      }
      selected := [];
      var selectedKeys: set<K> := {};
      var remaining: seq<Scheduled<K, T>> := [];
      while pending != []
        invariant |pending| <= |items| && pending == items[|items| - |pending|..]
        invariant selected == Picked(items, active, maxItems, |items| - |pending|)
        invariant remaining == Rest(items, active, maxItems, |items| - |pending|)
        invariant selectedKeys == Keys(selected) && activeKeys == active + selectedKeys
        decreases |pending|
      {
        ghost var m := |items| - |pending|;
        BusyTestIsChosen(items, active, maxItems, m);
        var item := pending[0];
        assert item == items[m];
        pending := pending[1..];
        var keyBusy := item.key in activeKeys || item.key in selectedKeys;
        if !keyBusy && |selected| < maxItems {
          selectedKeys := selectedKeys + {item.key};
          activeKeys := activeKeys + {item.key};
          KeysAppend(selected, item);
          selected := selected + [item];
        } else {
          remaining := remaining + [item];
        }
      }
      pending := remaining;
    }

    method Complete(key: K)
      modifies this
      ensures activeKeys == old(activeKeys) - {key} && pending == old(pending)
    {
      activeKeys := activeKeys - {key};
    }

    method DrainPending() returns (drained: seq<Scheduled<K, T>>)
      modifies this
      ensures drained == old(pending) && pending == [] && activeKeys == old(activeKeys)
    {
      drained := pending;
      pending := [];
    }
  }

  lemma KeysAppend<K, T>(items: seq<Scheduled<K, T>>, item: Scheduled<K, T>)
    ensures Keys(items + [item]) == Keys(items) + {item.key}
  {
    var longer := items + [item];
    forall k | k in Keys(items) + {item.key} ensures k in Keys(longer) {
      if k == item.key {
        assert longer[|items|].key == k;
      } else {
        var i :| 0 <= i < |items| && items[i].key == k;
        assert longer[i].key == k;
      }
    }
  }

  lemma {:induction false} NothingPicked<K, T>(items: seq<Scheduled<K, T>>, active: set<K>, m: nat)
    requires m <= |items|
    ensures Picked(items, active, 0, m) == [] && Rest(items, active, 0, m) == items[..m]
  {
    if m > 0 {
      NothingPicked(items, active, m - 1);
      assert items[..m] == items[..m - 1] + [items[m - 1]];
    }
  }

  // ----- whole runs ---------------------------------------------------------------------

  datatype Op<K, T> = EnqueueOp(item: Scheduled<K, T>) | DequeueOp(n: nat) | CompleteOp(key: K) | DrainOp

  /** The scheduler with its history: everything enqueued, everything handed out or drained,
      and what is out and not completed. */
  datatype History<K, T> = History(
    pending: seq<Scheduled<K, T>>,
    active: set<K>,
    enqueued: seq<Scheduled<K, T>>,
    handed: seq<Scheduled<K, T>>,
    outstanding: seq<Scheduled<K, T>>)

  function Without<K(==), T>(items: seq<Scheduled<K, T>>, key: K): seq<Scheduled<K, T>> {
    if items == [] then []
    else Without(items[..|items| - 1], key) + (if items[|items| - 1].key == key then [] else [items[|items| - 1]])
  }

  function Perform<K(==), T>(h: History<K, T>, op: Op<K, T>): History<K, T> {
    match op
    case EnqueueOp(item) => h.(pending := h.pending + [item], enqueued := h.enqueued + [item])
    case DequeueOp(n) =>
      var batch := Picked(h.pending, h.active, n, |h.pending|);
      h.(pending := Rest(h.pending, h.active, n, |h.pending|), active := h.active + Keys(batch),
         handed := h.handed + batch, outstanding := h.outstanding + batch)
    case CompleteOp(key) => h.(active := h.active - {key}, outstanding := Without(h.outstanding, key))
    case DrainOp => h.(pending := [], handed := h.handed + h.pending)
  }

  function RunOps<K(==), T>(ops: seq<Op<K, T>>): History<K, T> {
    if ops == [] then History([], {}, [], [], [])
    else Perform(RunOps(ops[..|ops| - 1]), ops[|ops| - 1])
  }

  lemma DistinctAppend<K, T>(items: seq<Scheduled<K, T>>, item: Scheduled<K, T>)
    requires DistinctKeys(items) && item.key !in Keys(items)
    ensures DistinctKeys(items + [item])
  {
    assert forall i :: 0 <= i < |items| ==> items[i].key in Keys(items);
  }

  lemma {:induction false} WithoutKeys<K, T>(items: seq<Scheduled<K, T>>, key: K)
    requires DistinctKeys(items)
    ensures DistinctKeys(Without(items, key)) && Keys(Without(items, key)) == Keys(items) - {key}
  {
    if items != [] {
      var init, last := items[..|items| - 1], items[|items| - 1];
      var kept := Without(init, key);
      WithoutKeys(init, key);
      assert init + [last] == items;
      KeysAppend(init, last);
      assert last.key !in Keys(init);
      if last.key != key {
        KeysAppend(kept, last);
        DistinctAppend(kept, last);
        assert Without(items, key) == kept + [last];
      } else {
        assert Without(items, key) == kept;
      }
    }
  }

  lemma {:induction false} KeysConcat<K, T>(a: seq<Scheduled<K, T>>, b: seq<Scheduled<K, T>>)
    ensures Keys(a + b) == Keys(a) + Keys(b)
  {
    if b == [] {
      assert a + b == a;
    } else {
      var init, last := b[..|b| - 1], b[|b| - 1];
      KeysConcat(a, init);
      assert init + [last] == b && (a + init) + [last] == a + b;
      KeysAppend(init, last);
      KeysAppend(a + init, last);
    }
  }

  ghost predicate OneOutPerKey<K, T>(h: History<K, T>) {
    DistinctKeys(h.outstanding) && Keys(h.outstanding) == h.active
  }

  /** Over every run: for each key, what was handed out followed by what is pending is what was
      enqueued, in order; and at most one value of a key is out at a time. */
  lemma {:induction false} OrderAndExclusion<K, T>(ops: seq<Op<K, T>>, key: K)
    ensures var h := RunOps(ops);
            OfKey(h.handed, key) + OfKey(h.pending, key) == OfKey(h.enqueued, key) && OneOutPerKey(h)
  {
    if ops != [] {
      OrderAndExclusion(ops[..|ops| - 1], key);
      var h := RunOps(ops[..|ops| - 1]);
      StepKeepsOrder(h, ops[|ops| - 1], key);
      StepKeepsExclusion(h, ops[|ops| - 1]);
    }
  }

  lemma StepKeepsOrder<K, T>(h: History<K, T>, op: Op<K, T>, key: K)
    requires OfKey(h.handed, key) + OfKey(h.pending, key) == OfKey(h.enqueued, key)
    ensures var h' := Perform(h, op); OfKey(h'.handed, key) + OfKey(h'.pending, key) == OfKey(h'.enqueued, key)
  {
    hide OfKey, Picked, Rest, Without;
    match op
    case EnqueueOp(item) =>
      OfKeyAppend(h.pending, item, key);
      OfKeyAppend(h.enqueued, item, key);
    case DequeueOp(n) =>
      var batch, rest := Picked(h.pending, h.active, n, |h.pending|), Rest(h.pending, h.active, n, |h.pending|);
      BatchKeepsOrder(h.pending, h.active, n, |h.pending|, key);
      assert h.pending[..|h.pending|] == h.pending;
      OfKeyConcat(h.handed, batch, key);
      assert (OfKey(h.handed, key) + OfKey(batch, key)) + OfKey(rest, key) == OfKey(h.handed, key) + (OfKey(batch, key) + OfKey(rest, key));
    case CompleteOp(_) =>
    case DrainOp =>
      OfKeyConcat(h.handed, h.pending, key);
      NoneOfKey<K, T>([], key);
  }

  lemma DistinctConcat<K, T>(a: seq<Scheduled<K, T>>, b: seq<Scheduled<K, T>>)
    requires DistinctKeys(a) && DistinctKeys(b) && Avoids(b, Keys(a))
    ensures DistinctKeys(a + b)
  {
    forall i, j | 0 <= i < j < |a + b| ensures (a + b)[i].key != (a + b)[j].key {
      if i < |a| <= j {
        assert a[i].key in Keys(a) && (a + b)[j] == b[j - |a|];
      }
    }
  }

  lemma StepKeepsExclusion<K, T>(h: History<K, T>, op: Op<K, T>)
    requires OneOutPerKey(h)
    ensures OneOutPerKey(Perform(h, op))
  {
    match op
    case DequeueOp(n) =>
      var batch := Picked(h.pending, h.active, n, |h.pending|);
      PickedKeysDistinct(h.pending, h.active, n, |h.pending|);
      DistinctConcat(h.outstanding, batch);
      KeysConcat(h.outstanding, batch);
    case CompleteOp(key) => WithoutKeys(h.outstanding, key);
    case _ =>
  }
}
