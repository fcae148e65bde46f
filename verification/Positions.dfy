/** Picking items of a list by their positions, in the list's order. */
module Positions {
  predicate Increasing(at: seq<nat>) { forall i, j :: 0 <= i < j < |at| ==> at[i] < at[j] }

  /** `values` are the items at these positions, in the order of the items. */
  ghost predicate ItemsAt<T>(items: seq<T>, at: seq<nat>, values: seq<T>) {
    && Increasing(at) && |at| == |values|
    && forall i :: 0 <= i < |at| ==> at[i] < |items| && items[at[i]] == values[i]
  }

  function Members(at: seq<nat>): set<nat> { set p | p in at }

  /** `values` are the items at the wanted positions, each once, in the order of the items. */
  ghost predicate Selects<T>(items: seq<T>, wanted: set<nat>, values: seq<T>) {
    exists at: seq<nat> :: ItemsAt(items, at, values) && Members(at) == wanted
  }

  lemma NoPositions<T>(items: seq<T>)
    ensures ItemsAt(items, [], []) && Selects(items, {}, [])
  {
    assert ItemsAt(items, [], []) && Members([]) == {};
  }

  lemma AppendPosition<T>(items: seq<T>, at: seq<nat>, values: seq<T>, p: nat)
    requires ItemsAt(items, at, values) && p < |items| && forall q :: q in at ==> q < p
    ensures ItemsAt(items, at + [p], values + [items[p]]) && Members(at + [p]) == Members(at) + {p}
  {
    assert forall i :: 0 <= i < |at| ==> at[i] in at;
  }

  /** One more item at the end of the list, not wanted or wanted. */
  lemma SelectsNext<T>(items: seq<T>, x: T, wanted: set<nat>, values: seq<T>)
    requires Selects(items, wanted, values)
    ensures Selects(items + [x], wanted, values)
    ensures Selects(items + [x], wanted + {|items|}, values + [x])
  {
    var at: seq<nat> :| ItemsAt(items, at, values) && Members(at) == wanted;
    assert ItemsAt(items + [x], at, values);
    AppendPosition(items + [x], at, values, |items|);
  }

  lemma LastMember(at: seq<nat>)
    requires at != [] && Increasing(at)
    ensures var init, last := at[..|at| - 1], at[|at| - 1];
            && Increasing(init) && at == init + [last] && last in Members(at)
            && Members(init) == Members(at) - {last} && forall p <- Members(at) :: p <= last
  {
  }

  lemma {:induction false} MembersCount(at: seq<nat>)
    requires Increasing(at)
    ensures |Members(at)| == |at|
  {
    if at != [] {
      LastMember(at);
      MembersCount(at[..|at| - 1]);
    }
  }

  lemma {:induction false} IncreasingAreEqual(a: seq<nat>, b: seq<nat>)
    requires Increasing(a) && Increasing(b) && Members(a) == Members(b)
    ensures a == b
  {
    hide Increasing, Members;
    MembersCount(a);
    MembersCount(b);
    if a != [] {
      LastMember(a);
      LastMember(b);
      IncreasingAreEqual(a[..|a| - 1], b[..|b| - 1]);
    }
  }

  lemma SubsetCount(a: set<nat>, b: set<nat>)
    requires a <= b
    ensures |a| <= |b|
  {
    assert b == a + (b - a);
  }

  lemma SelectsOnce<T>(items: seq<T>, wanted: set<nat>, v: seq<T>, w: seq<T>)
    requires Selects(items, wanted, v) && Selects(items, wanted, w)
    ensures v == w
  {
    var a: seq<nat> :| ItemsAt(items, a, v) && Members(a) == wanted;
    var b: seq<nat> :| ItemsAt(items, b, w) && Members(b) == wanted;
    IncreasingAreEqual(a, b);
  }
}
