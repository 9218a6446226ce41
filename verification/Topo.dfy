/**
 * topoOrder: Kahn's algorithm over the subtasks, the lowest original index first
 * among the ready ones. The method is proved to follow the greedy choice to its end;
 * TopoLaws is about what that choice gives.
 */
module Topo {
  import opened Wrappers

  datatype Sub = Sub(id: string, title: string, deps: seq<string>)
  // For each node the nodes it waits for, with repetitions.
  type Graph = seq<seq<nat>>

  predicate InRange(g: Graph) {
    forall i :: 0 <= i < |g| ==> forall d :: d in g[i] ==> d < |g|
  }

  // ---- IDs to indices -----------------------------------------------------------------

  // The last subtask of an ID stands for it.
  function Index(subs: seq<Sub>): (m: map<string, nat>)
    ensures forall id :: id in m ==> m[id] < |subs| && subs[m[id]].id == id
    ensures forall i :: 0 <= i < |subs| ==> subs[i].id in m
  {
    if subs == [] then map[]
    else
      var n := |subs| - 1;
      assert forall i :: 0 <= i < n ==> subs[..n][i] == subs[i];
      Index(subs[..n])[subs[n].id := n]
  }

  // The dependencies inside the set, by index; the others are met already.
  function Resolve(deps: seq<string>, index: map<string, nat>): (r: seq<nat>)
    ensures forall j :: j in r <==> exists d :: d in deps && d in index && index[d] == j
  {
    if deps == [] then []
    else
      var n := |deps| - 1;
      assert deps == deps[..n] + [deps[n]];
      var init := Resolve(deps[..n], index);
      if deps[n] in index then init + [index[deps[n]]] else init
  }

  function GraphOf(subs: seq<Sub>): (g: Graph)
    ensures |g| == |subs| && InRange(g)
  {
    var index := Index(subs);
    seq(|subs|, i requires 0 <= i < |subs| => Resolve(subs[i].deps, index))
  }

  // ---- Occurrences ----------------------------------------------------------------------

  function Occurs(ds: seq<nat>, j: nat): nat {
    if ds == [] then 0 else Occurs(ds[..|ds| - 1], j) + (if ds[|ds| - 1] == j then 1 else 0)
  }

  // The dependencies not placed yet, counted with repetitions.
  function Missing(ds: seq<nat>, placed: set<nat>): nat {
    if ds == [] then 0 else Missing(ds[..|ds| - 1], placed) + (if ds[|ds| - 1] in placed then 0 else 1)
  }

  lemma {:induction false} MissingNone(ds: seq<nat>, placed: set<nat>)
    ensures Missing(ds, placed) == 0 <==> forall d :: d in ds ==> d in placed
  {
    if ds != [] {
      var n := |ds| - 1;
      MissingNone(ds[..n], placed);
      assert ds == ds[..n] + [ds[n]];
    }
  }

  lemma {:induction false} MissingAfter(ds: seq<nat>, placed: set<nat>, i: nat)
    requires i !in placed
    ensures Missing(ds, placed + {i}) == Missing(ds, placed) - Occurs(ds, i)
  {
    if ds != [] { MissingAfter(ds[..|ds| - 1], placed, i); }
  }

  lemma {:induction false} MissingAll(ds: seq<nat>)
    ensures Missing(ds, {}) == |ds|
  {
    if ds != [] { MissingAll(ds[..|ds| - 1]); }
  }

  lemma {:induction false} OccursPrefix(ds: seq<nat>, k: nat, j: nat)
    requires k <= |ds|
    ensures Occurs(ds[..k], j) <= Occurs(ds, j)
    decreases |ds|
  {
    if k < |ds| {
      OccursPrefix(ds[..|ds| - 1], k, j);
      assert ds[..|ds| - 1][..k] == ds[..k];
    } else {
      assert ds[..k] == ds;
    }
  }

  // ---- The greedy choice ------------------------------------------------------------------

  predicate Ready(g: Graph, placed: set<nat>, i: nat) {
    i < |g| && i !in placed && forall d :: d in g[i] ==> d in placed
  }

  predicate LeastReady(g: Graph, placed: set<nat>, i: nat) {
    Ready(g, placed, i) && forall j :: 0 <= j < i ==> !Ready(g, placed, j)
  }

  function SetOf(s: seq<nat>): (r: set<nat>)
    ensures forall x :: x in r <==> x in s
  {
    set x | x in s
  }

  // Each node placed is the least of those ready when it was.
  predicate Greedy(g: Graph, order: seq<nat>) {
    forall k :: 0 <= k < |order| ==> LeastReady(g, SetOf(order[..k]), order[k])
  }

  predicate Stuck(g: Graph, placed: set<nat>) {
    forall i :: 0 <= i < |g| ==> !Ready(g, placed, i)
  }

  function Pick(subs: seq<Sub>, order: seq<nat>): seq<Sub>
    requires forall k :: 0 <= k < |order| ==> order[k] < |subs|
  {
    seq(|order|, k requires 0 <= k < |order| => subs[order[k]])
  }

  // The greedy choice to its end: there is one such order.
  predicate GreedyEnd(g: Graph, order: seq<nat>) {
    (forall k :: 0 <= k < |order| ==> order[k] < |g|) && Greedy(g, order) && Stuck(g, SetOf(order))
  }

  // The subtasks in that order, when it places them all.
  function Ordered(subs: seq<Sub>, order: seq<nat>): Option<seq<Sub>>
    requires forall k :: 0 <= k < |order| ==> order[k] < |subs|
  {
    if |order| == |subs| then Some(Pick(subs, order)) else None
  }

  // ---- The method ---------------------------------------------------------------------------

  method IndexById(subs: seq<Sub>) returns (index: map<string, nat>)
    ensures index == Index(subs)
  {
    index := map[];
    for i := 0 to |subs|
      invariant index == Index(subs[..i])
    {
      assert subs[..i + 1][..i] == subs[..i];
      index := index[subs[i].id := i];
    }
    assert subs[..|subs|] == subs;
  }

  // One node's dependencies: its indegree, and its place in the lists of those it waits for.
  method EnterNode(i: nat, deps: seq<string>, index: map<string, nat>, indegree: array<int>, dependents: array<seq<nat>>)
    requires i < indegree.Length == dependents.Length && indegree[i] == 0
    requires forall id :: id in index ==> index[id] < dependents.Length
    modifies indegree, dependents
    ensures indegree[i] == |Resolve(deps, index)|
    ensures forall x :: 0 <= x < indegree.Length && x != i ==> indegree[x] == old(indegree[x])
    ensures forall j :: 0 <= j < dependents.Length ==> EnteredAs(old(dependents[j]), dependents[j], i, Occurs(Resolve(deps, index), j))
  {
    ghost var part := [];
    for k := 0 to |deps|
      invariant part == Resolve(deps[..k], index)
      invariant indegree[i] == |part|
      invariant forall x :: 0 <= x < indegree.Length && x != i ==> indegree[x] == old(indegree[x])
      invariant forall j :: 0 <= j < dependents.Length ==> EnteredAs(old(dependents[j]), dependents[j], i, Occurs(part, j))
    {
      assert deps[..k + 1][..k] == deps[..k];
      if deps[k] in index {
        var j := index[deps[k]];
        indegree[i] := indegree[i] + 1;
        assert EnteredAs(old(dependents[j]), dependents[j], i, Occurs(part, j));
        dependents[j] := dependents[j] + [i];
        part := part + [j];
        assert part[..|part| - 1] == Resolve(deps[..k], index);
      }
    }
    assert deps[..|deps|] == deps;
  }

  // A list with n more occurrences of one node behind what it held.
  predicate EnteredAs(was: seq<nat>, now: seq<nat>, i: nat, n: nat) {
    |was| <= |now| && now[..|was|] == was && |now| == |was| + n && forall k :: |was| <= k < |now| ==> now[k] == i
  }

  lemma {:induction false} EnteredOccurs(was: seq<nat>, now: seq<nat>, i: nat, n: nat, x: nat)
    requires EnteredAs(was, now, i, n)
    ensures Occurs(now, x) == Occurs(was, x) + (if x == i then n else 0)
    decreases n
  {
    if n == 0 {
      assert now == was;
    } else {
      EnteredOccurs(was, now[..|now| - 1], i, n - 1, x);
    }
  }

  // The lists once the first i nodes were entered.
  ghost predicate EnteredBefore(g: Graph, i: nat, lists: seq<seq<nat>>)
    requires i <= |g|
  {
    && (forall j, x :: 0 <= j < |lists| && 0 <= x < i ==> Occurs(lists[j], x) == Occurs(g[x], j))
    && forall j, x :: 0 <= j < |lists| && x in lists[j] ==> x < i
  }

  lemma OccursIn(ds: seq<nat>, x: nat)
    ensures Occurs(ds, x) > 0 <==> x in ds
  {
    if ds != [] {
      OccursIn(ds[..|ds| - 1], x);
      assert ds == ds[..|ds| - 1] + [ds[|ds| - 1]];
    }
  }

  lemma NodeEntered(g: Graph, i: nat, was: seq<seq<nat>>, now: seq<seq<nat>>)
    requires i < |g| && |was| == |now| && EnteredBefore(g, i, was)
    requires forall j :: 0 <= j < |was| ==> EnteredAs(was[j], now[j], i, Occurs(g[i], j))
    ensures EnteredBefore(g, i + 1, now)
  {
    forall j, x | 0 <= j < |now| && 0 <= x < i + 1 ensures Occurs(now[j], x) == Occurs(g[x], j) {
      EnteredOccurs(was[j], now[j], i, Occurs(g[i], j), x);
      if x == i { OccursIn(was[j], i); }
    }
    forall j, x | 0 <= j < |now| && x in now[j] ensures x < i + 1 {
      EnteredOccurs(was[j], now[j], i, Occurs(g[i], j), x);
      OccursIn(now[j], x);
      OccursIn(was[j], x);
    }
  }

  method BuildGraph(subs: seq<Sub>) returns (indegree: array<int>, dependents: array<seq<nat>>)
    ensures fresh(indegree) && fresh(dependents) && indegree.Length == dependents.Length == |subs|
    ensures forall i :: 0 <= i < |subs| ==> indegree[i] == |GraphOf(subs)[i]|
    ensures EnteredBefore(GraphOf(subs), |subs|, dependents[..])
  {
    var index := IndexById(subs);
    ghost var g := GraphOf(subs);
    indegree := new int[|subs|](_ => 0);
    dependents := new seq<nat>[|subs|](_ => []);
    for i := 0 to |subs|
      invariant forall x :: 0 <= x < |subs| ==> indegree[x] == if x < i then |g[x]| else 0
      invariant EnteredBefore(g, i, dependents[..])
    {
      ghost var was := dependents[..];
      EnterNode(i, subs[i].deps, index, indegree, dependents);
      NodeEntered(g, i, was, dependents[..]);
    }
  }

  // The position of the lowest index in the ready list.
  method PickLowest(ready: seq<nat>) returns (pick: nat)
    requires ready != []
    ensures pick < |ready| && forall k :: 0 <= k < |ready| ==> ready[pick] <= ready[k]
  {
    pick := 0;
    for k := 0 to |ready|
      invariant pick < |ready| && forall j :: 0 <= j < k ==> ready[pick] <= ready[j]
    {
      if ready[k] < ready[pick] { pick := k; }
    }
  }

  predicate Distinct(s: seq<nat>) {
    forall i, j :: 0 <= i < j < |s| ==> s[i] != s[j]
  }

  // The ready list is exactly the nodes whose dependencies are all placed.
  ghost predicate ReadyList(ready: seq<nat>, placed: set<nat>, degrees: seq<int>) {
    Distinct(ready) && forall x: nat :: x in ready <==> x < |degrees| && x !in placed && degrees[x] == 0
  }

  // Going through the dependents of a node just placed: each occurrence is one
  // dependency less, and the last one makes its node ready.
  method Release(waiting: seq<nat>, indegree: array<int>, queue: seq<nat>, ghost placed: set<nat>) returns (ready: seq<nat>)
    requires forall k :: 0 <= k < |waiting| ==> waiting[k] < indegree.Length && waiting[k] !in placed
    requires forall x :: 0 <= x < indegree.Length ==> indegree[x] >= Occurs(waiting, x)
    requires ReadyList(queue, placed, indegree[..])
    modifies indegree
    ensures forall x :: 0 <= x < indegree.Length ==> indegree[x] == old(indegree[x]) - Occurs(waiting, x)
    ensures ReadyList(ready, placed, indegree[..])
  {
    ready := queue;
    for k := 0 to |waiting|
      invariant forall x :: 0 <= x < indegree.Length ==> indegree[x] == old(indegree[x]) - Occurs(waiting[..k], x)
      invariant ReadyList(ready, placed, indegree[..])
    {
      var dep := waiting[k];
      assert waiting[..k + 1][..k] == waiting[..k];
      OccursPrefix(waiting, k + 1, dep);
      indegree[dep] := indegree[dep] - 1;
      if indegree[dep] == 0 {
        ready := ready + [dep];
      }
      assert forall x: nat :: x in ready <==> x < indegree.Length && x !in placed && indegree[x] == 0;
    }
    assert waiting[..|waiting|] == waiting;
  }

  lemma WithoutPick(ready: seq<nat>, pick: nat)
    requires pick < |ready| && Distinct(ready)
    ensures var r := ready[..pick] + ready[pick + 1..];
            Distinct(r) && forall x: nat :: x in r <==> x in ready && x != ready[pick]
  {
    var r := ready[..pick] + ready[pick + 1..];
    forall x: nat ensures x in r <==> x in ready && x != ready[pick] {
      if x in ready && x != ready[pick] {
        var k :| 0 <= k < |ready| && ready[k] == x;
        assert x == if k < pick then r[k] else r[k - 1];
      }
    }
  }

  lemma SeededScheduling(g: Graph, degrees: seq<int>, ready: seq<nat>)
    requires |degrees| == |g| && forall i :: 0 <= i < |g| ==> degrees[i] == |g[i]|
    requires ReadyList(ready, {}, degrees)
    ensures Scheduling(g, [], degrees, ready)
  {
    assert SetOf([]) == {};
    forall x | 0 <= x < |g| ensures degrees[x] == Missing(g[x], {}) { MissingAll(g[x]); }
  }

  method SeedReady(indegree: array<int>) returns (ready: seq<nat>)
    ensures ReadyList(ready, {}, indegree[..])
  {
    ready := [];
    for i := 0 to indegree.Length
      invariant Distinct(ready) && forall x: nat :: x in ready <==> x < i && indegree[x] == 0
    {
      if indegree[i] == 0 { ready := ready + [i]; }
    }
  }

  function Unplaced(g: Graph, placed: set<nat>): set<nat> {
    set x: nat | 0 <= x < |g| && x !in placed
  }

  // What the loop keeps: the counts are of what is missing, the ready list is complete.
  ghost predicate Scheduling(g: Graph, order: seq<nat>, degrees: seq<int>, ready: seq<nat>) {
    && |degrees| == |g| && Greedy(g, order) && (forall x :: x in order ==> x < |g|)
    && (forall x :: 0 <= x < |g| ==> degrees[x] == Missing(g[x], SetOf(order)))
    && (forall x :: x in order ==> Missing(g[x], SetOf(order)) == 0)
    && ReadyList(ready, SetOf(order), degrees)
  }

  lemma ReadyIsMissingNone(g: Graph, order: seq<nat>, degrees: seq<int>, ready: seq<nat>, i: nat)
    requires Scheduling(g, order, degrees, ready)
    ensures i in ready <==> Ready(g, SetOf(order), i)
  {
    if i < |g| { MissingNone(g[i], SetOf(order)); }
  }

  lemma PickIsLeast(g: Graph, order: seq<nat>, degrees: seq<int>, ready: seq<nat>, pick: nat)
    requires Scheduling(g, order, degrees, ready) && pick < |ready|
    requires forall k :: 0 <= k < |ready| ==> ready[pick] <= ready[k]
    ensures LeastReady(g, SetOf(order), ready[pick]) && Greedy(g, order + [ready[pick]])
  {
    var i := ready[pick];
    ReadyIsMissingNone(g, order, degrees, ready, i);
    forall j | 0 <= j < i ensures !Ready(g, SetOf(order), j) {
      ReadyIsMissingNone(g, order, degrees, ready, j);
    }
    var next := order + [i];
    forall k | 0 <= k < |next| ensures LeastReady(g, SetOf(next[..k]), next[k]) {
      assert next[..k] == order[..k];
      if k == |order| { assert order[..k] == order; }
    }
  }

  // What waits for a node about to be placed is neither placed nor that node.
  lemma WaitingIsOpen(g: Graph, order: seq<nat>, degrees: seq<int>, ready: seq<nat>, i: nat, waiting: seq<nat>, x: nat)
    requires Scheduling(g, order, degrees, ready) && i in ready
    requires x < |g| && x in waiting && Occurs(waiting, x) == Occurs(g[x], i)
    ensures x !in SetOf(order) && x != i
    ensures degrees[x] >= Occurs(waiting, x)
  {
    OccursIn(waiting, x);
    MissingAfter(g[x], SetOf(order), i);
  }

  lemma AfterRelease(g: Graph, order: seq<nat>, degrees: seq<int>, queue: seq<nat>, i: nat, waiting: seq<nat>,
                     degrees': seq<int>, ready: seq<nat>)
    requires Scheduling(g, order, degrees, queue) && i in queue && i < |g|
    requires Greedy(g, order + [i])
    requires forall x :: 0 <= x < |g| ==> Occurs(waiting, x) == Occurs(g[x], i)
    requires |degrees'| == |g| && forall x :: 0 <= x < |g| ==> degrees'[x] == degrees[x] - Occurs(waiting, x)
    requires ReadyList(ready, SetOf(order) + {i}, degrees')
    ensures Scheduling(g, order + [i], degrees', ready)
  {
    var next := order + [i];
    assert SetOf(next) == SetOf(order) + {i};
    forall x | 0 <= x < |g| ensures degrees'[x] == Missing(g[x], SetOf(next)) {
      MissingAfter(g[x], SetOf(order), i);
    }
    forall x | x in next ensures Missing(g[x], SetOf(next)) == 0 {
      MissingAfter(g[x], SetOf(order), i);
    }
  }

  // One node placed: its dependents are released, everything kept in step.
  method Place(ghost g: Graph, ghost order: seq<nat>, ghost i: nat, waiting: seq<nat>, indegree: array<int>, queue: seq<nat>, ghost all: seq<nat>)
    returns (ready: seq<nat>)
    requires Scheduling(g, order, indegree[..], all) && Greedy(g, order + [i]) && i in all
    requires Distinct(queue) && forall x: nat :: x in queue <==> x in all && x != i
    requires forall x :: x in waiting ==> x < |g|
    requires forall x :: 0 <= x < |g| ==> Occurs(waiting, x) == Occurs(g[x], i)
    modifies indegree
    ensures Scheduling(g, order + [i], indegree[..], ready)
  {
    ghost var placed, was := SetOf(order) + {i}, indegree[..];
    forall k | 0 <= k < |waiting| ensures waiting[k] < indegree.Length && waiting[k] !in placed {
      assert waiting[k] in waiting;
      WaitingIsOpen(g, order, was, all, i, waiting, waiting[k]);
    }
    forall x | 0 <= x < indegree.Length ensures indegree[x] >= Occurs(waiting, x) {
      OccursIn(waiting, x);
      if x in waiting { WaitingIsOpen(g, order, was, all, i, waiting, x); }
    }
    ready := Release(waiting, indegree, queue, placed);
    AfterRelease(g, order, was, all, i, waiting, indegree[..], ready);
  }

  // The lowest of the ready nodes leaves the list, and its dependents are released.
  method PlaceLowest(ghost g: Graph, ghost order: seq<nat>, indegree: array<int>, dependents: array<seq<nat>>, queue: seq<nat>)
    returns (i: nat, ready: seq<nat>)
    requires queue != [] && Scheduling(g, order, indegree[..], queue)
    requires dependents.Length == |g| && EnteredBefore(g, |g|, dependents[..]) && indegree as object != dependents as object
    modifies indegree
    ensures i < |g| && i !in order && Scheduling(g, order + [i], indegree[..], ready)
  {
    var pick := PickLowest(queue);
    i := queue[pick];
    assert i in queue;
    WithoutPick(queue, pick);
    PickIsLeast(g, order, indegree[..], queue, pick);
    assert dependents[..][i] == dependents[i];
    ready := Place(g, order, i, dependents[i], indegree, queue[..pick] + queue[pick + 1..], queue);
  }

  lemma Shrinks(g: Graph, order: seq<nat>, i: nat)
    requires i < |g| && i !in order
    ensures Unplaced(g, SetOf(order + [i])) < Unplaced(g, SetOf(order))
  {
    assert i in Unplaced(g, SetOf(order)) && i !in Unplaced(g, SetOf(order + [i]));
  }

  /**
   * topoOrder: the greedy order to its end, and an error exactly when that end comes
   * before every subtask is placed.
   */
  method TopoOrder(subs: seq<Sub>) returns (ordered: Option<seq<Sub>>)
    ensures exists order :: GreedyEnd(GraphOf(subs), order) && ordered == Ordered(subs, order)
  {
    ghost var g := GraphOf(subs);
    var indegree, dependents := BuildGraph(subs);
    var ready := SeedReady(indegree);
    ghost var order: seq<nat> := [];
    var picked: seq<Sub> := [];
    SeededScheduling(g, indegree[..], ready);
    ghost var lists := dependents[..];
    while ready != []
      invariant Scheduling(g, order, indegree[..], ready)
      invariant picked == Pick(subs, order)
      invariant dependents[..] == lists
      decreases Unplaced(g, SetOf(order))
    {
      var i;
      i, ready := PlaceLowest(g, order, indegree, dependents, ready);
      Shrinks(g, order, i);
      picked := picked + [subs[i]];
      order := order + [i];
    }
    forall i | 0 <= i < |g| ensures !Ready(g, SetOf(order), i) {
      ReadyIsMissingNone(g, order, indegree[..], ready, i);
    }
    assert GreedyEnd(g, order);
    ordered := if |picked| == |subs| then Some(picked) else None;
  }
}
