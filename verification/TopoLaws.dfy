/**
 * What the greedy order is: a schedule of every subtask exactly when the dependencies
 * have no cycle, with every dependency first, and the least such schedule by original
 * index. And what it is for the sets the run gives it: the plan's own order.
 */
module TopoLaws {
  import opened Wrappers
  import opened Seqs
  import opened Topo

  // ---- Counting --------------------------------------------------------------------------

  lemma {:induction false} DistinctCard(s: seq<nat>)
    requires Distinct(s)
    ensures |SetOf(s)| == |s|
  {
    if s != [] {
      var n := |s| - 1;
      DistinctCard(s[..n]);
      assert s == s[..n] + [s[n]];
      assert SetOf(s) == SetOf(s[..n]) + {s[n]};
    } else {
      assert SetOf(s) == {};
    }
  }

  function Range(n: nat): (r: set<nat>)
    ensures |r| == n && forall x: nat :: x in r <==> x < n
  {
    if n == 0 then {} else Range(n - 1) + {n - 1}
  }

  lemma SubsetCard<T>(a: set<T>, b: set<T>)
    requires a <= b
    ensures |a| <= |b| && (|a| == |b| ==> a == b)
  {
    assert b == a + (b - a);
  }

  lemma NoRoom(s: seq<nat>, n: nat)
    requires Distinct(s) && forall x :: x in s ==> x < n
    ensures |s| <= n && (|s| == n <==> forall x: nat :: x < n ==> x in s)
  {
    DistinctCard(s);
    SubsetCard(SetOf(s), Range(n));
    if forall x: nat :: x < n ==> x in s { assert SetOf(s) == Range(n); }
    if |s| == n {
      forall x: nat | x < n ensures x in s { assert x in Range(n); }
    }
  }

  // ---- Dependencies first ------------------------------------------------------------------

  // No node twice, and every dependency in front of its dependents.
  predicate Respects(g: Graph, order: seq<nat>) {
    && Distinct(order)
    && (forall k :: 0 <= k < |order| ==> order[k] < |g|)
    && forall k :: 0 <= k < |order| ==> forall d :: d in g[order[k]] ==> d in order[..k]
  }

  predicate Schedule(g: Graph, order: seq<nat>) {
    Respects(g, order) && |order| == |g|
  }

  lemma GreedyRespects(g: Graph, order: seq<nat>)
    requires Greedy(g, order)
    ensures Respects(g, order)
  {
    forall i, j | 0 <= i < j < |order| ensures order[i] != order[j] {
      assert LeastReady(g, SetOf(order[..j]), order[j]);
      assert order[..j][i] == order[i];
    }
    forall k | 0 <= k < |order| ensures order[k] < |g| && forall d :: d in g[order[k]] ==> d in order[..k] {
      assert LeastReady(g, SetOf(order[..k]), order[k]);
    }
  }

  lemma {:induction false} SameSoFar(g: Graph, a: seq<nat>, b: seq<nat>, k: nat)
    requires Greedy(g, a) && Greedy(g, b) && k <= |a| && k <= |b|
    ensures a[..k] == b[..k]
  {
    if k > 0 {
      SameSoFar(g, a, b, k - 1);
      assert LeastReady(g, SetOf(a[..k - 1]), a[k - 1]) && LeastReady(g, SetOf(b[..k - 1]), b[k - 1]);
      assert a[..k] == a[..k - 1] + [a[k - 1]] && b[..k] == b[..k - 1] + [b[k - 1]];
    }
  }

  lemma LongerIsNotStuck(g: Graph, a: seq<nat>, b: seq<nat>)
    requires Greedy(g, a) && Greedy(g, b) && |a| < |b|
    ensures !Stuck(g, SetOf(a))
  {
    SameSoFar(g, a, b, |a|);
    assert a[..|a|] == a;
    assert LeastReady(g, SetOf(b[..|a|]), b[|a|]);
  }

  /** The greedy choice comes to one end only. */
  lemma OneGreedyEnd(g: Graph, a: seq<nat>, b: seq<nat>)
    requires GreedyEnd(g, a) && GreedyEnd(g, b)
    ensures a == b
  {
    if |a| < |b| { LongerIsNotStuck(g, a, b); }
    if |b| < |a| { LongerIsNotStuck(g, b, a); }
    SameSoFar(g, a, b, |a|);
    assert a[..|a|] == a && b[..|a|] == b;
  }

  // ---- Cycles ------------------------------------------------------------------------------

  // Each node waits for the next.
  predicate Chain(g: Graph, p: seq<nat>) {
    forall k :: 0 <= k < |p| - 1 ==> p[k] < |g| && p[k + 1] in g[p[k]]
  }

  predicate Cycle(g: Graph, p: seq<nat>) {
    |p| >= 2 && Chain(g, p) && p[0] == p[|p| - 1]
  }

  ghost predicate Acyclic(g: Graph) {
    forall p :: !Cycle(g, p)
  }

  function Position(order: seq<nat>, x: nat): (k: nat)
    requires x in order
    ensures k < |order| && order[k] == x
  {
    if order[0] == x then 0 else 1 + Position(order[1..], x)
  }

  lemma DependencyEarlier(g: Graph, order: seq<nat>, x: nat, d: nat)
    requires Respects(g, order) && x in order && x < |g| && d in g[x]
    ensures d in order && Position(order, d) < Position(order, x)
  {
    var k := Position(order, x);
    assert d in order[..k];
    var j :| 0 <= j < k && order[..k][j] == d;
    assert order[j] == d;
    assert Position(order, d) == j;
  }

  lemma {:induction false} ChainDescends(g: Graph, order: seq<nat>, p: seq<nat>)
    requires Respects(g, order) && Chain(g, p) && |p| >= 2 && p[0] in order
    ensures p[|p| - 1] in order && Position(order, p[|p| - 1]) < Position(order, p[0])
    decreases |p|
  {
    DependencyEarlier(g, order, p[0], p[1]);
    if |p| > 2 {
      assert Chain(g, p[1..]);
      ChainDescends(g, order, p[1..]);
    }
  }

  // Where nothing is ready, chains of any length run through the nodes left over.
  lemma {:induction false} LongChain(g: Graph, placed: set<nat>, start: nat, n: nat) returns (p: seq<nat>)
    requires InRange(g) && Stuck(g, placed) && start < |g| && start !in placed
    ensures |p| == n + 1 && p[0] == start && Chain(g, p) && forall x :: x in p ==> x < |g|
    decreases n
  {
    if n == 0 {
      p := [start];
    } else {
      assert !Ready(g, placed, start);
      var d :| d in g[start] && d !in placed;
      var rest := LongChain(g, placed, d, n - 1);
      p := [start] + rest;
      forall k | 0 <= k < |p| - 1 ensures p[k] < |g| && p[k + 1] in g[p[k]] {
        if k > 0 { assert p[k] == rest[k - 1] && p[k + 1] == rest[k]; }
      }
    }
  }

  lemma LeftoverCycles(g: Graph, placed: set<nat>, start: nat) returns (p: seq<nat>)
    requires InRange(g) && Stuck(g, placed) && start < |g| && start !in placed
    ensures Cycle(g, p)
  {
    var long := LongChain(g, placed, start, |g|);
    if Distinct(long) {
      NoRoom(long, |g|);
      assert false;
    }
    var i, j :| 0 <= i < j < |long| && long[i] == long[j];
    p := long[i..j + 1];
    forall k | 0 <= k < |p| - 1 ensures p[k] < |g| && p[k + 1] in g[p[k]] {
      assert p[k] == long[i + k] && p[k + 1] == long[i + k + 1];
    }
  }

  /** An order of every subtask comes back exactly when no chain of dependencies closes, a self-dependency included. */
  lemma CompleteIffAcyclic(g: Graph, order: seq<nat>)
    requires InRange(g) && Greedy(g, order) && Stuck(g, SetOf(order))
    ensures |order| == |g| <==> Acyclic(g)
    ensures |order| == |g| ==> Schedule(g, order)
  {
    GreedyRespects(g, order);
    NoRoom(order, |g|);
    if |order| == |g| {
      forall p ensures !Cycle(g, p) {
        if Cycle(g, p) {
          assert p[0] < |g|;
          ChainDescends(g, order, p);
          assert false;
        }
      }
    } else {
      var start: nat :| start < |g| && start !in order;
      var p := LeftoverCycles(g, SetOf(order), start);
    }
  }

  // ---- The least schedule -------------------------------------------------------------------

  lemma {:induction false} FirstDifference(a: seq<nat>, b: seq<nat>) returns (k: nat)
    requires |a| == |b| && a != b
    decreases |a|
    ensures k < |a| && a[..k] == b[..k] && a[k] != b[k]
  {
    if a[0] != b[0] {
      k := 0;
    } else {
      assert [a[0]] + a[1..] == a && [b[0]] + b[1..] == b;
      var j := FirstDifference(a[1..], b[1..]);
      k := j + 1;
      assert a[..k] == [a[0]] + a[1..][..j] && b[..k] == [b[0]] + b[1..][..j];
    }
  }

  /** Against any other schedule it has the lower index at the first place they differ. */
  lemma LeastSchedule(g: Graph, order: seq<nat>, other: seq<nat>) returns (k: nat)
    requires Greedy(g, order) && |order| == |g| && Schedule(g, other) && other != order
    ensures k < |g| && order[..k] == other[..k] && order[k] < other[k]
  {
    k := FirstDifference(order, other);
    var placed := SetOf(order[..k]);
    assert LeastReady(g, placed, order[k]);
    assert Ready(g, placed, other[k]) by {
      forall i | 0 <= i < k ensures other[i] != other[k] {}
      assert other[k] !in other[..k];
    }
  }

  // ---- The plan's own order ---------------------------------------------------------------------

  // Every node waits for earlier ones only.
  predicate Backward(g: Graph) {
    forall i :: 0 <= i < |g| ==> forall d :: d in g[i] ==> d < i
  }

  lemma {:induction false} BackwardStep(g: Graph, order: seq<nat>, k: nat)
    requires Backward(g) && Greedy(g, order) && k <= |order| && k <= |g|
    ensures SetOf(order[..k]) == Range(k)
    ensures k > 0 ==> order[k - 1] == k - 1
  {
    if k > 0 {
      BackwardStep(g, order, k - 1);
      BackwardNext(g, order, k - 1);
    } else {
      assert order[..0] == [];
    }
  }

  lemma BackwardNext(g: Graph, order: seq<nat>, n: nat)
    requires Backward(g) && Greedy(g, order) && n < |order| && n < |g| && SetOf(order[..n]) == Range(n)
    ensures order[n] == n && SetOf(order[..n + 1]) == Range(n + 1)
  {
    var placed := SetOf(order[..n]);
    assert LeastReady(g, placed, order[n]);
    LeastIsNext(g, n, order[n]);
    OneMore(order, n);
  }

  lemma OneMore(order: seq<nat>, n: nat)
    requires n < |order| && SetOf(order[..n]) == Range(n) && order[n] == n
    ensures SetOf(order[..n + 1]) == Range(n + 1)
  {
    assert order[..n + 1] == order[..n] + [order[n]];
  }

  lemma LeastIsNext(g: Graph, n: nat, i: nat)
    requires Backward(g) && n < |g| && LeastReady(g, Range(n), i)
    ensures i == n
  {
    NextIsReady(g, n);
  }

  lemma BackwardIsIdentity(g: Graph, order: seq<nat>)
    requires Backward(g) && Greedy(g, order) && Stuck(g, SetOf(order))
    ensures |order| == |g| && forall i :: 0 <= i < |g| ==> order[i] == i
  {
    GreedyRespects(g, order);
    NoRoom(order, |g|);
    if |order| < |g| { ShortIsNotStuck(g, order); }
    EachInPlace(g, order);
  }

  lemma EachInPlace(g: Graph, order: seq<nat>)
    requires Backward(g) && Greedy(g, order) && |order| <= |g|
    ensures forall i :: 0 <= i < |order| ==> order[i] == i
  {
    forall i | 0 <= i < |order| ensures order[i] == i { InPlace(g, order, i); }
  }

  lemma InPlace(g: Graph, order: seq<nat>, i: nat)
    requires Backward(g) && Greedy(g, order) && i < |order| <= |g|
    ensures order[i] == i
  {
    BackwardStep(g, order, i + 1);
  }

  lemma ShortIsNotStuck(g: Graph, order: seq<nat>)
    requires Backward(g) && Greedy(g, order) && |order| < |g|
    ensures !Stuck(g, SetOf(order))
  {
    BackwardStep(g, order, |order|);
    assert order[..|order|] == order;
    NextIsReady(g, |order|);
  }

  lemma NextIsReady(g: Graph, n: nat)
    requires Backward(g) && n < |g|
    ensures Ready(g, Range(n), n)
  {
  }

  predicate DistinctIds(subs: seq<Sub>) {
    forall i, j :: 0 <= i < j < |subs| ==> subs[i].id != subs[j].id
  }

  /** With distinct IDs the edges are exactly the dependencies inside the set. */
  lemma EdgesOf(subs: seq<Sub>, i: nat, j: nat)
    requires DistinctIds(subs) && i < |subs| && j < |subs|
    ensures j in GraphOf(subs)[i] <==> subs[j].id in subs[i].deps
  {
    var index := Index(subs);
    if subs[j].id in subs[i].deps {
      assert subs[index[subs[j].id]].id == subs[j].id;
    }
  }

  /** Whatever the set, scheduling it in the order it came in needs only earlier dependencies. */
  lemma KeepsItsOrder(subs: seq<Sub>, order: seq<nat>)
    requires forall k :: 0 <= k < |order| ==> order[k] < |subs|
    requires Greedy(GraphOf(subs), order) && Stuck(GraphOf(subs), SetOf(order)) && Backward(GraphOf(subs))
    ensures |order| == |subs| && Pick(subs, order) == subs
  {
    BackwardIsIdentity(GraphOf(subs), order);
  }

  // ---- The list that comes back -----------------------------------------------------------------

  predicate HasId(subs: seq<Sub>, id: string) {
    exists i :: 0 <= i < |subs| && subs[i].id == id
  }

  // Each dependency inside the list stands in front of its dependents.
  predicate DependenciesFirst(subs: seq<Sub>) {
    forall k, d :: 0 <= k < |subs| && d in subs[k].deps && HasId(subs, d) ==> HasId(subs[..k], d)
  }

  // Where a subtask stands in the list as it came in.
  function IndexOf(subs: seq<Sub>, s: Sub): (i: nat)
    requires s in subs
    ensures i < |subs| && subs[i] == s
  {
    if subs[0] == s then 0 else 1 + IndexOf(subs[1..], s)
  }

  lemma PickWithout(subs: seq<Sub>, order: seq<nat>, p: nat)
    requires p < |order| && forall k :: 0 <= k < |order| ==> order[k] < |subs|
    ensures var rest := order[..p] + order[p + 1..];
            && (forall k :: 0 <= k < |rest| ==> rest[k] < |subs|)
            && multiset(Pick(subs, order)) == multiset(Pick(subs, rest)) + multiset{subs[order[p]]}
  {
    var rest := order[..p] + order[p + 1..];
    var a, b := Pick(subs, order[..p]), Pick(subs, order[p + 1..]);
    assert Pick(subs, order) == a + [subs[order[p]]] + b;
    assert Pick(subs, rest) == a + b;
  }

  lemma PickInside(subs: seq<Sub>, order: seq<nat>)
    requires subs != [] && forall k :: 0 <= k < |order| ==> order[k] < |subs| - 1
    ensures Pick(subs[..|subs| - 1], order) == Pick(subs, order)
  {
  }

  lemma {:induction false} PickIsPermutation(subs: seq<Sub>, order: seq<nat>)
    requires Distinct(order) && |order| == |subs| && forall k :: 0 <= k < |order| ==> order[k] < |subs|
    ensures multiset(Pick(subs, order)) == multiset(subs)
  {
    var n := |subs|;
    if n > 0 {
      NoRoom(order, n);
      assert n - 1 in order;
      var p :| 0 <= p < n && order[p] == n - 1;
      var rest := order[..p] + order[p + 1..];
      RestIsDistinct(order, p);
      PickWithout(subs, order, p);
      PickInside(subs, rest);
      PickIsPermutation(subs[..n - 1], rest);
      assert subs == subs[..n - 1] + [subs[n - 1]];
    }
  }

  lemma RestIsDistinct(order: seq<nat>, p: nat)
    requires Distinct(order) && p < |order|
    ensures Distinct(order[..p] + order[p + 1..])
    ensures forall x :: x in order[..p] + order[p + 1..] ==> x in order && x != order[p]
  {
  }

  lemma PickPutsDependenciesFirst(subs: seq<Sub>, order: seq<nat>)
    requires DistinctIds(subs) && Schedule(GraphOf(subs), order)
    ensures DependenciesFirst(Pick(subs, order))
  {
    var out := Pick(subs, order);
    forall k, d | 0 <= k < |out| && d in out[k].deps && HasId(out, d) ensures HasId(out[..k], d) {
      var i :| 0 <= i < |out| && out[i].id == d;
      EdgesOf(subs, order[k], order[i]);
      assert order[i] in order[..k];
      var p :| 0 <= p < k && order[..k][p] == order[i];
      assert out[..k][p].id == d;
    }
  }

  // Another arrangement of the subtasks, as indices.
  lemma Rearranged(subs: seq<Sub>, other: seq<Sub>) returns (order: seq<nat>)
    requires DistinctIds(subs) && multiset(other) == multiset(subs) && DependenciesFirst(other)
    ensures Schedule(GraphOf(subs), order) && Pick(subs, order) == other
  {
    assert NoRepeats(subs);
    SameBagNoRepeats(other, subs);
    order := seq(|other|, k requires 0 <= k < |other| => IndexOf(subs, other[k]));
    var g := GraphOf(subs);
    forall k, d | 0 <= k < |order| && d in g[order[k]] ensures d in order[..k] {
      EdgesOf(subs, order[k], d);
      assert subs[d] in other;
      assert HasId(other, subs[d].id);
      var p :| 0 <= p < k && other[..k][p].id == subs[d].id;
      assert order[..k][p] == d;
    }
    forall i, j | 0 <= i < j < |order| ensures order[i] != order[j] { assert other[i] != other[j]; }
  }

  /**
   * What topoOrder hands back, said of the list alone: none exactly when a chain of
   * dependencies closes; else the same subtasks in another order - with distinct IDs each
   * dependency inside the set in front of its dependents, and at the first place where any
   * other such order differs, the subtask that came in earlier.
   */
  lemma TheList(subs: seq<Sub>, order: seq<nat>, out: Option<seq<Sub>>)
    requires GreedyEnd(GraphOf(subs), order) && out == Ordered(subs, order)
    ensures out.None? <==> !Acyclic(GraphOf(subs))
    ensures out.Some? ==> multiset(out.value) == multiset(subs)
    ensures out.Some? && DistinctIds(subs) ==> DependenciesFirst(out.value)
    ensures out.Some? && DistinctIds(subs) ==>
              forall other: seq<Sub> :: multiset(other) == multiset(subs) && DependenciesFirst(other) ==>
                Earliest(subs, out.value, other)
  {
    CompleteIffAcyclic(GraphOf(subs), order);
    if out.Some? {
      PickIsPermutation(subs, order);
      if DistinctIds(subs) {
        PickPutsDependenciesFirst(subs, order);
        forall other: seq<Sub> | multiset(other) == multiset(subs) && DependenciesFirst(other)
          ensures Earliest(subs, out.value, other)
        {
          IsEarliest(subs, order, other);
        }
      }
    }
  }

  // Equal, or at the first difference the one that came in earlier.
  predicate Earliest(subs: seq<Sub>, out: seq<Sub>, other: seq<Sub>) {
    out == other ||
    exists k :: 0 <= k < |out| && k < |other| && out[..k] == other[..k] && ComesEarlier(subs, out[k], other[k])
  }

  predicate ComesEarlier(subs: seq<Sub>, a: Sub, b: Sub) {
    exists i, j :: 0 <= i < j < |subs| && subs[i] == a && subs[j] == b
  }

  lemma IsEarliest(subs: seq<Sub>, order: seq<nat>, other: seq<Sub>)
    requires DistinctIds(subs) && GreedyEnd(GraphOf(subs), order) && |order| == |subs|
    requires multiset(other) == multiset(subs) && DependenciesFirst(other)
    ensures Earliest(subs, Pick(subs, order), other)
  {
    var order' := Rearranged(subs, other);
    var out := Pick(subs, order);
    if out != other {
      var k := LeastSchedule(GraphOf(subs), order, order');
      assert out[..k] == other[..k] by {
        forall i | 0 <= i < k ensures out[i] == other[i] { assert order[..k][i] == order'[..k][i]; }
      }
      assert subs[order[k]] == out[k] && subs[order'[k]] == other[k];
      assert ComesEarlier(subs, out[k], other[k]);
    }
  }
}
