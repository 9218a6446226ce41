/**
 * From a plan to a schedule: what parsePlan accepts, the cards createSubtasks makes of
 * it, and the order in which both a first run and a resumed one work through them.
 */
module Plan {
  import opened Wrappers
  import opened Text
  import opened Topo
  import opened TopoLaws

  datatype PlanSubtask = PlanSubtask(title: string, tier: string, dependsOn: seq<int>)
  datatype Followup = Followup(title: string, description: string, dependsOn: seq<int>)
  datatype PlanText = PlanText(cardTier: string, subtasks: seq<PlanSubtask>, followups: seq<Followup>, unreachable: seq<string>)

  const MAX_SUBTASKS: nat := 20

  // ---- Validation ----------------------------------------------------------------------

  predicate ValidTier(tier: string) {
    tier == "simple" || tier == "moderate" || tier == "complex" || tier == "critical"
  }

  predicate BackwardRefs(refs: seq<int>, i: nat) {
    forall k :: 0 <= k < |refs| ==> 0 <= refs[k] < i
  }

  // normalizeCardTitle; lower stands for strings.ToLower.
  function Normalized(title: string, lower: string -> string): string {
    lower(TrimSpace(title))
  }

  predicate ValidSubtask(st: PlanSubtask, i: nat, lower: string -> string) {
    Normalized(st.title, lower) != "" && ValidTier(st.tier) && BackwardRefs(st.dependsOn, i)
  }

  predicate ValidSubtasks(subtasks: seq<PlanSubtask>, lower: string -> string) {
    && (forall i :: 0 <= i < |subtasks| ==> ValidSubtask(subtasks[i], i, lower))
    && forall i, j :: 0 <= i < j < |subtasks| ==> Normalized(subtasks[i].title, lower) != Normalized(subtasks[j].title, lower)
  }

  predicate ValidFollowups(followups: seq<Followup>) {
    forall i :: 0 <= i < |followups| ==>
      && TrimSpace(followups[i].title) != "" && TrimSpace(followups[i].description) != ""
      && BackwardRefs(followups[i].dependsOn, i)
  }

  predicate Accepted(p: PlanText, lower: string -> string) {
    && ValidTier(p.cardTier) && 1 <= |p.subtasks| <= MAX_SUBTASKS && ValidSubtasks(p.subtasks, lower)
    && ValidFollowups(p.followups)
    && forall i :: 0 <= i < |p.unreachable| ==> TrimSpace(p.unreachable[i]) != ""
  }

  method RefsBackward(refs: seq<int>, i: nat) returns (ok: bool)
    ensures ok <==> BackwardRefs(refs, i)
  {
    for k := 0 to |refs|
      invariant forall j :: 0 <= j < k ==> 0 <= refs[j] < i
    {
      if refs[k] < 0 || refs[k] >= i { return false; }
    }
    ok := true;
  }

  method CheckSubtasks(subtasks: seq<PlanSubtask>, lower: string -> string) returns (ok: bool)
    ensures ok <==> ValidSubtasks(subtasks, lower)
  {
    var titleIndex: map<string, nat> := map[];
    for i := 0 to |subtasks|
      invariant ValidSubtasks(subtasks[..i], lower)
      invariant forall t :: t in titleIndex <==> exists k :: 0 <= k < i && Normalized(subtasks[k].title, lower) == t
    {
      var st := subtasks[i];
      var title := Normalized(st.title, lower);
      if title == "" { return false; }
      if title in titleIndex { return false; }
      titleIndex := titleIndex[title := i];
      if !ValidTier(st.tier) { return false; }
      var backward := RefsBackward(st.dependsOn, i);
      if !backward { return false; }
      assert ValidSubtask(st, i, lower);
    }
    assert subtasks[..|subtasks|] == subtasks;
    ok := true;
  }

  method CheckFollowups(followups: seq<Followup>) returns (ok: bool)
    ensures ok <==> ValidFollowups(followups)
  {
    for i := 0 to |followups|
      invariant ValidFollowups(followups[..i])
    {
      var fc := followups[i];
      if TrimSpace(fc.title) == "" { return false; }
      if TrimSpace(fc.description) == "" { return false; }
      var backward := RefsBackward(fc.dependsOn, i);
      if !backward { return false; }
    }
    assert followups[..|followups|] == followups;
    ok := true;
  }

  // parsePlan, once the JSON is read.
  method ParsePlan(p: PlanText, lower: string -> string) returns (accepted: bool)
    ensures accepted <==> Accepted(p, lower)
  {
    if !ValidTier(p.cardTier) { return false; }
    if |p.subtasks| == 0 { return false; }
    if |p.subtasks| > MAX_SUBTASKS { return false; }
    var subtasks := CheckSubtasks(p.subtasks, lower);
    if !subtasks { return false; }
    var followups := CheckFollowups(p.followups);
    if !followups { return false; }
    for i := 0 to |p.unreachable|
      invariant forall k :: 0 <= k < i ==> TrimSpace(p.unreachable[k]) != ""
    {
      if TrimSpace(p.unreachable[i]) == "" { return false; }
    }
    accepted := true;
  }

  // ---- The cards -------------------------------------------------------------------------

  // Each card carries the real IDs of the cards its plan entry pointed at.
  predicate Created(plan: seq<PlanSubtask>, subs: seq<Sub>) {
    && |subs| == |plan|
    && forall i :: 0 <= i < |plan| ==> CreatedFrom(plan[i], subs[i], subs)
  }

  predicate CreatedFrom(st: PlanSubtask, sub: Sub, subs: seq<Sub>) {
    && sub.title == st.title && |sub.deps| == |st.dependsOn|
    && forall k :: 0 <= k < |st.dependsOn| ==> 0 <= st.dependsOn[k] < |subs| && sub.deps[k] == subs[st.dependsOn[k]].id
  }

  predicate RefsInOrder(plan: seq<PlanSubtask>) {
    forall i :: 0 <= i < |plan| ==> BackwardRefs(plan[i].dependsOn, i)
  }

  // createSubtasks: one card per entry, in plan order; the board answers any ID, or fails.
  method CreateSubtasks(plan: seq<PlanSubtask>) returns (ok: bool, subs: seq<Sub>)
    requires RefsInOrder(plan)
    ensures ok ==> Created(plan, subs)
  {
    var ids: seq<string> := [];
    subs := [];
    for i := 0 to |plan|
      invariant |ids| == |subs| == i
      invariant forall k :: 0 <= k < i ==> ids[k] == subs[k].id
      invariant forall k :: 0 <= k < i ==> CreatedFrom(plan[k], subs[k], subs)
    {
      var st := plan[i];
      var depIDs: seq<string> := [];
      for k := 0 to |st.dependsOn|
        invariant |depIDs| == k
        invariant forall j :: 0 <= j < k ==> depIDs[j] == ids[st.dependsOn[j]]
      {
        depIDs := depIDs + [ids[st.dependsOn[k]]];
      }
      var failed: bool, id: string := *, *;
      if failed { return false, subs; }
      ids := ids + [id];
      subs := subs + [Sub(id, st.title, depIDs)];
    }
    ok := true;
  }

  /** The cards of an accepted plan wait for earlier ones only, when the board gave them distinct IDs. */
  lemma CreatedIsBackward(plan: seq<PlanSubtask>, subs: seq<Sub>)
    requires RefsInOrder(plan) && Created(plan, subs) && DistinctIds(subs)
    ensures Backward(GraphOf(subs))
  {
    var g := GraphOf(subs);
    forall i | 0 <= i < |g| ensures forall d :: d in g[i] ==> d < i {
      forall d | d in g[i] ensures d < i {
        EdgesOf(subs, i, d);
        assert CreatedFrom(plan[i], subs[i], subs);
        var k :| 0 <= k < |subs[i].deps| && subs[i].deps[k] == subs[d].id;
        assert plan[i].dependsOn[k] == d;
      }
    }
  }

  /** An accepted plan points back: an entry or follow-up waits for earlier ones of its kind only. */
  lemma AcceptedPointsBack(p: PlanText, lower: string -> string)
    requires Accepted(p, lower)
    ensures RefsInOrder(p.subtasks)
    ensures forall i, d :: 0 <= i < |p.followups| && d in p.followups[i].dependsOn ==> 0 <= d < i
  {
    forall i, d | 0 <= i < |p.followups| && d in p.followups[i].dependsOn ensures 0 <= d < i {
      assert BackwardRefs(p.followups[i].dependsOn, i);
    }
  }

  /** So scheduling them never fails, and gives back the plan's own order. */
  method SchedulePlan(plan: seq<PlanSubtask>, subs: seq<Sub>) returns (ordered: Option<seq<Sub>>)
    requires RefsInOrder(plan) && Created(plan, subs) && DistinctIds(subs)
    ensures ordered == Some(subs)
  {
    ordered := TopoOrder(subs);
    ghost var order :| GreedyEnd(GraphOf(subs), order) && ordered == Ordered(subs, order);
    CreatedIsBackward(plan, subs);
    KeepsItsOrder(subs, order);
  }

  /**
   * From the plan's text to the schedule: a plan that is accepted has its cards made with
   * no reference astray, and they are worked through in the plan's order.
   */
  method PlanAndSchedule(p: PlanText, lower: string -> string)
    returns (accepted: bool, made: Option<seq<Sub>>, ordered: Option<seq<Sub>>)
    ensures accepted <==> Accepted(p, lower)
    ensures made.Some? ==> accepted && Created(p.subtasks, made.value)
    ensures made.Some? && DistinctIds(made.value) ==> ordered == made
    ensures made.Some? ==>
              (ordered.Some? <==> forall c :: !Closes(p.subtasks, made.value, c))
  {
    made, ordered := None, None;
    accepted := ParsePlan(p, lower);
    if !accepted { return; }
    AcceptedPointsBack(p, lower);
    var ok, subs := CreateSubtasks(p.subtasks);
    if !ok { return; }
    made := Some(subs);
    ordered := TopoOrder(subs);
    ghost var order :| GreedyEnd(GraphOf(subs), order) && ordered == Ordered(subs, order);
    OrderedIffOpen(p.subtasks, subs, order);
    if DistinctIds(subs) {
      CreatedIsBackward(p.subtasks, subs);
      KeepsItsOrder(subs, order);
    }
  }

  // The card that stands for the one a plan entry pointed at: the last made with its ID.
  function StandsFor(subs: seq<Sub>, d: nat): (r: nat)
    requires d < |subs|
    ensures r < |subs| && subs[r].id == subs[d].id
  {
    Index(subs)[subs[d].id]
  }

  // Card i is made to wait for card j.
  predicate WaitsFor(plan: seq<PlanSubtask>, subs: seq<Sub>, i: nat, j: nat)
    requires Created(plan, subs) && i < |plan|
  {
    exists k :: 0 <= k < |plan[i].dependsOn| && 0 <= plan[i].dependsOn[k] < |subs| && StandsFor(subs, plan[i].dependsOn[k]) == j
  }

  // A chain of waiting cards that comes back to its first.
  predicate Closes(plan: seq<PlanSubtask>, subs: seq<Sub>, p: seq<nat>)
    requires Created(plan, subs)
  {
    && |p| >= 2 && p[0] == p[|p| - 1]
    && forall k :: 0 <= k < |p| - 1 ==> p[k] < |plan| && WaitsFor(plan, subs, p[k], p[k + 1])
  }

  lemma WaitsAreEdges(plan: seq<PlanSubtask>, subs: seq<Sub>, i: nat, j: nat)
    requires Created(plan, subs) && i < |plan|
    ensures j in GraphOf(subs)[i] <==> WaitsFor(plan, subs, i, j)
  {
    assert CreatedFrom(plan[i], subs[i], subs);
    var index := Index(subs);
    if j in GraphOf(subs)[i] {
      var d :| d in subs[i].deps && d in index && index[d] == j;
      var k :| 0 <= k < |subs[i].deps| && subs[i].deps[k] == d;
      assert StandsFor(subs, plan[i].dependsOn[k]) == j;
    }
    if WaitsFor(plan, subs, i, j) {
      var k :| 0 <= k < |plan[i].dependsOn| && 0 <= plan[i].dependsOn[k] < |subs| && StandsFor(subs, plan[i].dependsOn[k]) == j;
      assert subs[i].deps[k] in subs[i].deps;
    }
  }

  lemma ClosesIsCycle(plan: seq<PlanSubtask>, subs: seq<Sub>, p: seq<nat>)
    requires Created(plan, subs)
    ensures Closes(plan, subs, p) <==> Cycle(GraphOf(subs), p)
  {
    forall k | 0 <= k < |p| - 1 && p[k] < |plan|
      ensures p[k + 1] in GraphOf(subs)[p[k]] <==> WaitsFor(plan, subs, p[k], p[k + 1])
    {
      WaitsAreEdges(plan, subs, p[k], p[k + 1]);
    }
  }

  /**
   * Whatever IDs the board answers: the cards have an order exactly when no chain closes
   * in which each card waits for the last one made with an ID it was to wait for.
   */
  lemma OrderedIffOpen(plan: seq<PlanSubtask>, subs: seq<Sub>, order: seq<nat>)
    requires Created(plan, subs) && Greedy(GraphOf(subs), order) && Stuck(GraphOf(subs), SetOf(order))
    ensures |order| == |plan| <==> forall p :: !Closes(plan, subs, p)
  {
    CompleteIffAcyclic(GraphOf(subs), order);
    if |order| == |plan| {
      forall p ensures !Closes(plan, subs, p) { ClosesIsCycle(plan, subs, p); }
    } else {
      var p :| Cycle(GraphOf(subs), p);
      ClosesIsCycle(plan, subs, p);
    }
  }

  /** One ID answered for two cards, the second waiting for the first: it waits for itself. */
  lemma OneIdCannotWait(id: string, first: string, second: string, order: seq<nat>)
    requires var subs := [Sub(id, first, []), Sub(id, second, [id])];
             Greedy(GraphOf(subs), order) && Stuck(GraphOf(subs), SetOf(order))
    ensures Created([PlanSubtask(first, "", []), PlanSubtask(second, "", [0])], [Sub(id, first, []), Sub(id, second, [id])])
    ensures |order| != 2
  {
    var subs := [Sub(id, first, []), Sub(id, second, [id])];
    var g := GraphOf(subs);
    assert Index(subs)[id] == 1;
    assert id in subs[1].deps;
    assert 1 in g[1];
    assert Cycle(g, [1, 1]);
    CompleteIffAcyclic(g, order);
  }

  // ---- A resumed run ------------------------------------------------------------------------

  // Go's < on strings.
  predicate Before(a: string, b: string) {
    b != "" && (a == "" || a[0] < b[0] || (a[0] == b[0] && Before(a[1..], b[1..])))
  }

  lemma {:induction false} BeforeTransitive(a: string, b: string, c: string)
    requires Before(a, b) && Before(b, c)
    ensures Before(a, c)
  {
    if a != "" && a[0] == b[0] == c[0] { BeforeTransitive(a[1..], b[1..], c[1..]); }
  }

  lemma {:induction false} BeforeTotal(a: string, b: string)
    ensures a == b || Before(a, b) || Before(b, a)
    ensures !(Before(a, b) && Before(b, a)) && !Before(a, a)
  {
    if a != "" && b != "" {
      BeforeTotal(a[1..], b[1..]);
      assert a == [a[0]] + a[1..] && b == [b[0]] + b[1..];
    }
    if a != "" { BeforeTotal(a[1..], a[1..]); }
  }

  predicate Increasing(ids: seq<string>) {
    forall i, j :: 0 <= i < j < |ids| ==> Before(ids[i], ids[j])
  }

  predicate Sorted(ids: seq<string>) {
    forall i, j :: 0 <= i < j < |ids| ==> !Before(ids[j], ids[i])
  }

  /** However the board listed them, sorting increasing IDs gives the order they were made in. */
  lemma {:induction false} SortedIsCreation(made: seq<string>, sorted: seq<string>)
    requires Increasing(made) && Sorted(sorted) && multiset(made) == multiset(sorted)
    ensures sorted == made
  {
    assert |made| == |multiset(made)| == |multiset(sorted)| == |sorted|;
    if made != [] {
      SameFirst(made, sorted);
      BagTail(made);
      BagTail(sorted);
      SortedIsCreation(made[1..], sorted[1..]);
      assert made == [made[0]] + made[1..] && sorted == [sorted[0]] + sorted[1..];
    }
  }

  lemma SameFirst(made: seq<string>, sorted: seq<string>)
    requires Increasing(made) && Sorted(sorted) && multiset(made) == multiset(sorted) && made != [] && sorted != []
    ensures made[0] == sorted[0]
  {
    assert made[0] in multiset(sorted) && sorted[0] in multiset(made);
    var i :| 0 <= i < |sorted| && sorted[i] == made[0];
    var j :| 0 <= j < |made| && made[j] == sorted[0];
    BeforeTotal(made[0], sorted[0]);
  }

  lemma BagTail(ids: seq<string>)
    requires ids != []
    ensures multiset(ids[1..]) == multiset(ids) - multiset{ids[0]}
  {
    assert ids == [ids[0]] + ids[1..];
  }

  function Ids(subs: seq<Sub>): (ids: seq<string>)
    ensures |ids| == |subs| && forall i :: 0 <= i < |subs| ==> ids[i] == subs[i].id
  {
    seq(|subs|, i requires 0 <= i < |subs| => subs[i].id)
  }

  /**
   * A resumed run knows no dependencies, only the cards' IDs in some order. Sorted and
   * scheduled, they still come in the order they were made, so every dependency of the
   * plan is still first.
   */
  method ResumeSchedule(plan: seq<PlanSubtask>, made: seq<Sub>, sorted: seq<Sub>) returns (ordered: Option<seq<Sub>>)
    requires RefsInOrder(plan) && Created(plan, made) && Increasing(Ids(made))
    requires Sorted(Ids(sorted)) && multiset(Ids(sorted)) == multiset(Ids(made))
    requires forall i :: 0 <= i < |sorted| ==> sorted[i].deps == []
    ensures ordered == Some(sorted) && Ids(sorted) == Ids(made)
    ensures forall i, d :: 0 <= i < |made| && d in made[i].deps ==> d in Ids(sorted)[..i]
  {
    ordered := TopoOrder(sorted);
    ghost var order :| GreedyEnd(GraphOf(sorted), order) && ordered == Ordered(sorted, order);
    EdgeFree(sorted);
    KeepsItsOrder(sorted, order);
    SortedIsCreation(Ids(made), Ids(sorted));
    forall i, d | 0 <= i < |made| && d in made[i].deps ensures d in Ids(sorted)[..i] {
      DependencyMadeEarlier(plan, made, i, d);
    }
  }

  lemma EdgeFree(subs: seq<Sub>)
    requires forall i :: 0 <= i < |subs| ==> subs[i].deps == []
    ensures Backward(GraphOf(subs))
  {
    forall i | 0 <= i < |subs| ensures GraphOf(subs)[i] == [] { assert Resolve([], Index(subs)) == []; }
  }

  lemma DependencyMadeEarlier(plan: seq<PlanSubtask>, made: seq<Sub>, i: nat, d: string)
    requires RefsInOrder(plan) && Created(plan, made) && i < |made| && d in made[i].deps
    ensures d in Ids(made)[..i]
  {
    assert CreatedFrom(plan[i], made[i], made);
    var k :| 0 <= k < |made[i].deps| && made[i].deps[k] == d;
    var j := plan[i].dependsOn[k];
    assert Ids(made)[..i][j] == made[j].id;
  }
}
