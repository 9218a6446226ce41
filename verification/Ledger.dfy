/**
 * The budget ledger: two lower bounds on what a card has cost, and the ceiling their
 * maximum is held against. The fields are proved to be what the calls so far add up to,
 * in whatever order they came.
 */
module Ledger {
  datatype Call = Spend(usd: real) | Sync(card: string, usd: real)

  function Max(a: real, b: real): (r: real)
    ensures r >= a && r >= b && (r == a || r == b)
  {
    if a < b then b else a
  }

  // ---- The sum of the per-card floors -------------------------------------------------

  ghost function Total(server: map<string, real>): real
    decreases |server|
  {
    if server == map[] then 0.0
    else
      var k :| k in server;
      server[k] + Total(server - {k})
  }

  lemma {:induction false} TotalWithout(server: map<string, real>, k: string)
    requires k in server
    ensures Total(server) == server[k] + Total(server - {k})
    decreases |server|
  {
    var j :| j in server && Total(server) == server[j] + Total(server - {j});
    if j != k {
      TotalWithout(server - {j}, k);
      TotalWithout(server - {k}, j);
      assert server - {j} - {k} == server - {k} - {j};
    }
  }

  lemma TotalPut(server: map<string, real>, k: string, v: real)
    ensures Total(server[k := v]) == v + Total(server - {k})
    ensures k !in server ==> server - {k} == server
  {
    TotalWithout(server[k := v], k);
    assert server[k := v] - {k} == server - {k};
  }

  // ---- What the calls add up to ------------------------------------------------------------

  function Spends(calls: seq<Call>): real {
    if calls == [] then 0.0
    else
      var c := calls[|calls| - 1];
      Spends(calls[..|calls| - 1]) + (if c.Spend? then c.usd else 0.0)
  }

  // The largest total synced for each card; one that never rose above zero is not held.
  function Floors(calls: seq<Call>): map<string, real> {
    if calls == [] then map[]
    else
      var m := Floors(calls[..|calls| - 1]);
      var c := calls[|calls| - 1];
      if c.Sync? && c.usd > (if c.card in m then m[c.card] else 0.0) then m[c.card := c.usd] else m
  }

  ghost function Effective(seed: real, calls: seq<Call>): real {
    Max(seed + Spends(calls), Total(Floors(calls)))
  }

  predicate Synced(calls: seq<Call>, card: string, usd: real) {
    Sync(card, usd) in calls
  }

  /** A card's floor is the greatest of its synced totals. */
  lemma {:induction false} FloorIsGreatest(calls: seq<Call>, card: string)
    ensures card in Floors(calls) ==> Floors(calls)[card] > 0.0 && Synced(calls, card, Floors(calls)[card])
    ensures forall usd :: Synced(calls, card, usd) ==> usd <= (if card in Floors(calls) then Floors(calls)[card] else 0.0)
  {
    if calls != [] {
      var n := |calls| - 1;
      FloorIsGreatest(calls[..n], card);
      assert calls == calls[..n] + [calls[n]];
      var floor := if card in Floors(calls) then Floors(calls)[card] else 0.0;
      forall usd | Synced(calls, card, usd) ensures usd <= floor {
        assert calls[n] == Sync(card, usd) || Synced(calls[..n], card, usd);
      }
    }
  }

  lemma {:induction false} SpendsWithout(calls: seq<Call>, i: nat)
    requires i < |calls|
    ensures Spends(calls) == Spends(calls[..i] + calls[i + 1..]) + (if calls[i].Spend? then calls[i].usd else 0.0)
  {
    var n := |calls| - 1;
    if i < n {
      SpendsWithout(calls[..n], i);
      assert calls[..n][..i] == calls[..i];
      assert (calls[..i] + calls[i + 1..])[..n - 1] == calls[..n][..i] + calls[..n][i + 1..];
    } else {
      assert calls[..i] + calls[i + 1..] == calls[..n];
    }
  }

  lemma BagWithout(calls: seq<Call>, i: nat)
    requires i < |calls|
    ensures multiset(calls[..i] + calls[i + 1..]) == multiset(calls) - multiset{calls[i]}
  {
    assert calls == calls[..i] + [calls[i]] + calls[i + 1..];
  }

  // The last call of one list, found in the other.
  lemma Partner(a: seq<Call>, b: seq<Call>) returns (i: nat)
    requires a != [] && multiset(a) == multiset(b)
    ensures i < |b| && b[i] == a[|a| - 1]
  {
    assert a[|a| - 1] in multiset(b);
    i :| 0 <= i < |b| && b[i] == a[|a| - 1];
  }

  lemma {:induction false} SpendsOfSame(a: seq<Call>, b: seq<Call>)
    requires multiset(a) == multiset(b)
    ensures Spends(a) == Spends(b)
    decreases |a|
  {
    if a != [] {
      var n := |a| - 1;
      var i := Partner(a, b);
      BagWithout(b, i);
      BagWithout(a, n);
      assert a[..n] + a[n + 1..] == a[..n];
      SpendsOfSame(a[..n], b[..i] + b[i + 1..]);
      SpendsWithout(b, i);
    } else {
      assert multiset(b) == multiset([]) && |multiset(b)| == |b|;
    }
  }

  lemma FloorsOfSame(a: seq<Call>, b: seq<Call>)
    requires multiset(a) == multiset(b)
    ensures Floors(a) == Floors(b)
  {
    forall card: string
      ensures card in Floors(a) <==> card in Floors(b)
      ensures card in Floors(a) ==> Floors(a)[card] == Floors(b)[card]
    {
      FloorIsGreatest(a, card);
      FloorIsGreatest(b, card);
      assert forall c :: c in a <==> c in multiset(a);
      assert forall c :: c in b <==> c in multiset(b);
      assert forall usd :: Synced(a, card, usd) <==> Synced(b, card, usd);
    }
  }

  /** The effective total does not depend on the order the calls came in. */
  lemma OrderIndependent(seed: real, a: seq<Call>, b: seq<Call>)
    requires multiset(a) == multiset(b)
    ensures Effective(seed, a) == Effective(seed, b)
  {
    SpendsOfSame(a, b);
    FloorsOfSame(a, b);
  }

  predicate NonNegative(calls: seq<Call>) {
    forall c :: c in calls && c.Spend? ==> c.usd >= 0.0
  }

  /** With no negative spend it never goes down, so a breach is a breach for good. */
  lemma {:induction false} NeverFalls(seed: real, calls: seq<Call>, more: seq<Call>)
    requires NonNegative(more)
    ensures Effective(seed, calls) <= Effective(seed, calls + more)
    decreases |more|
  {
    if more == [] {
      assert calls + more == calls;
    } else {
      var n := |more| - 1;
      NeverFalls(seed, calls, more[..n]);
      var was, c := calls + more[..n], more[n];
      assert (calls + more)[..|calls + more| - 1] == was;
      var m := Floors(was);
      if c.Sync? && c.usd > (if c.card in m then m[c.card] else 0.0) {
        TotalPut(m, c.card, c.usd);
        if c.card in m { TotalWithout(m, c.card); }
      }
    }
  }

  // ---- The ledger itself ---------------------------------------------------------------------

  class Ledger {
    const max: real
    ghost const seed: real
    var spent: real
    var server: map<string, real>
    ghost var calls: seq<Call>

    ghost predicate Valid()
      reads this
    {
      spent == seed + Spends(calls) && server == Floors(calls)
    }

    constructor (maxUSD: real, alreadyReported: real)
      ensures Valid() && calls == [] && max == maxUSD && seed == alreadyReported
    {
      max, seed, spent, server, calls := maxUSD, alreadyReported, alreadyReported, map[], [];
    }

    method Spend(usd: real)
      requires Valid()
      modifies this`spent, this`calls
      ensures Valid() && calls == old(calls) + [Call.Spend(usd)]
    {
      spent := spent + usd;
      calls := calls + [Call.Spend(usd)];
    }

    method SyncServerTotal(card: string, usd: real)
      requires Valid()
      modifies this`server, this`calls
      ensures Valid() && calls == old(calls) + [Sync(card, usd)]
    {
      if usd > (if card in server then server[card] else 0.0) {
        server := server[card := usd];
      }
      calls := calls + [Sync(card, usd)];
    }

    method EffectiveTotal() returns (total: real)
      requires Valid()
      ensures total == Effective(seed, calls)
      ensures total >= spent && total >= Total(server) && (total == spent || total == Total(server))
    {
      var sum := 0.0;
      var left := server;
      while left != map[]
        invariant left.Keys <= server.Keys && sum + Total(left) == Total(server)
        decreases |left|
      {
        var k :| k in left;
        TotalWithout(left, k);
        sum := sum + left[k];
        left := left - {k};
      }
      total := Max(spent, sum);
    }

    method Check() returns (exceeded: bool)
      requires Valid()
      ensures exceeded <==> max > 0.0 && Effective(seed, calls) >= max
    {
      var total := EffectiveTotal();
      exceeded := max > 0.0 && total >= max;
    }
  }
}
