/**
 * The two registries the shutdown protocol runs on: the tracker of live runs and the
 * claims on their terminal reports. Each method is one critical section.
 */
module ExitReports {
  // ---- Claims ---------------------------------------------------------------------------

  // A claim is open until its report has returned.
  datatype Claim = Open | Closed
  type Claims<K(==)> = map<K, Claim>

  // What a claim does: an unclaimed report goes to the caller, and is noted only once
  // the shutdown has begun.
  function ClaimsAfter<K(==)>(claims: Claims<K>, shutdown: bool, id: K): (r: Claims<K>) {
    if id in claims || !shutdown then claims else claims[id := Open]
  }

  function Closing<K(==)>(claims: Claims<K>, id: K): (r: Claims<K>) {
    if id in claims then claims[id := Closed] else claims
  }

  /** A report that has returned leaves its claim closed, no other touched. */
  lemma ReportCloses<K>(claims: Claims<K>, shutdown: bool, id: K)
    requires id !in claims
    ensures var r := Closing(ClaimsAfter(claims, shutdown, id), id);
            && r.Keys == claims.Keys + (if shutdown then {id} else {})
            && (id in r ==> r[id].Closed?)
            && forall k :: k in claims ==> r[k] == claims[k]
  {
  }

  class Reports {
    var shutdown: bool
    var claims: Claims<string>
    // The reports sent through this registry, in order.
    ghost var sent: seq<string>

    constructor ()
      ensures !shutdown && claims == map[] && sent == []
    {
      shutdown, claims, sent := false, map[], [];
    }

    method BeginShutdown()
      modifies this`shutdown
      ensures shutdown
    {
      shutdown := true;
    }

    // The first half of report: false when another side has the claim.
    method Acquire(id: string) returns (owned: bool)
      modifies this`claims
      ensures owned <==> id !in old(claims)
      ensures claims == ClaimsAfter(old(claims), shutdown, id)
    {
      if id in claims { return false; }
      if shutdown { claims := claims[id := Open]; }
      owned := true;
    }

    // The deferred close, once the send has returned.
    method Close(id: string)
      modifies this`claims
      ensures claims == Closing(old(claims), id)
    {
      if id in claims { claims := claims[id := Closed]; }
    }

    method Report(id: string) returns (owned: bool)
      modifies this`claims, this`sent
      ensures owned <==> id !in old(claims)
      ensures sent == old(sent) + (if owned then [id] else [])
      ensures claims == if owned then Closing(ClaimsAfter(old(claims), shutdown, id), id) else old(claims)
      ensures owned && id in claims ==> claims[id].Closed?
    {
      owned := Acquire(id);
      if owned {
        sent := sent + [id];
        Close(id);
      }
    }

    method Claimed(id: string) returns (yes: bool)
      ensures yes <==> id in claims
    {
      yes := id in claims;
    }
  }

  // ---- The tracker --------------------------------------------------------------------------

  datatype Tracked = Tracked(project: string, cardId: string, correlationId: string)

  function Key(project: string, cardId: string): string {
    project + "/" + cardId
  }

  class Tracker {
    var byKey: map<string, Tracked>
    const max: nat
    var awaiting: map<string, bool>
    var lastActivity: map<string, nat>
    var reason: map<string, string>

    // Never over its limit, each run under its own key, and nothing kept for a key
    // without a run.
    ghost predicate Valid()
      reads this
    {
      && |byKey| <= max
      && (forall k :: k in byKey ==> Key(byKey[k].project, byKey[k].cardId) == k)
      && awaiting.Keys <= byKey.Keys && lastActivity.Keys <= byKey.Keys && reason.Keys <= byKey.Keys
    }

    constructor (maxConcurrent: nat)
      ensures Valid() && byKey == map[] && max == maxConcurrent
    {
      byKey, max := map[], maxConcurrent;
      awaiting, lastActivity, reason := map[], map[], map[];
    }

    method AddIfUnderLimit(r: Tracked) returns (admitted: bool)
      requires Valid()
      modifies this`byKey
      ensures Valid()
      ensures admitted <==> Key(r.project, r.cardId) !in old(byKey) && |old(byKey)| < max
      ensures byKey == if admitted then old(byKey)[Key(r.project, r.cardId) := r] else old(byKey)
    {
      var k := Key(r.project, r.cardId);
      if k in byKey { return false; }
      if |byKey| >= max { return false; }
      byKey := byKey[k := r];
      admitted := true;
    }

    method Get(project: string, cardId: string) returns (found: bool, r: Tracked)
      ensures found <==> Key(project, cardId) in byKey
      ensures found ==> r == byKey[Key(project, cardId)]
    {
      var k := Key(project, cardId);
      if k in byKey { return true, byKey[k]; }
      return false, Tracked(project, cardId, "");
    }

    method Remove(project: string, cardId: string)
      requires Valid()
      modifies this
      ensures Valid() && byKey == old(byKey) - {Key(project, cardId)}
      ensures awaiting == old(awaiting) - {Key(project, cardId)} && lastActivity == old(lastActivity) - {Key(project, cardId)}
      ensures reason == old(reason) - {Key(project, cardId)}
    {
      var k := Key(project, cardId);
      SmallerMap(byKey, k);
      byKey := byKey - {k};
      awaiting := awaiting - {k};
      lastActivity := lastActivity - {k};
      reason := reason - {k};
    }

    static lemma SmallerMap<V>(m: map<string, V>, k: string)
      ensures |m - {k}| <= |m|
    {
      assert (m - {k}).Keys <= m.Keys;
      assert m.Keys == (m - {k}).Keys + (m.Keys - (m - {k}).Keys);
    }

    method SetAwaiting(project: string, cardId: string, v: bool)
      requires Valid()
      modifies this`awaiting
      ensures Valid()
      ensures var k := Key(project, cardId); awaiting == if k in byKey then old(awaiting)[k := v] else old(awaiting)
    {
      var k := Key(project, cardId);
      if k !in byKey { return; }
      awaiting := awaiting[k := v];
    }

    method Touch(project: string, cardId: string, now: nat)
      requires Valid()
      modifies this`lastActivity
      ensures Valid()
      ensures var k := Key(project, cardId); lastActivity == if k in byKey then old(lastActivity)[k := now] else old(lastActivity)
    {
      var k := Key(project, cardId);
      if k !in byKey { return; }
      lastActivity := lastActivity[k := now];
    }

    method SetReason(project: string, cardId: string, why: string)
      requires Valid()
      modifies this`reason
      ensures Valid()
      ensures var k := Key(project, cardId); reason == if k in byKey then old(reason)[k := why] else old(reason)
    {
      var k := Key(project, cardId);
      if k !in byKey { return; }
      reason := reason[k := why];
    }
  }
}
