/** Slices of concatenations, each its own small fact. */
module Seqs {
  lemma DropOver<T>(x: seq<T>, y: seq<T>, k: nat)
    requires k <= |y|
    ensures (x + y)[|x| + k..] == y[k..]
  {
  }

  lemma DropIn<T>(x: seq<T>, y: seq<T>, k: nat)
    requires k <= |x|
    ensures (x + y)[k..] == x[k..] + y
  {
  }

  lemma Assoc<T>(x: seq<T>, y: seq<T>, z: seq<T>)
    ensures (x + y) + z == x + (y + z)
  {
  }

  lemma DropSplit<T>(s: seq<T>, front: seq<T>, from: nat)
    requires from <= |front| <= |s| && s[..|front|] == front
    ensures s[from..] == front[from..] + s[|front|..]
  {
  }

  lemma SliceOfSlice<T>(s: seq<T>, from: nat, n: nat, at: nat, k: nat)
    requires from + n <= |s| && at + k <= n
    ensures s[from..from + n][at..at + k] == s[from + at..from + at + k]
  {
    var x, y := s[from..from + n][at..at + k], s[from + at..from + at + k];
    assert |x| == |y|;
    forall i | 0 <= i < k ensures x[i] == y[i] {}
  }

  lemma LastOf<T>(x: seq<T>, y: seq<T>)
    requires y != []
    ensures var n := |x + y| - 1; (x + y)[n] == y[|y| - 1] && (x + y)[..n] == x + y[..|y| - 1]
  {
  }

  lemma SplitAt<T>(s: seq<T>, i: nat)
    requires i < |s|
    ensures s == s[..i] + ([s[i]] + s[i + 1..])
    ensures s == (s[..i] + [s[i]]) + s[i + 1..]
  {
  }

  lemma SetAt<T>(x: seq<T>, y: seq<T>, t: T)
    requires y != []
    ensures (x + y)[|x| := t] == (x + [t]) + y[1..]
    ensures x + y == (x + [y[0]]) + y[1..]
  {
  }

  lemma TakeSnoc<T>(s: seq<T>, i: nat)
    requires i < |s|
    ensures s[..i + 1] == s[..i] + [s[i]] && s[i..][1..] == s[i + 1..] && s[i..][0] == s[i]
  {
  }

  lemma PrefixIn<T>(p: seq<T>, x: seq<T>, y: seq<T>)
    requires |p| <= |x|
    ensures p <= x + y <==> p <= x
  {
    assert (x + y)[..|p|] == x[..|p|];
  }

  // A slice that starts with a head: its first element, and the rest of it.
  lemma HeadSlices<T>(s: seq<T>, i: nat, head: seq<T>)
    requires i < |s| && head != [] && head <= s[i..]
    ensures s[i] == head[0] && s[i + 1..] == head[1..] + s[i + |head|..]
  {
    assert s[i..] == head + s[i + |head|..];
    assert s[i + 1..] == s[i..][1..];
  }

  lemma DropOverTwo<T>(x: seq<T>, y: seq<T>, z: seq<T>, k: nat)
    requires k <= |z|
    ensures (x + (y + z))[|x| + |y| + k..] == z[k..]
  {
    DropOver(x, y + z, |y| + k);
    DropOver(y, z, k);
  }

  // ---- Permutations -----------------------------------------------------------------------

  predicate NoRepeats<T(==)>(s: seq<T>) {
    forall i, j :: 0 <= i < j < |s| ==> s[i] != s[j]
  }

  lemma CountTwice<T>(s: seq<T>, i: nat, j: nat)
    requires i < j < |s| && s[i] == s[j]
    ensures multiset(s)[s[i]] >= 2
  {
    assert s == s[..j] + [s[j]] + s[j + 1..];
    assert s[..j][i] == s[i];
    assert s[i] in multiset(s[..j]);
  }

  lemma {:induction false} CountOnce<T>(s: seq<T>, x: T)
    requires NoRepeats(s)
    ensures multiset(s)[x] <= 1
  {
    if s != [] {
      var init, last := s[..|s| - 1], s[|s| - 1];
      assert s == init + [last];
      CountOnce(init, x);
      assert x in multiset(init) <==> x in init;
      assert forall i :: 0 <= i < |init| ==> s[i] == init[i] && init[i] != last;
    }
  }

  lemma SameBagNoRepeats<T>(a: seq<T>, b: seq<T>)
    requires multiset(a) == multiset(b) && NoRepeats(b)
    ensures NoRepeats(a) && |a| == |b| && forall x :: x in a <==> x in b
  {
    assert |a| == |multiset(a)| == |multiset(b)| == |b|;
    forall i, j | 0 <= i < j < |a| ensures a[i] != a[j] {
      if a[i] == a[j] {
        CountTwice(a, i, j);
        CountOnce(b, a[i]);
      }
    }
    forall x ensures x in a <==> x in b { assert x in multiset(a) <==> x in multiset(b); }
  }

  // ---- Sifting ------------------------------------------------------------------------------

  // The second list holds the elements of the first that pass, each once and in order: the
  // positions are where they stand.
  ghost predicate Sifts<T>(s: seq<T>, r: seq<T>, at: seq<nat>, passes: T -> bool) {
    && |at| == |r| && (forall k :: 0 <= k < |r| ==> at[k] < |s| && r[k] == s[at[k]])
    && (forall j, k :: 0 <= j < k < |at| ==> at[j] < at[k])
    && forall i :: 0 <= i < |s| ==> (passes(s[i]) <==> i in at)
  }

  // The same where what passes is told by the place.
  ghost predicate SiftsPlaces<T>(s: seq<T>, r: seq<T>, at: seq<nat>, passes: nat -> bool) {
    Picks(s, r, at) && Places(|s|, at, passes)
  }

  ghost predicate Picks<T>(s: seq<T>, r: seq<T>, at: seq<nat>) {
    && |at| == |r| && (forall k :: 0 <= k < |r| ==> at[k] < |s| && r[k] == s[at[k]])
    && forall j, k :: 0 <= j < k < |at| ==> at[j] < at[k]
  }

  ghost predicate Places(n: nat, at: seq<nat>, passes: nat -> bool) {
    forall i: nat :: i < n ==> (passes(i) <==> i in at)
  }

  lemma PicksOn<T>(s: seq<T>, r: seq<T>, at: seq<nat>, x: T)
    requires Picks(s, r, at)
    ensures Picks(s + [x], r, at) && Picks(s + [x], r + [x], at + [|s|])
  {
  }

  lemma PlacesOn(n: nat, at: seq<nat>, passes: nat -> bool)
    requires Places(n, at, passes) && forall k :: 0 <= k < |at| ==> at[k] < n
    ensures Places(n + 1, if passes(n) then at + [n] else at, passes)
  {
    var at' := if passes(n) then at + [n] else at;
    forall i: nat | i < n + 1 ensures passes(i) <==> i in at' {
      if i < n { assert i in at' <==> i in at; } else if !passes(n) { assert i !in at; }
    }
  }

  lemma SiftsPlacesOn<T>(s: seq<T>, r: seq<T>, at: seq<nat>, passes: nat -> bool, x: T) returns (at': seq<nat>)
    requires SiftsPlaces(s, r, at, passes)
    ensures SiftsPlaces(s + [x], if passes(|s|) then r + [x] else r, at', passes)
  {
    PicksOn(s, r, at, x);
    PlacesOn(|s|, at, passes);
    at' := if passes(|s|) then at + [|s|] else at;
  }

  lemma SiftsNothing<T>(passes: T -> bool)
    ensures Sifts([], [], [], passes)
  {
  }

  lemma SiftsOn<T>(s: seq<T>, r: seq<T>, at: seq<nat>, passes: T -> bool, x: T)
    requires Sifts(s, r, at, passes)
    ensures Sifts(s + [x], if passes(x) then r + [x] else r, if passes(x) then at + [|s|] else at, passes)
  {
    var at' := if passes(x) then at + [|s|] else at;
    assert forall k :: 0 <= k < |at| ==> at[k] in at && at'[k] == at[k];
    assert passes(x) ==> at'[|at|] == |s|;
    forall i | 0 <= i < |s| + 1 ensures passes((s + [x])[i]) <==> i in at' {
      if i < |s| {
        assert i in at' <==> i in at;
      } else if !passes(x) {
        assert i !in at;
      }
    }
  }

  // The same of a list and the sifting of all but its last.
  lemma SiftsLast<T>(s: seq<T>, r: seq<T>, at: seq<nat>, passes: T -> bool) returns (at': seq<nat>)
    requires s != [] && Sifts(s[..|s| - 1], r, at, passes)
    ensures Sifts(s, if passes(s[|s| - 1]) then r + [s[|s| - 1]] else r, at', passes)
  {
    var n := |s| - 1;
    SiftsOn(s[..n], r, at, passes, s[n]);
    assert s[..n] + [s[n]] == s;
    at' := if passes(s[n]) then at + [n] else at;
  }
}
