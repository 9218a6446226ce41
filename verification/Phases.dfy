/**
 * The phase loop of one card over any number of processes: what the persisted phase
 * says about the phases before it, and how it moves.
 */
module Phases {
  const COUNT: nat := 8
  const EXECUTE: nat := 1
  const JUDGE: nat := 2

  function Name(k: nat): string
    requires k < COUNT
  {
    match k
    case 0 => "plan"
    case 1 => "execute"
    case 2 => "judge"
    case 3 => "document"
    case 4 => "review"
    case 5 => "integrate"
    case 6 => "pr_gates"
    case _ => "done"
  }

  lemma NamesDiffer(j: nat, k: nat)
    requires j < COUNT && k < COUNT && Name(j) == Name(k)
    ensures j == k
  {
    assert Name(0)[0] == 'p' && Name(1)[0] == 'e' && Name(2)[0] == 'j' && Name(3)[0] == 'd';
    assert Name(4)[0] == 'r' && Name(5)[0] == 'i' && Name(6)[0] == 'p' && Name(7)[0] == 'd';
    assert |Name(0)| == 4 && |Name(6)| == 8 && |Name(3)| == 8 && |Name(7)| == 4;
  }

  // indexOf(phaseOrder, name), COUNT for none.
  method IndexOf(name: string) returns (k: nat)
    ensures k <= COUNT && (k < COUNT ==> Name(k) == name)
    ensures k == COUNT ==> forall j :: 0 <= j < COUNT ==> Name(j) != name
  {
    k := 0;
    while k < COUNT
      invariant k <= COUNT && forall j :: 0 <= j < k ==> Name(j) != name
    {
      if Name(k) == name { return; }
      k := k + 1;
    }
  }

  datatype End = Finished | PhaseFailed(phase: nat) | NotPersisted(phase: nat) | UnknownPhase | NotReconciled | NoReview | Died

  // One persisted phase after another.
  predicate Moves(was: nat, next: nat) {
    next == was || next == was + 1 || (was == JUDGE && next == EXECUTE)
  }

  predicate Walk(written: seq<nat>) {
    && (forall i :: 0 <= i < |written| ==> written[i] < COUNT)
    && (written != [] ==> written[0] == 0)
    && forall i :: 0 <= i < |written| - 1 ==> Moves(written[i], written[i + 1])
  }

  // From a place on, one phase after another from the one given: as written, and as entered.
  predicate InOrder(written: seq<nat>, at: nat, from: nat) {
    at <= |written| && forall i :: at <= i < |written| ==> written[i] == from + i - at
  }

  predicate InBodies(entered: seq<(nat, string)>, at: nat, from: nat) {
    at <= |entered| && forall i :: at <= i < |entered| ==> entered[i].0 == from + i - at
  }

  // Where a process takes up: a judge starts over at execute, for what it judged is gone.
  function TakenUp(phase: string): string {
    if phase == "" then Name(0) else if phase == Name(JUDGE) then Name(EXECUTE) else phase
  }

  class Card {
    // What the board keeps.
    var phase: string
    var inReview: bool
    // Since the card was fresh: the phases whose body returned success, the phases
    // written, and for every body entered the phase the board had at that moment.
    ghost var succeeded: set<nat>
    ghost var written: seq<nat>
    ghost var enteredAs: seq<(nat, string)>

    // A persisted phase means every phase before it has succeeded, and it is the last
    // of a walk that only ever steps back from judge to execute.
    ghost predicate Valid()
      reads this
    {
      && Walk(written) && (phase == "" <==> written == [])
      && (written != [] ==>
            var p := written[|written| - 1];
            phase == Name(p) && forall q :: 0 <= q < p ==> q in succeeded)
      && forall e :: e in enteredAs ==> e.0 < COUNT && e.1 == Name(e.0)
    }

    constructor ()
      ensures Valid() && phase == "" && succeeded == {} && written == []
    {
      phase, inReview, succeeded, written, enteredAs := "", false, {}, [], [];
    }

    // SetPhase. The write may land though the call fails, and a call that succeeds has landed.
    method SetPhase(k: nat) returns (ok: bool)
      requires Valid() && k < COUNT && MayEnter(k)
      modifies this`phase, this`written
      ensures Valid() && (ok ==> phase == Name(k) && written == old(written) + [k])
      ensures !ok ==> (phase == Name(k) && written == old(written) + [k]) || (phase == old(phase) && written == old(written))
    {
      var landed: bool := *;
      ok := *;
      ok := ok && landed;
      if landed {
        phase := Name(k);
        written := written + [k];
      }
    }

    // A phase's body: entered under whatever the board has, ending as it likes.
    method RunBody(k: nat) returns (ok: bool)
      requires Valid() && k < COUNT && phase == Name(k)
      modifies this`succeeded, this`enteredAs
      ensures Valid() && enteredAs == old(enteredAs) + [(k, phase)]
      ensures succeeded == if ok then old(succeeded) + {k} else old(succeeded)
    {
      enteredAs := enteredAs + [(k, phase)];
      ok := *;
      if ok { succeeded := succeeded + {k}; }
    }

    // Where the next phase may be entered.
    ghost predicate MayEnter(k: nat)
      reads this
    {
      && (if written == [] then k == 0 else Moves(written[|written| - 1], k))
      && forall q :: 0 <= q < k ==> q in succeeded
    }

    // The loop over the phases from one on, each persisted before its body.
    method Advance(from: nat) returns (end: End)
      requires Valid() && from < COUNT && MayEnter(from)
      modifies this`phase, this`written, this`succeeded, this`enteredAs
      ensures Valid() && old(succeeded) <= succeeded && old(written) <= written
      ensures end == Finished ==> forall q :: 0 <= q < COUNT ==> q in succeeded
      ensures end != UnknownPhase
      ensures end != NotReconciled && end != NoReview
      ensures Went(|old(written)|, |old(enteredAs)|, from) && (end == Finished ==> Through(|old(written)|, |old(enteredAs)|, from, COUNT))
    {
      var k := from;
      ghost var w0, e0 := |written|, |enteredAs|;
      while k < COUNT
        invariant from <= k <= COUNT && Valid() && old(succeeded) <= succeeded && old(written) <= written
        invariant if k < COUNT then MayEnter(k) else forall q :: 0 <= q < COUNT ==> q in succeeded
        invariant Went(w0, e0, from) && Through(w0, e0, from, k)
      {
        var ok;
        ok, end := EnterNext(k, w0, e0, from);
        if !ok { return; }
        k := k + 1;
      }
      end := Finished;
    }

    // What was written and entered since: one phase after another from the one given, none
    // entered that was not written.
    ghost predicate Went(w0: nat, e0: nat, from: nat)
      reads this`written, this`enteredAs
    {
      && InOrder(written, w0, from) && InBodies(enteredAs, e0, from)
      && |enteredAs| - e0 <= |written| - w0
    }

    ghost predicate Through(w0: nat, e0: nat, from: nat, k: nat)
      reads this`written, this`enteredAs
    {
      |written| - w0 == k - from && |enteredAs| - e0 == k - from
    }

    method EnterNext(k: nat, ghost w0: nat, ghost e0: nat, ghost from: nat) returns (ok: bool, end: End)
      requires Valid() && k < COUNT && MayEnter(k) && from <= k && Went(w0, e0, from) && Through(w0, e0, from, k)
      modifies this`phase, this`written, this`succeeded, this`enteredAs
      ensures Valid() && old(succeeded) <= succeeded && old(written) <= written
      ensures ok ==> k in succeeded && written != [] && written[|written| - 1] == k
      ensures !ok ==> end == NotPersisted(k) || end == Died || end == PhaseFailed(k)
      ensures Went(w0, e0, from) && (ok ==> Through(w0, e0, from, k + 1))
    {
      ok, end := Enter(k);
    }

    // One phase: persisted, then entered.
    method Enter(k: nat) returns (ok: bool, end: End)
      requires Valid() && k < COUNT && MayEnter(k)
      modifies this`phase, this`written, this`succeeded, this`enteredAs
      ensures Valid() && old(succeeded) <= succeeded && old(written) <= written
      ensures ok ==> k in succeeded && phase == Name(k) && written == old(written) + [k]
      ensures ok ==> enteredAs == old(enteredAs) + [(k, Name(k))]
      ensures written == old(written) || written == old(written) + [k]
      ensures enteredAs == old(enteredAs) || (enteredAs == old(enteredAs) + [(k, Name(k))] && written == old(written) + [k])
      ensures !ok ==> end == NotPersisted(k) || end == Died || end == PhaseFailed(k)
    {
      end := Finished;
      var persisted := SetPhase(k);
      if !persisted { return false, NotPersisted(k); }
      var alive: bool := *;
      if !alive { return false, Died; }
      ok := RunBody(k);
      if !ok { end := PhaseFailed(k); }
    }

    // The place of the phase a process takes up.
    method Start() returns (from: nat)
      requires Valid()
      ensures from < COUNT && Name(from) == TakenUp(phase) && MayEnter(from)
    {
      var start := phase;
      if start == "" { start := Name(0); }
      ghost var resumed := start;
      if start == Name(JUDGE) { start := Name(EXECUTE); }
      from := IndexOf(start);
      assert Name(0)[0] != Name(JUDGE)[0];
      StartKnown(start, resumed);
      StartIs(from, start, resumed);
    }

    /**
     * execute, one process long: from the persisted phase on - from execute when that is
     * judge - each phase written, then entered, in order; none of the last ones entered
     * with the card out of review. A phase it wrote is never one it does not know.
     */
    method Execute() returns (end: End, ghost from: nat)
      requires Valid()
      modifies this
      ensures Valid() && old(succeeded) <= succeeded && old(written) <= written
      ensures end == Finished ==> forall q :: 0 <= q < COUNT ==> q in succeeded
      ensures end != UnknownPhase
      ensures from < COUNT && Name(from) == TakenUp(old(phase)) && Went(|old(written)|, |old(enteredAs)|, from)
      ensures end == Finished ==> Through(|old(written)|, |old(enteredAs)|, from, COUNT)
      ensures |enteredAs| > |old(enteredAs)| && (from == 5 || from == 6) ==> inReview
      ensures end == NotReconciled || end == NoReview ==> written == old(written) && enteredAs == old(enteredAs)
    {
      var at := Start();
      from := at;
      if at == COUNT { return UnknownPhase, from; }
      var reconciled: bool := *;
      if !reconciled { return NotReconciled, from; }
      if (at == 5 || at == 6) && !inReview {
        var started: bool := *;
        if !started { return NoReview, from; }
        inReview := true;
      }
      end := Advance(at);
    }

    lemma StartKnown(start: string, resumed: string)
      requires Valid()
      requires resumed == if phase == "" then Name(0) else phase
      requires start == if resumed == Name(JUDGE) then Name(EXECUTE) else resumed
      ensures exists k: nat :: k < COUNT && Name(k) == start
    {
      if start == Name(EXECUTE) {
      } else if phase == "" {
        assert start == Name(0);
      } else {
        assert start == Name(written[|written| - 1]);
      }
    }

    // Where a resumed run starts: at its phase, or one back from judge.
    lemma StartIs(from: nat, start: string, resumed: string)
      requires Valid() && from < COUNT && Name(from) == start
      requires resumed == if phase == "" then Name(0) else phase
      requires start == if resumed == Name(JUDGE) then Name(EXECUTE) else resumed
      ensures MayEnter(from)
    {
      if written == [] {
        assert resumed == "plan" && Name(JUDGE) == "judge";
        assert "plan"[0] != "judge"[0];
        NamesDiffer(from, 0);
      } else {
        var p := written[|written| - 1];
        assert phase == Name(p) && phase != "";
        if resumed == Name(JUDGE) {
          NamesDiffer(p, JUDGE);
          NamesDiffer(from, EXECUTE);
        } else {
          NamesDiffer(from, p);
        }
      }
    }

    /**
     * Any number of processes, ending anywhere: a persisted phase p means every phase
     * before p has succeeded since the card was fresh, no body ran under another name
     * than its own, and the phase only ever moved back from judge to execute.
     */
    method Lives(n: nat)
      requires Valid()
      modifies this
      ensures Valid() && old(succeeded) <= succeeded && old(written) <= written
    {
      for i := 0 to n
        invariant Valid() && old(succeeded) <= succeeded && old(written) <= written
      {
        var end, from := Execute();
        // The board may move the card out of review between runs.
        inReview := *;
      }
    }
  }
}
