/**
 * One triage round's decisions: which comments are new, which are still open, what
 * verdict each is recorded with, and when a round that leaves nothing to fix has
 * really dismissed every comment.
 */
module Triage {
  import opened CommentKeys
  import opened Seqs

  datatype Finding = Finding(file: string, issue: string, valid: bool, reason: string)

  // The verdicts on record, by comment key: true for VALID.
  type Seen = map<string, bool>

  function KeyOf(c: Comment): string {
    Key(c.path, c.body)
  }

  // ---- New and still open -------------------------------------------------------------

  function Unseen(cs: seq<Comment>, seen: Seen): (r: seq<Comment>)
    ensures forall c :: c in r <==> c in cs && KeyOf(c) !in seen
  {
    if cs == [] then []
    else
      var n := |cs| - 1;
      assert cs == cs[..n] + [cs[n]];
      Unseen(cs[..n], seen) + (if KeyOf(cs[n]) in seen then [] else [cs[n]])
  }

  function StillOpen(cs: seq<Comment>, seen: Seen): (r: seq<Comment>)
    ensures forall c :: c in r <==> c in cs && KeyOf(c) in seen && seen[KeyOf(c)]
  {
    if cs == [] then []
    else
      var n := |cs| - 1;
      assert cs == cs[..n] + [cs[n]];
      StillOpen(cs[..n], seen) + (if KeyOf(cs[n]) in seen && seen[KeyOf(cs[n])] then [cs[n]] else [])
  }

  function IsNew(seen: Seen): Comment -> bool {
    c => KeyOf(c) !in seen
  }

  function IsOpen(seen: Seen): Comment -> bool {
    c => KeyOf(c) in seen && seen[KeyOf(c)]
  }

  function IsValid(): Finding -> bool {
    (f: Finding) => f.valid
  }

  /** Every comment without a verdict on record is among the new ones, each place once and in order. */
  lemma {:induction false} UnseenSifts(cs: seq<Comment>, seen: Seen) returns (at: seq<nat>)
    ensures Sifts(cs, Unseen(cs, seen), at, IsNew(seen))
  {
    if cs == [] {
      at := [];
      SiftsNothing(IsNew(seen));
    } else {
      var front := UnseenSifts(cs[..|cs| - 1], seen);
      at := SiftsLast(cs, Unseen(cs[..|cs| - 1], seen), front, IsNew(seen));
      assert Unseen(cs[..|cs| - 1], seen) + [] == Unseen(cs[..|cs| - 1], seen);
    }
  }

  /** And every one on record as VALID among those still open. */
  lemma {:induction false} StillOpenSifts(cs: seq<Comment>, seen: Seen) returns (at: seq<nat>)
    ensures Sifts(cs, StillOpen(cs, seen), at, IsOpen(seen))
  {
    if cs == [] {
      at := [];
      SiftsNothing(IsOpen(seen));
    } else {
      var front := StillOpenSifts(cs[..|cs| - 1], seen);
      at := SiftsLast(cs, StillOpen(cs[..|cs| - 1], seen), front, IsOpen(seen));
      assert StillOpen(cs[..|cs| - 1], seen) + [] == StillOpen(cs[..|cs| - 1], seen);
    }
  }

  method UnseenComments(comments: seq<Comment>, triaged: Seen) returns (novel: seq<Comment>)
    ensures novel == Unseen(comments, triaged)
  {
    novel := [];
    for i := 0 to |comments|
      invariant novel == Unseen(comments[..i], triaged)
    {
      assert comments[..i + 1][..i] == comments[..i];
      if KeyOf(comments[i]) !in triaged {
        novel := novel + [comments[i]];
      }
    }
    assert comments[..|comments|] == comments;
  }

  method RepeatedValidComments(comments: seq<Comment>, triaged: Seen) returns (reopened: seq<Comment>)
    ensures reopened == StillOpen(comments, triaged)
  {
    reopened := [];
    for i := 0 to |comments|
      invariant reopened == StillOpen(comments[..i], triaged)
    {
      assert comments[..i + 1][..i] == comments[..i];
      if KeyOf(comments[i]) in triaged && triaged[KeyOf(comments[i])] {
        reopened := reopened + [comments[i]];
      }
    }
    assert comments[..|comments|] == comments;
  }

  // ---- Verdicts ---------------------------------------------------------------------------

  predicate Names(f: Finding, c: Comment) {
    f.file == c.path
  }

  // A finding judges the comment in its place when the counts match, else every
  // comment of its path.
  predicate Judged(cs: seq<Comment>, fs: seq<Finding>, i: nat)
    requires i < |cs|
  {
    |fs| == |cs| || exists j :: 0 <= j < |fs| && Names(fs[j], cs[i])
  }

  predicate Condemned(cs: seq<Comment>, fs: seq<Finding>, i: nat)
    requires i < |cs|
  {
    if |fs| == |cs| then fs[i].valid else exists j :: 0 <= j < |fs| && Names(fs[j], cs[i]) && fs[j].valid
  }

  // A comment no finding judges reads VALID.
  function Verdicts(cs: seq<Comment>, fs: seq<Finding>): (vs: seq<bool>)
    ensures |vs| == |cs| && forall i :: 0 <= i < |cs| ==> vs[i] == (!Judged(cs, fs, i) || Condemned(cs, fs, i))
  {
    seq(|cs|, i requires 0 <= i < |cs| => !Judged(cs, fs, i) || Condemned(cs, fs, i))
  }

  method CopilotCommentVerdicts(comments: seq<Comment>, findings: seq<Finding>) returns (verdicts: seq<bool>)
    ensures verdicts == Verdicts(comments, findings)
  {
    verdicts := [];
    for i := 0 to |comments|
      invariant |verdicts| == i
      invariant forall k :: 0 <= k < i ==> verdicts[k] == Verdicts(comments, findings)[k]
    {
      var judged, valid := false, false;
      if |findings| == |comments| {
        judged, valid := true, findings[i].valid;
      } else {
        for j := 0 to |findings|
          invariant judged <==> exists k :: 0 <= k < j && Names(findings[k], comments[i])
          invariant valid <==> exists k :: 0 <= k < j && Names(findings[k], comments[i]) && findings[k].valid
        {
          if Names(findings[j], comments[i]) {
            judged, valid := true, valid || findings[j].valid;
          }
        }
      }
      verdicts := verdicts + [!judged || valid];
    }
  }

  function Keys(cs: seq<Comment>): (ks: seq<string>)
    ensures |ks| == |cs|
    ensures forall i :: 0 <= i < |cs| ==> ks[i] == KeyOf(cs[i])
  {
    if cs == [] then [] else Keys(cs[..|cs| - 1]) + [KeyOf(cs[|cs| - 1])]
  }

  // The verdicts written under their keys, in order.
  function Put(seen: Seen, ks: seq<string>, vs: seq<bool>): Seen
    requires |ks| == |vs|
  {
    if ks == [] then seen else var n := |ks| - 1; Put(seen, ks[..n], vs[..n])[ks[n] := vs[n]]
  }

  function Noted(seen: Seen, cs: seq<Comment>, vs: seq<bool>): Seen
    requires |cs| == |vs|
  {
    Put(seen, Keys(cs), vs)
  }

  method NoteVerdicts(comments: seq<Comment>, verdicts: seq<bool>, triaged: Seen) returns (r: Seen)
    requires |comments| == |verdicts|
    ensures r == Noted(triaged, comments, verdicts)
  {
    r := triaged;
    ghost var ks := Keys(comments);
    for i := 0 to |comments|
      invariant r == Put(triaged, ks[..i], verdicts[..i])
    {
      assert ks[..i + 1][..i] == ks[..i] && verdicts[..i + 1][..i] == verdicts[..i];
      r := r[KeyOf(comments[i]) := verdicts[i]];
    }
    assert ks[..|comments|] == ks && verdicts[..|verdicts|] == verdicts;
  }

  // The last of its key: the one whose verdict the record keeps.
  predicate Latest(ks: seq<string>, i: nat)
    requires i < |ks|
  {
    forall j :: i < j < |ks| ==> ks[j] != ks[i]
  }

  lemma {:induction false} PutAt(seen: Seen, ks: seq<string>, vs: seq<bool>, i: nat)
    requires |ks| == |vs| && i < |ks| && Latest(ks, i)
    ensures ks[i] in Put(seen, ks, vs) && Put(seen, ks, vs)[ks[i]] == vs[i]
  {
    var n := |ks| - 1;
    if i < n { PutAt(seen, ks[..n], vs[..n], i); }
  }

  lemma {:induction false} PutOther(seen: Seen, ks: seq<string>, vs: seq<bool>, k: string)
    requires |ks| == |vs| && k !in ks
    ensures k in Put(seen, ks, vs) <==> k in seen
    ensures k in seen ==> Put(seen, ks, vs)[k] == seen[k]
  {
    if ks != [] {
      var n := |ks| - 1;
      assert ks[n] != k;
      PutOther(seen, ks[..n], vs[..n], k);
    }
  }

  lemma {:induction false} LatestOf(ks: seq<string>, k: nat) returns (i: nat)
    requires k < |ks|
    ensures i < |ks| && Latest(ks, i) && ks[i] == ks[k]
    decreases |ks| - k
  {
    if Latest(ks, k) {
      i := k;
    } else {
      var j :| k < j < |ks| && ks[j] == ks[k];
      i := LatestOf(ks, j);
    }
  }

  // ---- What the triage answers -------------------------------------------------------------

  datatype Answer = Unreadable | Read(findings: seq<Finding>)

  function AsFindings(cs: seq<Comment>, reason: string): (fs: seq<Finding>)
    ensures |fs| == |cs| && forall i :: 0 <= i < |cs| ==> fs[i].valid && Names(fs[i], cs[i])
    ensures forall i :: 0 <= i < |cs| ==> fs[i].issue == Flatten(cs[i].body) && fs[i].reason == reason
  {
    if cs == [] then []
    else
      var n := |cs| - 1;
      AsFindings(cs[..n], reason) + [Finding(cs[n].path, Flatten(cs[n].body), true, reason)]
  }

  method CommentsAsFindings(comments: seq<Comment>, reason: string) returns (findings: seq<Finding>)
    ensures findings == AsFindings(comments, reason)
  {
    findings := [];
    for i := 0 to |comments|
      invariant findings == AsFindings(comments[..i], reason)
    {
      assert comments[..i + 1][..i] == comments[..i];
      findings := findings + [Finding(comments[i].path, Flatten(comments[i].body), true, reason)];
    }
    assert comments[..|comments|] == comments;
  }

  // What stands after the triage answered: a comment it did not judge at all is a finding.
  function Standing(answer: Answer, cs: seq<Comment>, unreadable: string, unjudged: string): seq<Finding> {
    match answer
    case Unreadable => AsFindings(cs, unreadable)
    case Read(fs) => if cs != [] && fs == [] then AsFindings(cs, unjudged) else fs
  }

  function ValidOnly(fs: seq<Finding>): (r: seq<Finding>)
    ensures r == [] <==> forall i :: 0 <= i < |fs| ==> !fs[i].valid
    ensures forall f :: f in r ==> f.valid && f in fs
  {
    if fs == [] then []
    else
      var n := |fs| - 1;
      assert fs == fs[..n] + [fs[n]];
      ValidOnly(fs[..n]) + (if fs[n].valid then [fs[n]] else [])
  }

  /** Every valid finding is kept, each place once and in order. */
  lemma {:induction false} ValidSifts(fs: seq<Finding>) returns (at: seq<nat>)
    ensures Sifts(fs, ValidOnly(fs), at, IsValid())
  {
    if fs == [] {
      at := [];
      SiftsNothing(IsValid());
    } else {
      var front := ValidSifts(fs[..|fs| - 1]);
      at := SiftsLast(fs, ValidOnly(fs[..|fs| - 1]), front, IsValid());
      assert ValidOnly(fs[..|fs| - 1]) + [] == ValidOnly(fs[..|fs| - 1]);
    }
  }

  method ValidCopilotFindings(findings: seq<Finding>) returns (valid: seq<Finding>)
    ensures valid == ValidOnly(findings)
  {
    valid := [];
    for i := 0 to |findings|
      invariant valid == ValidOnly(findings[..i])
    {
      assert findings[..i + 1][..i] == findings[..i];
      if findings[i].valid {
        valid := valid + [findings[i]];
      }
    }
    assert findings[..|findings|] == findings;
  }

  // ---- When nothing is left to fix -----------------------------------------------------------

  predicate Dismissed(c: Comment, seen: Seen) {
    KeyOf(c) in seen && !seen[KeyOf(c)]
  }

  predicate AllInvalid(cs: seq<Comment>, seen: Seen) {
    forall c :: c in cs ==> Dismissed(c, seen)
  }

  // Each verdict the record keeps of this round is backed by a finding.
  predicate AllJudged(novel: seq<Comment>, fs: seq<Finding>) {
    forall i :: 0 <= i < |novel| && Latest(Keys(novel), i) ==> Judged(novel, fs, i)
  }

  /**
   * A round that leaves nothing to fix has every comment of the review on record as
   * INVALID exactly when the triage judged each of the new ones. An entry the triage
   * omits is recorded VALID and the gate is satisfied all the same.
   */
  lemma SatisfiedMeansDismissed(cs: seq<Comment>, seen: Seen, fs: seq<Finding>)
    requires StillOpen(cs, seen) == [] && ValidOnly(fs) == []
    ensures var novel := Unseen(cs, seen);
            AllInvalid(cs, Noted(seen, novel, Verdicts(novel, fs))) <==> AllJudged(novel, fs)
  {
    var novel := Unseen(cs, seen);
    var after := Noted(seen, novel, Verdicts(novel, fs));
    if AllJudged(novel, fs) {
      forall c | c in cs ensures Dismissed(c, after) {
        if KeyOf(c) in seen { OldStaysInvalid(cs, seen, fs, c); } else { NewIsInvalid(novel, seen, fs, c); }
      }
    } else {
      var i :| 0 <= i < |novel| && Latest(Keys(novel), i) && !Judged(novel, fs, i);
      PutAt(seen, Keys(novel), Verdicts(novel, fs), i);
      assert novel[i] in novel;
      assert !Dismissed(novel[i], after);
    }
  }

  lemma OldStaysInvalid(cs: seq<Comment>, seen: Seen, fs: seq<Finding>, c: Comment)
    requires c in cs && KeyOf(c) in seen && StillOpen(cs, seen) == []
    ensures var novel := Unseen(cs, seen); Dismissed(c, Noted(seen, novel, Verdicts(novel, fs)))
  {
    var novel := Unseen(cs, seen);
    assert c !in StillOpen(cs, seen);
    assert KeyOf(c) !in Keys(novel) by {
      assert forall i :: 0 <= i < |novel| ==> novel[i] in novel;
    }
    PutOther(seen, Keys(novel), Verdicts(novel, fs), KeyOf(c));
  }

  lemma NewIsInvalid(novel: seq<Comment>, seen: Seen, fs: seq<Finding>, c: Comment)
    requires c in novel && AllJudged(novel, fs) && ValidOnly(fs) == []
    ensures Dismissed(c, Noted(seen, novel, Verdicts(novel, fs)))
  {
    var k :| 0 <= k < |novel| && novel[k] == c;
    var i := LatestOf(Keys(novel), k);
    assert Judged(novel, fs, i) && !Condemned(novel, fs, i);
    PutAt(seen, Keys(novel), Verdicts(novel, fs), i);
  }

  /** A triage that answers one entry per comment, or none at all, judges every one. */
  lemma FullAnswerJudgesAll(answer: Answer, novel: seq<Comment>, unreadable: string, unjudged: string)
    requires answer.Read? ==> answer.findings == [] || |answer.findings| == |novel|
    ensures AllJudged(novel, Standing(answer, novel, unreadable, unjudged))
  {
  }

  lemma OneMoreNew(cs: seq<Comment>, c: Comment, seen: Seen)
    requires Unseen(cs, seen) == cs && StillOpen(cs, seen) == [] && KeyOf(c) !in seen
    ensures Unseen(cs + [c], seen) == cs + [c] && StillOpen(cs + [c], seen) == []
  {
    assert (cs + [c])[..|cs|] == cs;
  }

  /** The omission: two comments, one INVALID entry - nothing is open, yet the other one is on record as VALID. */
  lemma OmittedEntryPasses(a: Comment, b: Comment, seen: Seen, f: Finding)
    requires a.path != b.path && KeyOf(a) !in seen && KeyOf(b) !in seen
    requires f.file == a.path && !f.valid
    ensures var cs := [a] + [b];
            && StillOpen(cs, seen) == [] && ValidOnly(Standing(Read([f]), Unseen(cs, seen), "", "")) == []
            && !AllInvalid(cs, Noted(seen, Unseen(cs, seen), Verdicts(Unseen(cs, seen), [f])))
  {
    var cs := [a] + [b];
    assert [] + [a] == [a];
    OneMoreNew([], a, seen);
    OneMoreNew([a], b, seen);
    OneFinding(f);
    SatisfiedMeansDismissed(cs, seen, [f]);
    SecondUnjudged(cs, [f]);
  }

  lemma OneFinding(f: Finding)
    requires !f.valid
    ensures ValidOnly([f]) == []
  {
    assert [f][..0] == [];
  }

  lemma SecondUnjudged(cs: seq<Comment>, fs: seq<Finding>)
    requires |cs| == 2 && |fs| == 1 && !Names(fs[0], cs[1])
    ensures !AllJudged(cs, fs)
  {
    assert Latest(Keys(cs), 1) && !Judged(cs, fs, 1);
  }
}
