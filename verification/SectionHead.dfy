/**
 * The first lines of a section: which writes of another section they survive, and
 * what a reader is handed instead when they do not.
 */
module SectionHead {
  import opened Text
  import opened Sections
  import opened SectionLaws
  import opened Seqs

  // The first section the test opens in the body starts with these lines.
  predicate StartsWith(ls: seq<string>, opens: LineTest, head: seq<string>) {
    var i := First(ls, opens);
    i < |ls| && head <= ls[i..]
  }

  // Lines a section can start with and be read back: headed by a column-0 opening
  // line, no further heading, not ending in a blank line.
  predicate HeadLines(head: seq<string>, opens: LineTest) {
    && head != [] && opens(head[0]) && IsHeading(head[0])
    && Headless(head[1..]) && head[|head| - 1] != ""
  }

  lemma PrefixSplit<T>(head: seq<T>, ls: seq<T>)
    requires head <= ls
    ensures ls == head + ls[|head|..]
  {
  }

  // What a reader extracts starts with them.
  lemma HeadIsRead(ls: seq<string>, opens: LineTest, head: seq<string>)
    requires HeadLines(head, opens) && StartsWith(ls, opens, head)
    ensures head <= ExtractLines(ls, opens)
  {
    HeadOfBlock(ls, First(ls, opens), head);
  }

  lemma HeadOfBlock(ls: seq<string>, i: nat, head: seq<string>)
    requires i < |ls| && head != [] && head <= ls[i..] && Headless(head[1..]) && head[|head| - 1] != ""
    ensures head <= BlockAt(ls, i)
  {
    HeadSlices(ls, i, head);
    OpenedBlock(head, ls[i + |head|..]);
    DropTrailAppend(head, Cut(ls[i + |head|..]));
    assert DropTrail(head) == head;
  }

  lemma OpenedBlock(head: seq<string>, tail: seq<string>)
    requires head != [] && Headless(head[1..])
    ensures [head[0]] + Cut(head[1..] + tail) == head + Cut(tail)
  {
    CutAppend(head[1..], tail);
    CutParts(head[1..]);
    assert [head[0]] + head[1..] == head;
    Assoc([head[0]], head[1..], Cut(tail));
  }

  // A write that starts with them leaves them there.
  lemma HeadIsWritten(ls: seq<string>, opens: LineTest, head: seq<string>, sec: seq<string>)
    requires !opens("") && HeadLines(head, opens) && head <= sec
    ensures StartsWith(UpsertLines(ls, opens, sec), opens, head)
  {
    assert sec[0] == head[0];
    var s := SidesOf(ls, opens);
    HeadOpensNothing(s.before, opens);
    assert First(sec, opens) == 0 && sec[0..] == sec;
    StartsBehind(Head(DropTrail(s.before)), sec, [""] + Foot(s.after), opens);
  }

  // What a write leaves behind what stood in front of the section it replaces.
  function Behind(ls: seq<string>, other: LineTest, sec: seq<string>): seq<string> {
    var i := First(ls, other);
    sec + ([""] + Foot(if i == |ls| then [] else Rest(ls[i + 1..])))
  }

  // They stand in front of the section written, or the text does not open their
  // section, or the first place where it does starts with the very same lines.
  predicate Survives(ls: seq<string>, opens: LineTest, head: seq<string>, other: LineTest, sec: seq<string>) {
    || First(ls, opens) < First(ls, other)
    || NoneOpens(sec, opens)
    || head <= Behind(ls, other, sec)[First(sec, opens)..]
  }

  /** They survive a write of another section, in any body and whatever it says, exactly then. */
  lemma HeadSurvives(ls: seq<string>, opens: LineTest, head: seq<string>, other: LineTest, sec: seq<string>)
    requires !opens("") && HeadLines(head, opens) && StartsWith(ls, opens, head) && NoneOpens(head, other)
    ensures StartsWith(UpsertLines(ls, other, sec), opens, head) <==> Survives(ls, opens, head, other, sec)
  {
    var s := SidesOf(ls, other);
    SidesWritten(s, ls, other, sec);
    FirstAppend(s.before, s.gone + s.after, opens);
    SidesDecide(s, opens, head, other, sec);
  }

  // The same of a body split at the section the write replaces.
  lemma SidesDecide(s: Sides, opens: LineTest, head: seq<string>, other: LineTest, sec: seq<string>)
    requires !opens("") && HeadLines(head, opens) && NoneOpens(head, other)
    requires s.Of(s.before + (s.gone + s.after), other) && StartsWith(s.before + (s.gone + s.after), opens, head)
    ensures var tail := [""] + Foot(s.after);
            StartsWith(Head(DropTrail(s.before)) + (sec + tail), opens, head) <==>
            First(s.before, opens) < |s.before| || NoneOpens(sec, opens) || head <= (sec + tail)[First(sec, opens)..]
  {
    if First(s.before, opens) < |s.before| {
      InFront(s, opens, head, other, sec + ([""] + Foot(s.after)));
    } else if NoneOpens(sec, opens) {
      QuietText(s, opens, head, other, sec);
    } else {
      HeadOpensNothing(s.before, opens);
      FirstBehind(Head(DropTrail(s.before)), sec, [""] + Foot(s.after), opens);
    }
  }

  lemma InFront(s: Sides, opens: LineTest, head: seq<string>, other: LineTest, written: seq<string>)
    requires !opens("") && HeadLines(head, opens) && NoneOpens(head, other)
    requires s.Of(s.before + (s.gone + s.after), other) && StartsWith(s.before + (s.gone + s.after), opens, head)
    requires First(s.before, opens) < |s.before|
    ensures StartsWith(Head(DropTrail(s.before)) + written, opens, head)
  {
    FirstAppend(s.before, s.gone + s.after, opens);
    HeadBefore(s, opens, head, other);
    FirstPart(Head(DropTrail(s.before)), written, opens, head);
  }

  // Text that does not open their section, written in front of it.
  lemma QuietText(s: Sides, opens: LineTest, head: seq<string>, other: LineTest, sec: seq<string>)
    requires !opens("") && HeadLines(head, opens) && NoneOpens(head, other) && NoneOpens(s.before, opens)
    requires s.Of(s.before + (s.gone + s.after), other) && NoneOpens(sec, opens)
    requires StartsWith(s.before + (s.gone + s.after), opens, head)
    ensures StartsWith(Head(DropTrail(s.before)) + (sec + ([""] + Foot(s.after))), opens, head)
  {
    HeadOpensNothing(s.before, opens);
    HeadBehind(s, opens, head, other);
    LastPart(Head(DropTrail(s.before)) + sec, s.after, opens, head, s.before, sec);
    Assoc(Head(DropTrail(s.before)), sec, [""] + Foot(s.after));
  }

  lemma FirstBehind(front: seq<string>, sec: seq<string>, tail: seq<string>, opens: LineTest)
    requires NoneOpens(front, opens) && !NoneOpens(sec, opens)
    ensures var r, k := front + (sec + tail), First(sec, opens);
            First(r, opens) == |front| + k < |r| && r[|front| + k..] == (sec + tail)[k..]
  {
    FirstAppend(front, sec + tail, opens);
    FirstAppend(sec, tail, opens);
    DropOver(front, sec + tail, First(sec, opens));
  }

  lemma FirstPart(x: seq<string>, y: seq<string>, opens: LineTest, head: seq<string>)
    requires StartsWith(x, opens, head)
    ensures StartsWith(x + y, opens, head)
  {
    var i := First(x, opens);
    FirstAppend(x, y, opens);
    assert (x + y)[i..] == x[i..] + y;
  }

  lemma LastPart(front: seq<string>, after: seq<string>, opens: LineTest, head: seq<string>, before: seq<string>, sec: seq<string>)
    requires !opens("") && front == Head(DropTrail(before)) + sec
    requires NoneOpens(Head(DropTrail(before)), opens) && NoneOpens(sec, opens)
    requires StartsWith(after, opens, head)
    ensures StartsWith(front + ([""] + Foot(after)), opens, head)
  {
    FirstAppend(Head(DropTrail(before)), sec, opens);
    assert First([""], opens) == 1;
    FirstPart(after, [""], opens, head);
    FirstAppend([""], Foot(after), opens);
    FirstAppend(front, [""] + Foot(after), opens);
    var g := First(Foot(after), opens);
    assert (front + ([""] + Foot(after)))[|front| + 1 + g..] == Foot(after)[g..];
  }

  lemma {:induction false} NoneAt(ls: seq<string>, opens: LineTest, k: nat)
    requires NoneOpens(ls, opens) && k < |ls|
    ensures !opens(ls[k])
  {
    if k > 0 { NoneAt(ls[1..], opens, k - 1); }
  }

  lemma {:induction false} HeadlessAt(ls: seq<string>, k: nat)
    requires Headless(ls) && k < |ls|
    ensures !IsHeading(ls[k])
  {
    if k > 0 { HeadlessAt(ls[1..], k - 1); }
  }

  // The head stands before the section the other write replaces.
  lemma HeadBefore(s: Sides, opens: LineTest, head: seq<string>, other: LineTest)
    requires !opens("") && HeadLines(head, opens) && NoneOpens(head, other)
    requires s.Of(s.before + (s.gone + s.after), other)
    requires First(s.before, opens) < |s.before|
    requires head <= (s.before + (s.gone + s.after))[First(s.before, opens)..]
    ensures var kept := Head(DropTrail(s.before));
            First(kept, opens) == First(s.before, opens) < |kept| && head <= kept[First(s.before, opens)..]
  {
    var i := First(s.before, opens);
    var ls := s.before + (s.gone + s.after);
    if s.gone == [] {
      assert s.gone + s.after == [];
    } else if i + |head| > |s.before| {
      var k := |s.before| - i;
      assert head[k] == ls[i..][k] == ls[|s.before|] == s.gone[0];
      NoneAt(head, other, k);
      assert false;
    }
    assert s.before[i..] == ls[i..][..|s.before| - i];
    assert head <= s.before[i..];
    HeadUntrimmed(s.before, opens, head);
  }

  lemma HeadUntrimmed(before: seq<string>, opens: LineTest, head: seq<string>)
    requires !opens("") && HeadLines(head, opens) && StartsWith(before, opens, head)
    ensures var kept := Head(DropTrail(before)); var i := First(before, opens);
            First(kept, opens) == i < |kept| && head <= kept[i..]
  {
    var i := First(before, opens);
    var d := DropTrail(before);
    var last := i + |head| - 1;
    assert before[last] == before[i..][|head| - 1];
    assert last < |d|;
    FirstAppend(d, before[|d|..], opens);
    assert before == d + before[|d|..];
    assert d[i..] == before[i..][..|d| - i];
    FirstPart(d, [""], opens, head);
    FirstAppend(d, [""], opens);
  }

  // The head stands behind the section the other write replaces.
  lemma HeadBehind(s: Sides, opens: LineTest, head: seq<string>, other: LineTest)
    requires HeadLines(head, opens) && NoneOpens(head, other) && NoneOpens(s.before, opens)
    requires s.Of(s.before + (s.gone + s.after), other)
    requires StartsWith(s.before + (s.gone + s.after), opens, head)
    ensures StartsWith(s.after, opens, head)
    ensures NoneOpens(s.gone, opens)
  {
    GoneOpensNothing(s, opens, head, other);
    StartsLast(s.before, s.gone, s.after, opens, head);
  }

  lemma StartsLast(x: seq<string>, y: seq<string>, z: seq<string>, opens: LineTest, head: seq<string>)
    requires NoneOpens(x, opens) && NoneOpens(y, opens) && StartsWith(x + (y + z), opens, head)
    ensures StartsWith(z, opens, head)
  {
    FirstAppend(x, y + z, opens);
    FirstAppend(y, z, opens);
    DropOverTwo(x, y, z, First(z, opens));
  }

  // The section the other write replaces cannot be theirs.
  lemma GoneOpensNothing(s: Sides, opens: LineTest, head: seq<string>, other: LineTest)
    requires HeadLines(head, opens) && NoneOpens(head, other) && NoneOpens(s.before, opens)
    requires s.Of(s.before + (s.gone + s.after), other)
    requires StartsWith(s.before + (s.gone + s.after), opens, head)
    ensures NoneOpens(s.gone, opens)
  {
    var j := First(s.gone, opens);
    if j < |s.gone| {
      FirstInMiddle(s.before, s.gone, s.after, opens, head);
      NoneAt(head, other, 0);
      if j > 0 { HeadlessAt(s.gone[1..], j - 1); }
    }
  }

  lemma FirstInMiddle(x: seq<string>, y: seq<string>, z: seq<string>, opens: LineTest, head: seq<string>)
    requires NoneOpens(x, opens) && !NoneOpens(y, opens) && head != [] && StartsWith(x + (y + z), opens, head)
    ensures head[0] == y[First(y, opens)]
  {
    FirstAppend(x, y + z, opens);
    FirstAppend(y, z, opens);
    DropOver(x, y + z, First(y, opens));
    DropIn(y, z, First(y, opens));
  }

  /**
   * When the written text does open their section, and the section it replaces
   * stands before theirs or is new in a body without it, the reader is handed the
   * written text instead: what was recorded no longer counts at all.
   */
  lemma HeadHijacked(ls: seq<string>, opens: LineTest, other: LineTest, sec: seq<string>)
    requires !opens("") && !NoneOpens(sec, opens)
    requires NoneOpens(ls[..First(ls, other)], opens)
    ensures StartsWith(UpsertLines(ls, other, sec), opens, sec[First(sec, opens)..])
  {
    var s := SidesOf(ls, other);
    HeadOpensNothing(s.before, opens);
    var front := Head(DropTrail(s.before));
    var tail := [""] + Foot(s.after);
    StartsBehind(front, sec, tail, opens);
  }

  lemma StartsBehind(front: seq<string>, sec: seq<string>, tail: seq<string>, opens: LineTest)
    requires NoneOpens(front, opens) && !NoneOpens(sec, opens)
    ensures StartsWith(front + (sec + tail), opens, sec[First(sec, opens)..])
  {
    FirstBehind(front, sec, tail, opens);
    DropIn(sec, tail, First(sec, opens));
  }
}
