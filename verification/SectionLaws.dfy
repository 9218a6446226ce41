/**
 * The laws of the section store, for any opening test that no blank line passes:
 * what a write makes a read return, what it leaves alone, and where the mismatch
 * between the two boundary rules (trimmed start, column-0 end) breaks both.
 */
module SectionLaws {
  import opened Text
  import opened Sections
  import opened Seqs

  predicate NoneOpens(ls: seq<string>, opens: LineTest) {
    First(ls, opens) == |ls|
  }

  predicate Headless(ls: seq<string>) {
    |Cut(ls)| == |ls|
  }

  predicate Headed(ls: seq<string>) {
    ls == [] || IsHeading(ls[0])
  }

  // ---- Concatenation -------------------------------------------------------------

  lemma Uncons<T>(x: seq<T>, y: seq<T>)
    requires x != []
    ensures x + y == [x[0]] + (x[1..] + y)
  {
  }

  lemma {:induction false} FirstAppend(x: seq<string>, y: seq<string>, opens: LineTest)
    ensures First(x + y, opens) == if First(x, opens) < |x| then First(x, opens) else |x| + First(y, opens)
  {
    if x == [] {
      assert x + y == y;
    } else {
      assert (x + y)[1..] == x[1..] + y;
      FirstAppend(x[1..], y, opens);
    }
  }

  lemma {:induction false} CutAppend(x: seq<string>, y: seq<string>)
    ensures Cut(x + y) == if |Cut(x)| < |x| then Cut(x) else x + Cut(y)
    ensures Rest(x + y) == if |Cut(x)| < |x| then Rest(x) + y else Rest(y)
  {
    if x == [] {
      assert x + y == y;
    } else {
      assert (x + y)[1..] == x[1..] + y;
      CutAppend(x[1..], y);
      if !IsHeading(x[0]) {
        assert Cut(x) == [x[0]] + Cut(x[1..]);
        assert Rest(x) == Rest(x[1..]);
        assert Rest(x + y) == Rest(x[1..] + y);
        Assoc([x[0]], x[1..], Cut(y));
        assert [x[0]] + x[1..] == x;
      } else {
        assert Rest(x) == x;
        assert Rest(x + y) == x + y;
      }
    }
  }

  lemma {:induction false} CutParts(ls: seq<string>)
    ensures Cut(ls) + Rest(ls) == ls && Headless(Cut(ls)) && Headed(Rest(ls))
    ensures Headless(ls) ==> Cut(ls) == ls && Rest(ls) == []
  {
    if ls != [] && !IsHeading(ls[0]) {
      CutParts(ls[1..]);
      assert Rest(ls) == Rest(ls[1..]);
      var c := Cut(ls);
      assert c == [ls[0]] + Cut(ls[1..]);
      assert c[1..] == Cut(ls[1..]);
      Assoc([ls[0]], Cut(ls[1..]), Rest(ls[1..]));
      assert [ls[0]] + ls[1..] == ls;
    }
  }

  lemma CutHeaded(inside: seq<string>, after: seq<string>)
    requires Headless(inside) && Headed(after)
    ensures Cut(inside + after) == inside && Rest(inside + after) == after
  {
    CutAppend(inside, after);
    assert Cut(after) == [];
    assert inside + [] == inside;
  }

  lemma {:induction false} FirstOpens(ls: seq<string>, opens: LineTest)
    ensures First(ls, opens) < |ls| ==> opens(ls[First(ls, opens)]) && NoneOpens(ls[..First(ls, opens)], opens)
  {
    var i := First(ls, opens);
    if ls != [] && !opens(ls[0]) && i < |ls| {
      FirstOpens(ls[1..], opens);
      var j := First(ls[1..], opens);
      assert ls[..i][1..] == ls[1..][..j];
    }
  }

  // ---- A body split at a section ---------------------------------------------------

  /**
   * What precedes a section's opening line, that line, the lines it holds, and
   * what follows from the next column-0 heading on.
   */
  datatype Parts = Parts(before: seq<string>, open: string, inside: seq<string>, after: seq<string>) {
    function Lines(): seq<string> {
      before + ([open] + (inside + after))
    }

    predicate At(opens: LineTest) {
      NoneOpens(before, opens) && opens(open) && Headless(inside) && Headed(after)
    }
  }

  // What the scans find in a split body.
  lemma Scan(p: Parts, opens: LineTest)
    requires p.At(opens)
    ensures var ls, i := p.Lines(), |p.before|;
            && First(ls, opens) == i && i < |ls| && ls[..i] == p.before && ls[i] == p.open
            && Cut(ls[i + 1..]) == p.inside && Rest(ls[i + 1..]) == p.after
  {
    FirstAppend(p.before, [p.open] + (p.inside + p.after), opens);
    CutHeaded(p.inside, p.after);
    assert p.Lines()[|p.before| + 1..] == p.inside + p.after;
  }

  lemma PartsOf(ls: seq<string>, opens: LineTest) returns (p: Parts)
    requires !NoneOpens(ls, opens)
    ensures p.At(opens) && p.Lines() == ls
  {
    var i := First(ls, opens);
    FirstOpens(ls, opens);
    CutParts(ls[i + 1..]);
    p := Parts(ls[..i], ls[i], Cut(ls[i + 1..]), Rest(ls[i + 1..]));
    SplitAt(ls, i);
  }

  lemma ExtractIs(p: Parts, opens: LineTest)
    requires p.At(opens)
    ensures ExtractLines(p.Lines(), opens) == DropTrail([p.open] + p.inside)
  {
    Scan(p, opens);
  }

  /**
   * The surroundings of a write: a body without the section counts as all before
   * and nothing after.
   */
  datatype Sides = Sides(before: seq<string>, gone: seq<string>, after: seq<string>) {
    predicate Of(ls: seq<string>, opens: LineTest) {
      && ls == before + (gone + after) && NoneOpens(before, opens) && Headed(after)
      && (gone == [] <==> NoneOpens(ls, opens)) && (gone == [] ==> after == [])
      && (gone != [] ==> opens(gone[0]) && Headless(gone[1..]))
      && before == ls[..First(ls, opens)]
      && after == (if First(ls, opens) == |ls| then [] else Rest(ls[First(ls, opens) + 1..]))
    }
  }

  lemma SidesOf(ls: seq<string>, opens: LineTest) returns (s: Sides)
    ensures s.Of(ls, opens)
    ensures s.gone != [] ==> |s.before| < |ls| && s.gone == [ls[|s.before|]] + Cut(ls[|s.before| + 1..])
  {
    if NoneOpens(ls, opens) {
      s := Sides(ls, [], []);
      assert ls[..|ls|] == ls;
      assert ls + ([] + []) == ls;
    } else {
      var p := PartsOf(ls, opens);
      Scan(p, opens);
      s := Sides(p.before, [p.open] + p.inside, p.after);
      Assoc([p.open], p.inside, p.after);
      assert s.gone[1..] == p.inside;
    }
  }

  lemma HeadOpensNothing(before: seq<string>, opens: LineTest)
    requires !opens("")
    ensures NoneOpens(before, opens) <==> NoneOpens(Head(DropTrail(before)), opens)
  {
    TrailOpensNothing(before, opens);
    var d := DropTrail(before);
    if d != [] { FirstAppend(d, [""], opens); }
  }

  lemma {:induction false} TrailOpensNothing(ls: seq<string>, opens: LineTest)
    requires !opens("")
    ensures NoneOpens(ls, opens) <==> NoneOpens(DropTrail(ls), opens)
  {
    if ls != [] && ls[|ls| - 1] == "" {
      var init := ls[..|ls| - 1];
      TrailOpensNothing(init, opens);
      FirstAppend(init, [""], opens);
      assert ls == init + [""];
    }
  }

  // ---- What a write makes a read return --------------------------------------------

  // A written section as the readers see it: its first line opens it and no later
  // line is a column-0 heading.
  predicate OneBlock(sec: seq<string>, opens: LineTest) {
    sec != [] && opens(sec[0]) && Headless(sec[1..])
  }

  // The split of a write's result at the section it wrote.
  lemma WrittenParts(ls: seq<string>, opens: LineTest, sec: seq<string>) returns (p: Parts, s: Sides)
    requires !opens("") && sec != [] && opens(sec[0])
    ensures p.At(opens) && p.Lines() == UpsertLines(ls, opens, sec)
    ensures s.Of(ls, opens) && p.before == Head(DropTrail(s.before)) && p.open == sec[0]
    ensures !Headless(sec[1..]) ==> p.inside == Cut(sec[1..])
    ensures Headless(sec[1..]) ==> p.inside == sec[1..] + [""] && p.after == Foot(s.after)
  {
    s := SidesOf(ls, opens);
    var head, foot := Head(DropTrail(s.before)), Foot(s.after);
    HeadOpensNothing(s.before, opens);
    var inside, after := WrittenBlock(sec, foot);
    p := Parts(head, sec[0], inside, after);
  }

  // The written lines and what stands behind them, split where a reader's block ends.
  lemma WrittenBlock(sec: seq<string>, foot: seq<string>) returns (inside: seq<string>, after: seq<string>)
    requires sec != [] && Headed(foot)
    ensures sec + ([""] + foot) == [sec[0]] + (inside + after) && Headless(inside) && Headed(after)
    ensures !Headless(sec[1..]) ==> inside == Cut(sec[1..])
    ensures Headless(sec[1..]) ==> inside == sec[1..] + [""] && after == foot
  {
    var u, v := Cut(sec[1..]), Rest(sec[1..]);
    CutParts(sec[1..]);
    Uncons(sec, [""] + foot);
    if Headless(sec[1..]) {
      inside, after := sec[1..] + [""], foot;
      Assoc(sec[1..], [""], foot);
      CutAppend(sec[1..], [""]);
    } else {
      inside, after := u, v + ([""] + foot);
      Assoc(u, v, [""] + foot);
    }
  }

  /**
   * Extraction after an upsert gives the written section up to its first further
   * column-0 heading, whatever the body held before: all of it when it is one block.
   */
  lemma ExtractAfterUpsert(ls: seq<string>, opens: LineTest, sec: seq<string>)
    requires !opens("") && sec != [] && opens(sec[0])
    ensures ExtractLines(UpsertLines(ls, opens, sec), opens) == DropTrail([sec[0]] + Cut(sec[1..]))
    ensures OneBlock(sec, opens) ==> ExtractLines(UpsertLines(ls, opens, sec), opens) == DropTrail(sec)
  {
    var p, s := WrittenParts(ls, opens, sec);
    ExtractIs(p, opens);
    if Headless(sec[1..]) { BlockTrimmed(sec); }
  }

  lemma BlockTrimmed(sec: seq<string>)
    requires sec != [] && Headless(sec[1..])
    ensures DropTrail([sec[0]] + (sec[1..] + [""])) == DropTrail(sec) && [sec[0]] + Cut(sec[1..]) == sec
  {
    CutParts(sec[1..]);
    Assoc([sec[0]], sec[1..], [""]);
    assert [sec[0]] + sec[1..] == sec;
    DropTrailAppend(sec, [""]);
  }

  // Another section follows the one the test opens.
  predicate Followed(ls: seq<string>, opens: LineTest) {
    var i := First(ls, opens);
    i < |ls| && Rest(ls[i + 1..]) != []
  }

  /**
   * Writing twice leaves the last write, up to the newline the store adds after a
   * following section each time - and exactly the last write when none follows.
   */
  lemma UpsertTwice(ls: seq<string>, opens: LineTest, sec1: seq<string>, sec2: seq<string>)
    requires !opens("") && OneBlock(sec1, opens)
    ensures DropTrail(UpsertLines(UpsertLines(ls, opens, sec1), opens, sec2)) ==
            DropTrail(UpsertLines(ls, opens, sec2))
    ensures UpsertLines(UpsertLines(ls, opens, sec1), opens, sec2) == UpsertLines(ls, opens, sec2) <==> !Followed(ls, opens)
  {
    var d, after := BothWrites(ls, opens, sec1, sec2);
    if after != [] { LayoutGrows(d, sec2, after); }
  }

  // Two writes and the second alone lay the same out, before what followed and its foot.
  lemma BothWrites(ls: seq<string>, opens: LineTest, sec1: seq<string>, sec2: seq<string>)
    returns (before: seq<string>, after: seq<string>)
    requires !opens("") && OneBlock(sec1, opens)
    ensures UpsertLines(UpsertLines(ls, opens, sec1), opens, sec2) == Layout(before, sec2, Foot(after))
    ensures UpsertLines(ls, opens, sec2) == Layout(before, sec2, after)
    ensures after != [] <==> Followed(ls, opens)
  {
    var p, s := WrittenParts(ls, opens, sec1);
    RewrittenParts(p, opens, sec2);
    HeadUndone(s.before);
    SidesWritten(s, ls, opens, sec2);
    before, after := DropTrail(s.before), s.after;
  }

  lemma RewrittenParts(p: Parts, opens: LineTest, sec: seq<string>)
    requires p.At(opens)
    ensures UpsertLines(p.Lines(), opens, sec) == Layout(DropTrail(p.before), sec, p.after)
  {
    Scan(p, opens);
  }

  lemma SidesWritten(s: Sides, ls: seq<string>, opens: LineTest, sec: seq<string>)
    requires s.Of(ls, opens)
    ensures UpsertLines(ls, opens, sec) == Layout(DropTrail(s.before), sec, s.after)
  {
  }

  lemma HeadUndone(before: seq<string>)
    ensures DropTrail(Head(DropTrail(before))) == DropTrail(before)
  {
    DropTrailAppend(DropTrail(before), [""]);
    DropTrailFixed(before);
  }

  lemma LayoutGrows(before: seq<string>, sec: seq<string>, after: seq<string>)
    requires after != []
    ensures Layout(before, sec, Foot(after)) == Layout(before, sec, after) + [""]
    ensures DropTrail(Layout(before, sec, Foot(after))) == DropTrail(Layout(before, sec, after))
  {
    var foot := Foot(after);
    Assoc([""], foot, [""]);
    Assoc(sec, [""] + foot, [""]);
    Assoc(Head(before), sec + ([""] + foot), [""]);
    DropTrailAppend(Layout(before, sec, after), [""]);
  }

  lemma DropTrailFixed(ls: seq<string>)
    ensures DropTrail(DropTrail(ls)) == DropTrail(ls)
  {
  }

  // ---- What a write leaves alone ----------------------------------------------------

  // A write or removal of one section leaves the other as a reader sees it. In front of
  // the section, the other's block must end before it: at a column-0 heading of its own,
  // or at the section's opening line. Otherwise the section must not open the other, or
  // what stands behind must read the same.
  predicate LeavesBe(ls: seq<string>, opens: LineTest, other: LineTest) {
    var i := First(ls, opens);
    i < |ls| ==> Apart(ls[..i], [ls[i]] + Cut(ls[i + 1..]), Rest(ls[i + 1..]), other)
  }

  // The same of what stands before a section, the section, and what stands behind it.
  predicate Apart(before: seq<string>, gone: seq<string>, after: seq<string>, other: LineTest)
    requires gone != []
  {
    var j := First(before, other);
    if j < |before| then IsHeading(gone[0]) || Rest(before[j + 1..]) != []
    else NoneOpens(gone, other) || ExtractLines(after, other) == ExtractLines(gone, other)
  }

  lemma AppendParts(p: Parts, y: seq<string>)
    ensures p.Lines() + y == p.(after := p.after + y).Lines()
  {
    Assoc(p.inside, p.after, y);
    Assoc([p.open], p.inside + p.after, y);
    Assoc(p.before, [p.open] + (p.inside + p.after), y);
  }

  lemma TrailOfParts(p: Parts)
    requires p.open != "" && Headless(p.inside) && Headed(p.after)
    ensures p.after != [] ==> DropTrail(p.after) != [] && Headed(DropTrail(p.after))
    ensures p.after != [] ==> DropTrail(p.Lines()) == p.(after := DropTrail(p.after)).Lines()
    ensures p.after == [] ==> Headless(DropTrail(p.inside))
    ensures p.after == [] ==> DropTrail(p.Lines()) == p.(inside := DropTrail(p.inside)).Lines()
    ensures DropTrail([p.open] + p.inside) == [p.open] + DropTrail(p.inside)
  {
    TrailBehindOpen(p.before, p.open, p.inside + p.after);
    TrailBehindOpen([], p.open, p.inside);
    assert [] + ([p.open] + p.inside) == [p.open] + p.inside;
    assert [] + ([p.open] + DropTrail(p.inside)) == [p.open] + DropTrail(p.inside);
    if p.after != [] {
      assert p.after[0] != "";
      DropTrailAppend(p.inside, p.after);
    } else {
      assert p.inside + p.after == p.inside;
      assert DropTrail(p.inside) + [] == DropTrail(p.inside);
      TrailHeadless(p.inside);
    }
  }

  lemma TrailBehindOpen(before: seq<string>, open: string, rest: seq<string>)
    requires open != ""
    ensures DropTrail(before + ([open] + rest)) == before + ([open] + DropTrail(rest))
  {
    DropTrailAppend(before, [open] + rest);
    DropTrailAppend([open], rest);
    assert DropTrail([open]) == [open];
    assert [open] + [] == [open];
  }

  lemma TrailHeadless(ls: seq<string>)
    requires Headless(ls)
    ensures Headless(DropTrail(ls))
  {
    var d := DropTrail(ls);
    assert d + ls[|d|..] == ls;
    CutAppend(d, ls[|d|..]);
  }

  // A section that starts before a boundary is the same whatever stands behind it.
  lemma SectionBefore(before: seq<string>, after: seq<string>, other: LineTest)
    requires !other("") && !NoneOpens(before, other) && Headed(after)
    ensures ExtractLines(before + after, other) == ExtractLines(before, other)
    ensures ExtractLines(Head(DropTrail(before)) + after, other) == ExtractLines(before, other)
  {
    var p := PartsOf(before, other);
    ExtractIs(p, other);
    AppendParts(p, after);
    if p.after == [] { assert [] + after == after; }
    ExtractIs(p.(after := p.after + after), other);
    if p.after != [] {
      TrimmedBehind(p, after, other);
    } else {
      TrimmedInside(p, after, other);
    }
  }

  lemma TrimmedBehind(p: Parts, after: seq<string>, other: LineTest)
    requires !other("") && p.At(other) && p.after != []
    ensures ExtractLines(Head(DropTrail(p.Lines())) + after, other) == ExtractLines(p.Lines(), other)
  {
    TrailOfParts(p);
    ExtractIs(p, other);
    var q := p.(after := DropTrail(p.after));
    AppendParts(q, [""] + after);
    Assoc(q.Lines(), [""], after);
    ExtractIs(q.(after := q.after + ([""] + after)), other);
  }

  lemma TrimmedInside(p: Parts, after: seq<string>, other: LineTest)
    requires !other("") && p.At(other) && p.after == [] && Headed(after)
    ensures ExtractLines(Head(DropTrail(p.Lines())) + after, other) == ExtractLines(p.Lines(), other)
  {
    TrailOfParts(p);
    ExtractIs(p, other);
    var d := DropTrail(p.inside);
    var q := Parts(p.before, p.open, d + [""], after);
    TrimmedInsideLines(p.before, p.open, d, after);
    CutAppend(d, [""]);
    ExtractIs(q, other);
    TrailOfParts(q.(after := []));
    DropTrailAppend(d, [""]);
    DropTrailFixed(p.inside);
  }

  lemma TrimmedInsideLines(before: seq<string>, open: string, d: seq<string>, after: seq<string>)
    ensures Head(Parts(before, open, d, []).Lines()) + after == Parts(before, open, d + [""], after).Lines()
  {
    assert d + [] == d;
    Assoc(before + ([open] + d), [""], after);
    Assoc(before, [open] + d, [""] + after);
    Assoc([open], d, [""] + after);
    Assoc(d, [""], after);
  }

  // A section that starts after lines that open nothing is that of the lines behind them.
  lemma SectionBehind(x: seq<string>, y: seq<string>, other: LineTest)
    requires NoneOpens(x, other)
    ensures ExtractLines(x + y, other) == ExtractLines(y, other)
  {
    FirstAppend(x, y, other);
    if !NoneOpens(y, other) {
      var p := PartsOf(y, other);
      ExtractIs(p, other);
      PartsBehind(x, p, other);
      ExtractIs(p.(before := x + p.before), other);
    }
  }

  lemma PartsBehind(x: seq<string>, p: Parts, other: LineTest)
    requires NoneOpens(x, other) && p.At(other)
    ensures p.(before := x + p.before).At(other) && p.(before := x + p.before).Lines() == x + p.Lines()
  {
    FirstAppend(x, p.before, other);
    Assoc(x, p.before, [p.open] + (p.inside + p.after));
  }

  // A blank line at the very end belongs to no section.
  lemma SectionFoot(y: seq<string>, other: LineTest)
    requires !other("")
    ensures ExtractLines(Foot(y), other) == ExtractLines(y, other)
  {
    if y == [] {
    } else if NoneOpens(y, other) {
      FirstAppend(y, [""], other);
    } else {
      var p := PartsOf(y, other);
      ExtractIs(p, other);
      AppendParts(p, [""]);
      if p.after == [] {
        CutAppend(p.inside, [""]);
        var q := p.(inside := p.inside + [""]);
        assert p.inside + ([] + [""]) == p.inside + [""] + [];
        ExtractIs(q, other);
        Assoc([p.open], p.inside, [""]);
        DropTrailAppend([p.open] + p.inside, [""]);
      } else {
        ExtractIs(p.(after := p.after + [""]), other);
      }
    }
  }

  lemma PartsEnd(ls: seq<string>, opens: LineTest) returns (p: Parts)
    requires !NoneOpens(ls, opens)
    ensures p.At(opens) && p.Lines() == ls && p.after == Rest(ls[First(ls, opens) + 1..])
  {
    p := PartsOf(ls, opens);
    Scan(p, opens);
  }

  // A block that ends inside these lines is the same whatever stands behind them.
  lemma BlockEnds(before: seq<string>, y: seq<string>, other: LineTest)
    requires First(before, other) < |before| && Rest(before[First(before, other) + 1..]) != []
    ensures ExtractLines(before + y, other) == ExtractLines(before, other)
  {
    var p := PartsEnd(before, other);
    ExtractIs(p, other);
    AppendParts(p, y);
    ExtractIs(p.(after := p.after + y), other);
  }

  // One that does not takes in the indented section behind them.
  lemma BlockRunsOn(before: seq<string>, gone: seq<string>, after: seq<string>, other: LineTest)
    requires First(before, other) < |before| && Rest(before[First(before, other) + 1..]) == []
    requires gone != [] && gone[0] != "" && Headless(gone) && Headed(after)
    ensures ExtractLines(before + (gone + after), other) != ExtractLines(before, other)
  {
    var p := PartsEnd(before, other);
    RunsOn(p, gone, after, other);
  }

  lemma RunsOn(p: Parts, gone: seq<string>, after: seq<string>, other: LineTest)
    requires p.At(other) && p.after == [] && gone != [] && gone[0] != "" && Headless(gone) && Headed(after)
    ensures ExtractLines(p.Lines() + (gone + after), other) != ExtractLines(p.Lines(), other)
  {
    ExtractIs(p, other);
    RunsOnLines(p, gone, after);
    HeadlessBoth(p.inside, gone);
    ExtractIs(Parts(p.before, p.open, p.inside + gone, after), other);
    LongerBlock([p.open], p.inside, gone);
  }

  lemma HeadlessBoth(x: seq<string>, y: seq<string>)
    requires Headless(x) && Headless(y)
    ensures Headless(x + y)
  {
    CutAppend(x, y);
  }

  lemma LongerBlock(open: seq<string>, inside: seq<string>, gone: seq<string>)
    requires gone != [] && gone[0] != ""
    ensures DropTrail(open + (inside + gone)) != DropTrail(open + inside)
  {
    Assoc(open, inside, gone);
    assert ((open + inside) + gone)[|open + inside|] == gone[0];
  }

  lemma RunsOnLines(p: Parts, gone: seq<string>, after: seq<string>)
    requires p.after == []
    ensures Parts(p.before, p.open, p.inside + gone, after).Lines() == p.Lines() + (gone + after)
  {
    AppendParts(p, gone + after);
    assert [] + (gone + after) == gone + after;
    Assoc(p.inside, gone, after);
  }

  // In front of the section: what is read of the other before the write, and what of the
  // lines in front alone.
  lemma ReadInFront(before: seq<string>, gone: seq<string>, after: seq<string>, other: LineTest)
    requires !other("") && !NoneOpens(before, other) && gone != [] && gone[0] != "" && Headless(gone[1..]) && Headed(after)
    ensures ExtractLines(before + (gone + after), other) == ExtractLines(before, other) <==> Apart(before, gone, after, other)
  {
    if Rest(before[First(before, other) + 1..]) != [] {
      BlockEnds(before, gone + after, other);
    } else if IsHeading(gone[0]) {
      assert (gone + after)[0] == gone[0];
      SectionBefore(before, gone + after, other);
    } else {
      HeadlessCons(gone);
      BlockRunsOn(before, gone, after, other);
    }
  }

  lemma HeadlessCons(ls: seq<string>)
    requires ls != [] && !IsHeading(ls[0]) && Headless(ls[1..])
    ensures Headless(ls)
  {
  }

  // Not in front of it: the section itself, or what stands behind, is what is read.
  lemma ReadBehind(before: seq<string>, gone: seq<string>, after: seq<string>, other: LineTest)
    requires !other("") && NoneOpens(before, other) && gone != [] && Headed(after)
    ensures ExtractLines(before + (gone + after), other) == ExtractLines(after, other) <==> Apart(before, gone, after, other)
  {
    SectionBehind(before, gone + after, other);
    if NoneOpens(gone, other) {
      SectionBehind(gone, after, other);
    } else {
      SectionBefore(gone, after, other);
    }
  }

  // New lines in place of the section leave the other be exactly then, when the lines in
  // front, or else those behind, are what is read of it.
  lemma Replaced(ls: seq<string>, s: Sides, r: seq<string>, opens: LineTest, other: LineTest)
    requires !opens("") && !other("") && s.Of(ls, opens)
    requires s.gone != [] ==> |s.before| < |ls| && s.gone == [ls[|s.before|]] + Cut(ls[|s.before| + 1..])
    requires ExtractLines(r, other) == ExtractLines(if NoneOpens(s.before, other) then s.after else s.before, other)
    ensures ExtractLines(r, other) == ExtractLines(ls, other) <==> LeavesBe(ls, opens, other)
  {
    if s.gone == [] {
      assert s.before + ([] + []) == s.before;
    } else if NoneOpens(s.before, other) {
      ReadBehind(s.before, s.gone, s.after, other);
    } else {
      ReadInFront(s.before, s.gone, s.after, other);
    }
  }

  /**
   * Writing a section that starts in column 0 and opens nothing of another leaves that
   * other as it was exactly when the section it replaces leaves it be.
   */
  lemma UpsertKeepsOthers(ls: seq<string>, opens: LineTest, sec: seq<string>, other: LineTest)
    requires !opens("") && !other("")
    requires sec != [] && IsHeading(sec[0]) && NoneOpens(sec, other)
    ensures ExtractLines(UpsertLines(ls, opens, sec), other) == ExtractLines(ls, other) <==> LeavesBe(ls, opens, other)
  {
    var s := SidesOf(ls, opens);
    SidesWritten(s, ls, opens, sec);
    if NoneOpens(s.before, other) {
      WrittenBehind(s.before, s.after, sec, other);
    } else {
      assert (sec + ([""] + Foot(s.after)))[0] == sec[0];
      SectionBefore(s.before, sec + ([""] + Foot(s.after)), other);
    }
    Replaced(ls, s, UpsertLines(ls, opens, sec), opens, other);
  }

  lemma WrittenBehind(before: seq<string>, after: seq<string>, sec: seq<string>, other: LineTest)
    requires !other("") && NoneOpens(before, other) && NoneOpens(sec, other)
    ensures ExtractLines(Layout(DropTrail(before), sec, after), other) == ExtractLines(after, other)
  {
    HeadOpensNothing(before, other);
    SectionBehind(Head(DropTrail(before)), sec + ([""] + Foot(after)), other);
    SectionBehind(sec, [""] + Foot(after), other);
    assert First([""], other) == 1;
    SectionBehind([""], Foot(after), other);
    SectionFoot(after, other);
  }

  // The indented heading of one section inside another, as both rules read it.
  function Nested(): seq<string> {
    ["## A", " ## B", "kept"]
  }

  lemma NestedOpens()
    ensures First(Nested(), Opener("A")) == 0 && First(Nested(), Opener("B")) == 1
    ensures Headless(Nested()[1..])
  {
    var ls := Nested();
    TrimSpaceOfTight("## A");
    assert Marker("A") == "## A" && Marker("B") == "## B";
    assert "## A"[3] != "## B"[3];
    assert TrimLeftSpace(" ## B") == "## B" by {
      assert " ## B"[1..] == "## B";
      assert IsSpace(' ') && !IsSpace('#');
    }
    assert TrimRightSpace("## B") == "## B" by { assert !IsSpace('B'); }
    FirstAt(ls, Opener("A"), 0);
    FirstAt(ls, Opener("B"), 1);
    CutAt(ls[1..], 2);
  }

  lemma ThreeLines(a: string, b: string, c: string, opens: LineTest)
    requires opens(a) && Headless([b, c]) && c != ""
    ensures ExtractLines([a, b, c], opens) == [a, b, c]
  {
    assert [a, b, c][1..] == [b, c];
    CutParts([b, c]);
    assert [a] + [b, c] == [a, b, c];
  }

  lemma FourLines(a: string, h: string, opens: LineTest)
    requires opens(a) && a != "" && IsHeading(h)
    ensures ExtractLines([a, "", h, ""], opens) == [a]
  {
    assert [a, "", h, ""][1..] == ["", h, ""];
    CutAt(["", h, ""], 1);
    assert ["", h, ""][..1] == [""] && [a] + [""] == [a, ""];
    DropTrailAppend([a], [""]);
  }

  lemma WrittenOver(a: string, b: string, c: string, h: string, opens: LineTest)
    requires First([a, b, c], opens) == 1 && a != "" && !IsHeading(c)
    ensures UpsertLines([a, b, c], opens, [h]) == [a, "", h, ""]
  {
    CutAt([c], 1);
    assert [a, b, c][..1] == [a] && [a, b, c][2..] == [c];
    assert Rest([c]) == [];
    assert DropTrail([a]) == [a];
  }

  /** A section that is not left be: writing B, whose only heading is indented inside A, cuts A down to its first line. */
  lemma IndentedHeadingSwallowed()
    ensures ExtractLines(Nested(), Opener("A")) == Nested()
    ensures ExtractLines(UpsertLines(Nested(), Opener("B"), ["## B"]), Opener("A")) == ["## A"]
  {
    NestedOpens();
    assert Nested()[1..] == [" ## B", "kept"];
    ThreeLines("## A", " ## B", "kept", Opener("A"));
    assert !IsHeading("kept");
    WrittenOver("## A", " ## B", "kept", "## B", Opener("B"));
    FourLines("## A", "## B", Opener("A"));
  }

  /** The same law for removal: every other section is as it was exactly then. */
  lemma RemoveKeepsOthers(ls: seq<string>, opens: LineTest, other: LineTest)
    requires !opens("") && !other("")
    ensures ExtractLines(RemoveLines(ls, opens), other) == ExtractLines(ls, other) <==> LeavesBe(ls, opens, other)
  {
    var s := SidesOf(ls, opens);
    if s.gone != [] {
      if NoneOpens(s.before, other) {
        RemovedBefore(s.before, s.after, other);
      } else {
        RemoveBehind(s.before, s.after, other);
      }
      Replaced(ls, s, RemoveLines(ls, opens), opens, other);
    }
  }

  lemma RemovedBefore(before: seq<string>, after: seq<string>, other: LineTest)
    requires !other("") && NoneOpens(before, other)
    ensures ExtractLines(Stack(DropTrail(before), after), other) == ExtractLines(after, other)
  {
    var d := DropTrail(before);
    HeadOpensNothing(before, other);
    TrailOpensNothing(before, other);
    SectionBehind(Head(d), Foot(after), other);
    SectionFoot(after, other);
    if after == [] { BlankStack(d, other); }
  }

  lemma RemoveBehind(before: seq<string>, after: seq<string>, other: LineTest)
    requires !other("") && !NoneOpens(before, other) && Headed(after)
    ensures ExtractLines(Stack(DropTrail(before), after), other) == ExtractLines(before, other)
  {
    TrailOpensNothing(before, other);
    assert First([], other) == 0;
    if after == [] {
      SectionBefore(before, [], other);
      assert Head(DropTrail(before)) + [] == Stack(DropTrail(before), []);
    } else {
      assert Foot(after)[0] == after[0];
      SectionBefore(before, Foot(after), other);
    }
  }

  lemma BlankStack(d: seq<string>, other: LineTest)
    requires !other("") && NoneOpens(d, other)
    ensures NoneOpens(Stack(d, []), other)
  {
    FirstAppend(OrBlank(d), [""], other);
    assert First([""], other) == 1;
  }

  /**
   * After a removal the heading is gone exactly when the text behind the removed
   * section does not open it again.
   */
  lemma RemoveForgets(ls: seq<string>, opens: LineTest)
    requires !opens("")
    ensures ExtractLines(RemoveLines(ls, opens), opens) == [] <==>
            First(ls, opens) < |ls| ==> NoneOpens(Rest(ls[First(ls, opens) + 1..]), opens)
  {
    var s := SidesOf(ls, opens);
    if s.gone != [] {
      var d := DropTrail(s.before);
      HeadOpensNothing(s.before, opens);
      TrailOpensNothing(s.before, opens);
      SectionBehind(Head(d), Foot(s.after), opens);
      SectionFoot(s.after, opens);
      if s.after == [] { BlankStack(d, opens); }
      ExtractAny(s.after, opens);
    }
  }

  lemma ExtractAny(ls: seq<string>, opens: LineTest)
    requires !opens("")
    ensures ExtractLines(ls, opens) == [] <==> NoneOpens(ls, opens)
  {
    if !NoneOpens(ls, opens) {
      var p := PartsOf(ls, opens);
      ExtractIs(p, opens);
      TrailOfParts(p);
    }
  }

  // ---- A body that does not hold a section yet ----------------------------------------

  lemma {:induction false} PartOpensNothing(x: seq<string>, y: seq<string>, opens: LineTest)
    ensures NoneOpens(x + y, opens) <==> NoneOpens(x, opens) && NoneOpens(y, opens)
  {
    FirstAppend(x, y, opens);
  }

  lemma AbsentStays(ls: seq<string>, other: LineTest, sec: seq<string>, opens: LineTest)
    requires !opens("") && NoneOpens(ls, opens)
    ensures NoneOpens(UpsertLines(ls, other, sec), opens) <==> NoneOpens(sec, opens)
  {
    var s := SidesOf(ls, other);
    PartOpensNothing(s.before, s.gone + s.after, opens);
    PartOpensNothing(s.gone, s.after, opens);
    HeadOpensNothing(s.before, opens);
    FootOpensNothing(s.after, opens);
    PartOpensNothing(sec, [""] + Foot(s.after), opens);
    PartOpensNothing(Head(DropTrail(s.before)), sec + ([""] + Foot(s.after)), opens);
  }

  lemma FootOpensNothing(after: seq<string>, opens: LineTest)
    requires !opens("") && NoneOpens(after, opens)
    ensures NoneOpens([""] + Foot(after), opens)
  {
    assert NoneOpens([""], opens);
    PartOpensNothing(after, [""], opens);
    PartOpensNothing([""], Foot(after), opens);
  }

  // ---- The laws on text -----------------------------------------------------------

  lemma OpenerSkipsBlanks(heading: string)
    ensures !Opener(heading)("")
  {
    assert Marker(heading) != "";
  }

  lemma SplitOfUpsert(body: string, heading: string, section: string)
    ensures Split(Upsert(body, heading, section)) == UpsertLines(Split(body), Opener(heading), SectionLines(section))
  {
    var ls, opens, sec := Split(body), Opener(heading), SectionLines(section);
    var i := First(ls, opens);
    assert AllLines(ls[..i]);
    assert AllLines(DropTrail(ls[..i]));
    if i < |ls| { assert AllLines(ls[i + 1..]); }
    LayoutAllLines(DropTrail(ls[..i]), sec, if i == |ls| then [] else Rest(ls[i + 1..]));
    SplitOfJoin(UpsertLines(ls, opens, sec));
  }

  lemma LayoutAllLines(before: seq<string>, sec: seq<string>, after: seq<string>)
    requires AllLines(before) && AllLines(sec) && AllLines(after)
    ensures AllLines(Layout(before, sec, after))
  {
  }

  /** Reading back what was written, as text. */
  lemma ReadBack(body: string, heading: string, section: string)
    requires OneBlock(SectionLines(section), Opener(heading))
    ensures Extract(Upsert(body, heading, section), heading) == TrimRightNL(section)
  {
    OpenerSkipsBlanks(heading);
    SplitOfUpsert(body, heading, section);
    ExtractAfterUpsert(Split(body), Opener(heading), SectionLines(section));
    SectionText(section);
    var sec := SectionLines(section);
    assert sec == DropTrail(Split(section));
    DropTrailFixed(Split(section));
  }

  /** The last write wins, as text, modulo trailing newlines - exactly, when no section follows. */
  lemma LastWriteWins(body: string, heading: string, section1: string, section2: string)
    requires OneBlock(SectionLines(section1), Opener(heading))
    ensures TrimRightNL(Upsert(Upsert(body, heading, section1), heading, section2)) ==
            TrimRightNL(Upsert(body, heading, section2))
    ensures Upsert(Upsert(body, heading, section1), heading, section2) == Upsert(body, heading, section2) <==>
            !Followed(Split(body), Opener(heading))
  {
    OpenerSkipsBlanks(heading);
    SplitOfUpsert(body, heading, section1);
    var once := Upsert(body, heading, section1);
    UpsertTwice(Split(body), Opener(heading), SectionLines(section1), SectionLines(section2));
    SplitOfUpsert(once, heading, section2);
    SplitOfUpsert(body, heading, section2);
    JoinOfSplit(Upsert(once, heading, section2));
    JoinOfSplit(Upsert(body, heading, section2));
    TrimRightIsDropTrail(Split(Upsert(once, heading, section2)));
    TrimRightIsDropTrail(Split(Upsert(body, heading, section2)));
  }
}
