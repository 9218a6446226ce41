/**
 * What the run reads back out of the card body: the stripped view prompts see,
 * the per-round sections of one heading, and the escape that keeps recorded text
 * from opening or ending a section.
 */
module History {
  import opened Text
  import opened Sections
  import opened SectionLaws
  import opened Seqs

  // The headings the run records: once per run, and once per round, where later
  // rounds carry a suffix. The laws hold for any two lists.
  datatype Headings = Headings(once: seq<string>, perRound: seq<string>) {
    predicate IsAgentHeading(trimmed: string) {
      && HasPrefix(trimmed, "## ")
      && var title := TrimSpace(trimmed[3..]);
         || title in once
         || exists i :: 0 <= i < |perRound| && HasPrefix(title, perRound[i])
    }

    function Test(): LineTest {
      line => IsAgentHeading(TrimSpace(line))
    }
  }

  function RecordedHeadings(): Headings {
    Headings(
      [ "Diagnosis", "Design", "Plan", "Discussion", "Execute Discussions", "Best-of-N Report",
        "Verify Command", "Review Approval", "Review Parked", "PR Gates" ],
      ["Review Findings", "Copilot Review"])
  }

  // ---- The stripped view ------------------------------------------------------------

  function Skips(line: string, skipping: bool, agent: LineTest): bool {
    if IsHeading(line) then agent(line) else skipping || agent(line)
  }

  function Kept(ls: seq<string>, skipping: bool, agent: LineTest): seq<string> {
    if ls == [] then []
    else
      var skip := Skips(ls[0], skipping, agent);
      (if skip then [] else [ls[0]]) + Kept(ls[1..], skip, agent)
  }

  function SkipAfter(ls: seq<string>, skipping: bool, agent: LineTest): bool {
    if ls == [] then skipping else SkipAfter(ls[1..], Skips(ls[0], skipping, agent), agent)
  }

  function StripBy(body: string, agent: LineTest): string {
    var ls := Split(body);
    var kept := Kept(ls, false, agent);
    if |kept| == |ls| then body else TrimSpace(Join(kept))
  }

  lemma {:induction false} KeptAppend(x: seq<string>, y: seq<string>, skipping: bool, agent: LineTest)
    ensures Kept(x + y, skipping, agent) == Kept(x, skipping, agent) + Kept(y, SkipAfter(x, skipping, agent), agent)
    ensures SkipAfter(x + y, skipping, agent) == SkipAfter(y, SkipAfter(x, skipping, agent), agent)
  {
    if x == [] {
      assert x + y == y;
    } else {
      assert (x + y)[1..] == x[1..] + y;
      KeptAppend(x[1..], y, Skips(x[0], skipping, agent), agent);
    }
  }

  lemma KeptSnoc(ls: seq<string>, line: string, agent: LineTest)
    ensures var skip := Skips(line, SkipAfter(ls, false, agent), agent);
            && SkipAfter(ls + [line], false, agent) == skip
            && Kept(ls + [line], false, agent) == Kept(ls, false, agent) + (if skip then [] else [line])
  {
    var before := SkipAfter(ls, false, agent);
    KeptAppend(ls, [line], false, agent);
    assert [line][1..] == [];
    assert Kept([line], before, agent) == if Skips(line, before, agent) then [] else [line];
  }

  // agent(line) stands for isAgentHeading on the trimmed line.
  method StripSections(body: string, agent: LineTest) returns (r: string)
    ensures body != "" ==> r == StripBy(body, agent)
    ensures body == "" ==> r == ""
  {
    if body == "" {
      return body;
    }
    var lines := Split(body);
    var kept: seq<string> := [];
    var skipping, stripped := false, false;
    var i := 0;
    while i < |lines|
      invariant i <= |lines|
      invariant kept == Kept(lines[..i], false, agent) && skipping == SkipAfter(lines[..i], false, agent)
      invariant |kept| <= i && (stripped <==> |kept| < i)
    {
      var line := lines[i];
      KeptSnoc(lines[..i], line, agent);
      assert lines[..i + 1] == lines[..i] + [line];
      if IsHeading(line) {
        skipping := agent(line);
      } else if !skipping && agent(line) {
        skipping := true;
      }
      if skipping {
        stripped := true;
      } else {
        kept := kept + [line];
      }
      i := i + 1;
    }
    assert lines[..|lines|] == lines;
    if !stripped {
      return body;
    }
    r := TrimSpace(Join(kept));
  }

  function NonEmpty(ls: seq<string>): seq<string> {
    if ls == [] then [] else (if ls[0] == "" then [] else [ls[0]]) + NonEmpty(ls[1..])
  }

  lemma {:induction false} NonEmptyAppend(x: seq<string>, y: seq<string>)
    ensures NonEmpty(x + y) == NonEmpty(x) + NonEmpty(y)
  {
    if x == [] {
      assert x + y == y;
    } else {
      assert (x + y)[1..] == x[1..] + y;
      NonEmptyAppend(x[1..], y);
    }
  }

  // What a reader of the stripped view can learn from some lines.
  function Shown(ls: seq<string>, skipping: bool, agent: LineTest): seq<string> {
    NonEmpty(Kept(ls, skipping, agent))
  }

  lemma ShownAppend(x: seq<string>, y: seq<string>, skipping: bool, agent: LineTest)
    ensures Shown(x + y, skipping, agent) == Shown(x, skipping, agent) + Shown(y, SkipAfter(x, skipping, agent), agent)
  {
    KeptAppend(x, y, skipping, agent);
    NonEmptyAppend(Kept(x, skipping, agent), Kept(y, SkipAfter(x, skipping, agent), agent));
  }

  lemma {:induction false} ShownBlanks(ls: seq<string>, skipping: bool, agent: LineTest)
    requires !agent("") && forall i :: 0 <= i < |ls| ==> ls[i] == ""
    ensures Shown(ls, skipping, agent) == [] && SkipAfter(ls, skipping, agent) == skipping
  {
    if ls != [] {
      assert !IsHeading("");
      ShownBlanks(ls[1..], skipping, agent);
      var rest := Kept(ls[1..], skipping, agent);
      assert [] + rest == rest;
      assert ([""] + rest)[1..] == rest;
      assert [] + NonEmpty(rest) == NonEmpty(rest);
    }
  }

  lemma {:induction false} SkipBlock(ls: seq<string>, agent: LineTest)
    requires Headless(ls)
    ensures Kept(ls, true, agent) == [] && SkipAfter(ls, true, agent)
  {
    if ls != [] {
      SkipBlock(ls[1..], agent);
    }
  }

  lemma ShownFromHeading(ls: seq<string>, agent: LineTest)
    requires Headed(ls)
    ensures Shown(ls, true, agent) == Shown(ls, false, agent)
  {
  }

  // Every column-0 heading of a text is one the strip knows.
  predicate AllAgent(ls: seq<string>, agent: LineTest) {
    forall i :: 0 <= i < |ls| && IsHeading(ls[i]) ==> agent(ls[i])
  }

  lemma {:induction false} ShownOfWrite(sec: seq<string>, skipping: bool, agent: LineTest)
    requires skipping || (sec != [] && IsHeading(sec[0]) && agent(sec[0]))
    ensures Shown(sec, skipping, agent) == [] <==> AllAgent(sec, agent)
    ensures AllAgent(sec, agent) ==> SkipAfter(sec, skipping, agent)
  {
    if sec != [] {
      var skip := Skips(sec[0], skipping, agent);
      assert forall i :: 0 <= i < |sec[1..]| ==> sec[1..][i] == sec[i + 1];
      if skip {
        ShownOfWrite(sec[1..], true, agent);
        assert [] + Kept(sec[1..], true, agent) == Kept(sec[1..], true, agent);
        if AllAgent(sec[1..], agent) {
          forall i | 0 <= i < |sec| && IsHeading(sec[i]) ensures agent(sec[i]) {
            if i > 0 { assert sec[1..][i - 1] == sec[i]; }
          }
        }
      } else {
        assert sec[0] != "";
        assert Kept(sec, skipping, agent) == [sec[0]] + Kept(sec[1..], skip, agent);
      }
    }
  }

  lemma ShownBefore(before: seq<string>, agent: LineTest)
    requires !agent("")
    ensures Shown(Head(DropTrail(before)), false, agent) == Shown(before, false, agent)
  {
    var d := DropTrail(before);
    assert before == d + before[|d|..];
    ShownAppend(d, before[|d|..], false, agent);
    ShownBlanks(before[|d|..], SkipAfter(d, false, agent), agent);
    assert Shown(d, false, agent) + [] == Shown(d, false, agent);
    if d != [] {
      ShownAppend(d, [""], false, agent);
      ShownBlanks([""], SkipAfter(d, false, agent), agent);
    }
  }

  lemma ShownAfter(after: seq<string>, skipping: bool, agent: LineTest)
    requires !agent("") && Headed(after)
    ensures Shown([""] + Foot(after), skipping, agent) == Shown(after, false, agent)
  {
    ShownAppend([""], Foot(after), skipping, agent);
    ShownBlanks([""], skipping, agent);
    assert [] + Shown(Foot(after), skipping, agent) == Shown(Foot(after), skipping, agent);
    if after != [] {
      ShownAppend(after, [""], skipping, agent);
      ShownBlanks([""], SkipAfter(after, skipping, agent), agent);
      assert Shown(after, skipping, agent) + [] == Shown(after, skipping, agent);
      if skipping { ShownFromHeading(after, agent); }
    }
  }

  // A section the strip knows shows nothing, and what stands behind it shows as before.
  lemma ShownAround(s: Sides, ls: seq<string>, opens: LineTest, agent: LineTest)
    requires s.Of(ls, opens) && forall l :: opens(l) ==> agent(l)
    ensures Shown(ls, false, agent) == Shown(s.before, false, agent) + Shown(s.after, false, agent)
  {
    ShownAppend(s.before, s.gone + s.after, false, agent);
    var skip := SkipAfter(s.before, false, agent);
    if s.gone != [] {
      ShownGone(s.gone, skip, agent);
      ShownAppend(s.gone, s.after, skip, agent);
      assert [] + Shown(s.after, true, agent) == Shown(s.after, true, agent);
      ShownFromHeading(s.after, agent);
    } else {
      assert s.gone + s.after == [];
    }
  }

  lemma ShownGone(gone: seq<string>, skip: bool, agent: LineTest)
    requires gone != [] && agent(gone[0]) && Headless(gone[1..])
    ensures Shown(gone, skip, agent) == [] && SkipAfter(gone, skip, agent)
  {
    assert gone == [gone[0]] + gone[1..];
    SkipBlock(gone[1..], agent);
    assert Kept(gone, skip, agent) == [];
  }

  lemma ShownWritten(s: Sides, sec: seq<string>, agent: LineTest) returns (written: seq<string>)
    requires !agent("") && Headed(s.after)
    requires sec != [] && IsHeading(sec[0]) && agent(sec[0])
    ensures Shown(Head(DropTrail(s.before)) + (sec + ([""] + Foot(s.after))), false, agent) ==
            Shown(s.before, false, agent) + (written + Shown(s.after, false, agent))
    ensures written == [] <==> AllAgent(sec, agent)
  {
    var head, tail := Head(DropTrail(s.before)), [""] + Foot(s.after);
    ShownBefore(s.before, agent);
    var skip := SkipAfter(head, false, agent);
    ShownAppend(head, sec + tail, false, agent);
    ShownAppend(sec, tail, skip, agent);
    ShownOfWrite(sec, skip, agent);
    written := Shown(sec, skip, agent);
    ShownAfter(s.after, SkipAfter(sec, skip, agent), agent);
  }

  lemma GrowsOrNot<T>(x: seq<T>, y: seq<T>, z: seq<T>)
    ensures x + (y + z) == x + z <==> y == []
  {
    if y == [] {
      assert y + z == z;
    } else {
      assert |x + (y + z)| > |x + z|;
    }
  }

  /**
   * Recording run history never changes what prompts see, for any body, indented
   * and nested agent headings included - exactly when the recorded text holds no
   * column-0 heading the strip does not know.
   */
  lemma RecordingStaysHidden(ls: seq<string>, opens: LineTest, sec: seq<string>, agent: LineTest)
    requires !agent("") && (forall l :: opens(l) ==> agent(l))
    requires sec != [] && IsHeading(sec[0]) && agent(sec[0])
    ensures Shown(UpsertLines(ls, opens, sec), false, agent) == Shown(ls, false, agent) <==> AllAgent(sec, agent)
  {
    var s := SidesOf(ls, opens);
    ShownAround(s, ls, opens, agent);
    var written := ShownWritten(s, sec, agent);
    GrowsOrNot(Shown(s.before, false, agent), written, Shown(s.after, false, agent));
  }

  // ---- The sections of one heading, all rounds ------------------------------------------

  function PrefixTest(heading: string): LineTest {
    line => HasPrefix(line, Marker(heading))
  }

  function Inside(line: string, inside: bool, sel: LineTest): bool {
    if IsHeading(line) then sel(line) else inside
  }

  function Selected(ls: seq<string>, inside: bool, sel: LineTest): seq<string> {
    if ls == [] then []
    else
      var in' := Inside(ls[0], inside, sel);
      (if in' then [ls[0]] else []) + Selected(ls[1..], in', sel)
  }

  function Unselected(ls: seq<string>, inside: bool, sel: LineTest): seq<string> {
    if ls == [] then []
    else
      var in' := Inside(ls[0], inside, sel);
      (if in' then [] else [ls[0]]) + Unselected(ls[1..], in', sel)
  }

  function InsideAfter(ls: seq<string>, inside: bool, sel: LineTest): bool {
    if ls == [] then inside else InsideAfter(ls[1..], Inside(ls[0], inside, sel), sel)
  }

  lemma {:induction false} SelectedAppend(x: seq<string>, y: seq<string>, inside: bool, sel: LineTest)
    ensures Selected(x + y, inside, sel) == Selected(x, inside, sel) + Selected(y, InsideAfter(x, inside, sel), sel)
    ensures Unselected(x + y, inside, sel) == Unselected(x, inside, sel) + Unselected(y, InsideAfter(x, inside, sel), sel)
    ensures InsideAfter(x + y, inside, sel) == InsideAfter(y, InsideAfter(x, inside, sel), sel)
  {
    if x == [] {
      assert x + y == y;
    } else {
      DropIn(x, y, 1);
      SelectedAppend(x[1..], y, Inside(x[0], inside, sel), sel);
      var in' := Inside(x[0], inside, sel);
      Assoc(if in' then [x[0]] else [], Selected(x[1..], in', sel), Selected(y, InsideAfter(x, inside, sel), sel));
      Assoc(if in' then [] else [x[0]], Unselected(x[1..], in', sel), Unselected(y, InsideAfter(x, inside, sel), sel));
    }
  }

  // Every line followed by a newline, as the string builder leaves them.
  function Terminated(ls: seq<string>): string {
    Join(ls + [""])
  }

  lemma TerminatedAppend(ls: seq<string>, line: string)
    ensures Terminated(ls + [line]) == Terminated(ls) + line + "\n"
  {
    JoinAppend(ls + [line], [""]);
    assert (ls + [line]) + [""] == ls + [line, ""];
    if ls == [] {
      assert ls + [line] == [line];
      assert Terminated(ls) == "" by { assert [] + [""] == [""]; }
      assert "" + line + "\n" == line + "\n";
    } else {
      JoinAppend(ls, [line]);
      JoinAppend(ls, [""]);
    }
  }

  method SectionsWithPrefix(body: string, heading: string) returns (r: string)
    ensures r == Terminated(Selected(Split(body), false, PrefixTest(heading)))
  {
    var marker := "## " + heading;
    ghost var sel := PrefixTest(heading);
    var lines := Split(body);
    r := "";
    var inside := false;
    var i := 0;
    assert Terminated([]) == "" by { assert [] + [""] == [""]; }
    while i < |lines|
      invariant i <= |lines|
      invariant r == Terminated(Selected(lines[..i], false, sel)) && inside == InsideAfter(lines[..i], false, sel)
    {
      var line := lines[i];
      SelectedAppend(lines[..i], [line], false, sel);
      assert lines[..i + 1] == lines[..i] + [line];
      assert Selected([line][1..], Inside(line, inside, sel), sel) == [];
      if HasPrefix(line, "## ") {
        inside := HasPrefix(line, marker);
      }
      if inside {
        TerminatedAppend(Selected(lines[..i], false, sel), line);
        assert Selected(lines[..i + 1], false, sel) == Selected(lines[..i], false, sel) + [line];
        r := r + line;
        r := r + "\n";
      } else {
        assert Selected(lines[..i + 1], false, sel) == Selected(lines[..i], false, sel);
      }
      i := i + 1;
    }
    assert lines[..|lines|] == lines;
  }

  function RemoveWithPrefix(body: string, heading: string): string {
    var ls := Split(body);
    var kept := Unselected(ls, false, PrefixTest(heading));
    if |kept| == |ls| then body else Join(kept)
  }

  method RemoveSectionsWithPrefix(body: string, heading: string) returns (r: string)
    ensures r == RemoveWithPrefix(body, heading)
  {
    var marker := "## " + heading;
    ghost var sel := PrefixTest(heading);
    var lines := Split(body);
    var kept: seq<string> := [];
    var inside := false;
    var i := 0;
    while i < |lines|
      invariant i <= |lines|
      invariant kept == Unselected(lines[..i], false, sel) && inside == InsideAfter(lines[..i], false, sel)
    {
      var line := lines[i];
      SelectedAppend(lines[..i], [line], false, sel);
      assert lines[..i + 1] == lines[..i] + [line];
      assert Unselected([line][1..], Inside(line, inside, sel), sel) == [];
      if HasPrefix(line, "## ") {
        inside := HasPrefix(line, marker);
      }
      if !inside {
        kept := kept + [line];
      }
      i := i + 1;
    }
    assert lines[..|lines|] == lines;
    if |kept| == |lines| {
      return body;
    }
    r := Join(kept);
  }

  /** A removal by prefix leaves nothing for a later read to find, from any starting state. */
  lemma {:induction false} PrefixForgotten(ls: seq<string>, inside: bool, sel: LineTest)
    ensures Selected(Unselected(ls, inside, sel), false, sel) == []
  {
    if ls != [] {
      var in' := Inside(ls[0], inside, sel);
      PrefixForgotten(ls[1..], in', sel);
      if !in' {
        var rest := Unselected(ls[1..], in', sel);
        assert ([ls[0]] + rest)[1..] == rest;
        assert !Inside(ls[0], false, sel);
      } else {
        assert [] + Unselected(ls[1..], in', sel) == Unselected(ls[1..], in', sel);
      }
    }
  }

  // ---- Which lines those are ---------------------------------------------------------------

  // Line i stands under a line that opens, with no column-0 heading between.
  predicate Under(ls: seq<string>, i: nat, opens: LineTest)
    requires i < |ls|
  {
    exists j :: 0 <= j <= i && opens(ls[j]) && NoHeading(ls, j, i)
  }

  predicate NoHeading(ls: seq<string>, j: nat, i: nat)
    requires i < |ls|
  {
    forall k :: j < k <= i ==> !IsHeading(ls[k])
  }

  function Not(ls: seq<string>, opens: LineTest): nat -> bool {
    (i: nat) => i < |ls| && !Under(ls, i, opens)
  }

  function Those(ls: seq<string>, opens: LineTest): nat -> bool {
    (i: nat) => i < |ls| && Under(ls, i, opens)
  }

  lemma UnderOn(ls: seq<string>, i: nat, opens: LineTest)
    requires i < |ls|
    ensures Under(ls, i, opens) <==> opens(ls[i]) || (!IsHeading(ls[i]) && i > 0 && Under(ls, i - 1, opens))
  {
    if Under(ls, i, opens) && !opens(ls[i]) {
      var j :| 0 <= j <= i && opens(ls[j]) && NoHeading(ls, j, i);
      assert NoHeading(ls, j, i - 1);
    }
    if opens(ls[i]) {
      assert NoHeading(ls, i, i);
    } else if !IsHeading(ls[i]) && i > 0 && Under(ls, i - 1, opens) {
      var j :| 0 <= j <= i - 1 && opens(ls[j]) && NoHeading(ls, j, i - 1);
      assert NoHeading(ls, j, i);
    }
  }

  /** The strip keeps, in order, the lines that stand under no line it knows. */
  lemma {:induction false} KeptAreNotUnder(ls: seq<string>, agent: LineTest, n: nat) returns (at: seq<nat>)
    requires n <= |ls|
    ensures SiftsPlaces(ls[..n], Kept(ls[..n], false, agent), at, Not(ls, agent))
    ensures SkipAfter(ls[..n], false, agent) <==> n > 0 && Under(ls, n - 1, agent)
  {
    if n == 0 {
      at := [];
    } else {
      var x, l := ls[..n - 1], ls[n - 1];
      var front := KeptAreNotUnder(ls, agent, n - 1);
      assert ls[..n] == x + [l];
      UnderOn(ls, n - 1, agent);
      KeptSnoc(x, l, agent);
      assert Kept(x, false, agent) + [] == Kept(x, false, agent);
      at := SiftsPlacesOn(x, Kept(x, false, agent), front, Not(ls, agent), l);
    }
  }

  function Opening(sel: LineTest): LineTest {
    l => IsHeading(l) && sel(l)
  }

  /** A read by prefix finds, in order, the lines that stand under a heading it selects; a removal leaves the others. */
  lemma {:induction false} SelectedAreUnder(ls: seq<string>, sel: LineTest, n: nat) returns (at: seq<nat>, out: seq<nat>)
    requires n <= |ls|
    ensures SiftsPlaces(ls[..n], Selected(ls[..n], false, sel), at, Those(ls, Opening(sel)))
    ensures SiftsPlaces(ls[..n], Unselected(ls[..n], false, sel), out, Not(ls, Opening(sel)))
    ensures InsideAfter(ls[..n], false, sel) <==> n > 0 && Under(ls, n - 1, Opening(sel))
  {
    if n == 0 {
      at, out := [], [];
    } else {
      var x, l := ls[..n - 1], ls[n - 1];
      at, out := SelectedAreUnder(ls, sel, n - 1);
      assert ls[..n] == x + [l];
      UnderOn(ls, n - 1, Opening(sel));
      SelectedAppend(x, [l], false, sel);
      OneSelected(l, InsideAfter(x, false, sel), sel);
      at := SiftsPlacesOn(x, Selected(x, false, sel), at, Those(ls, Opening(sel)), l);
      out := SiftsPlacesOn(x, Unselected(x, false, sel), out, Not(ls, Opening(sel)), l);
      assert Selected(x, false, sel) + [] == Selected(x, false, sel) && Unselected(x, false, sel) + [] == Unselected(x, false, sel);
    }
  }

  lemma OneSelected(l: string, inside: bool, sel: LineTest)
    ensures var in' := Inside(l, inside, sel);
            && InsideAfter([l], inside, sel) == in'
            && Selected([l], inside, sel) == (if in' then [l] else [])
            && Unselected([l], inside, sel) == (if in' then [] else [l])
  {
    assert [l][1..] == [];
  }

  // ---- Escaping recorded text ----------------------------------------------------------

  function EscapeLine(l: string): string {
    var t := TrimLeftSpace(l);
    if HasPrefix(t, "#") || HasPrefix(t, "```") || HasPrefix(t, "~~~") then "\\" + t else l
  }

  function EscapeLines(ls: seq<string>): seq<string> {
    if ls == [] then [] else [EscapeLine(ls[0])] + EscapeLines(ls[1..])
  }

  method EscapeHeadingsAndFences(s: string) returns (r: string)
    ensures r == Join(EscapeLines(Split(s)))
  {
    var lines := Split(s);
    ghost var was := lines;
    var i := 0;
    while i < |lines|
      invariant i <= |lines| == |was|
      invariant lines == EscapeLines(was[..i]) + was[i..]
      invariant |EscapeLines(was[..i])| == i
    {
      var t := TrimLeftSpace(lines[i]);
      EscapeSnoc(was[..i], was[i]);
      TakeSnoc(was, i);
      SetAt(EscapeLines(was[..i]), was[i..], EscapeLine(was[i]));
      if HasPrefix(t, "#") || HasPrefix(t, "```") || HasPrefix(t, "~~~") {
        lines := lines[i := "\\" + t];
      }
      i := i + 1;
    }
    assert was[..|was|] == was;
    assert was[|was|..] == [];
    assert EscapeLines(was) + [] == EscapeLines(was);
    r := Join(lines);
  }

  lemma {:induction false} EscapeSnoc(ls: seq<string>, l: string)
    ensures EscapeLines(ls + [l]) == EscapeLines(ls) + [EscapeLine(l)]
    ensures |EscapeLines(ls)| == |ls|
  {
    if ls == [] {
      assert EscapeLines([l][1..]) == [];
    } else {
      assert (ls + [l])[1..] == ls[1..] + [l];
      EscapeSnoc(ls[1..], l);
    }
  }

  lemma EscapedLineIsPlain(l: string, heading: string)
    ensures !IsHeading(EscapeLine(l)) && !Opener(heading)(EscapeLine(l))
  {
    var t, e := TrimLeftSpace(l), EscapeLine(l);
    TrimLeftStart(l);
    TrimLeftStart(e);
    var te := TrimLeftSpace(e);
    if e != l { assert te == e && te[0] == '\\'; } else { assert te == t; }
    assert Marker(heading)[0] == '#';
    TrimRightStart(te);
    assert l != "" && l[0] == '#' ==> HasPrefix(t, "#");
  }

  lemma {:induction false} TrimLeftStart(s: string)
    ensures TrimLeftSpace(s) != "" ==> !IsSpace(TrimLeftSpace(s)[0])
    ensures s != "" && !IsSpace(s[0]) ==> TrimLeftSpace(s) == s
  {
    if s != "" && IsSpace(s[0]) { TrimLeftStart(s[1..]); }
  }

  lemma {:induction false} TrimRightStart(s: string)
    ensures TrimRightSpace(s) != "" ==> s != "" && TrimRightSpace(s)[0] == s[0]
  {
    if s != "" && IsSpace(s[|s| - 1]) { TrimRightStart(s[..|s| - 1]); }
  }

  // Behind n spaces the line starts as a heading or a fence.
  predicate Marks(l: string, n: nat) {
    && n <= |l| && (forall k :: 0 <= k < n ==> IsSpace(l[k]))
    && (HasPrefix(l[n..], "#") || HasPrefix(l[n..], "```") || HasPrefix(l[n..], "~~~"))
  }

  lemma {:induction false} TrimLeftAt(s: string) returns (n: nat)
    ensures n <= |s| && TrimLeftSpace(s) == s[n..] && (forall k :: 0 <= k < n ==> IsSpace(s[k])) && (n < |s| ==> !IsSpace(s[n]))
  {
    if s != "" && IsSpace(s[0]) {
      var m := TrimLeftAt(s[1..]);
      n := m + 1;
      assert forall k :: 1 <= k < n ==> s[k] == s[1..][k - 1];
    } else {
      n := 0;
    }
  }

  /** Escaping keeps each line's text: a heading or a fence is led by a backslash for its spaces, any other line is as it was. */
  lemma EscapeKeepsText(ls: seq<string>, i: nat)
    requires i < |ls|
    ensures |EscapeLines(ls)| == |ls|
    ensures forall n: nat :: Marks(ls[i], n) ==> EscapeLines(ls)[i] == "\\" + ls[i][n..]
    ensures (forall n: nat :: !Marks(ls[i], n)) ==> EscapeLines(ls)[i] == ls[i]
  {
    EscapeAt(ls, i);
    var l := ls[i];
    var m := TrimLeftAt(l);
    assert EscapeLine(l) != l ==> Marks(l, m);
    forall n: nat | Marks(l, n) ensures n == m {
      assert l[n] == l[n..][0];
    }
  }

  lemma {:induction false} EscapeAt(ls: seq<string>, i: nat)
    requires i < |ls|
    ensures |EscapeLines(ls)| == |ls| && EscapeLines(ls)[i] == EscapeLine(ls[i])
  {
    if i > 0 {
      EscapeAt(ls[1..], i - 1);
    } else if |ls| > 1 {
      EscapeAt(ls[1..], 0);
    }
  }

  /** Escaped text can neither start nor end a section, of any heading. */
  lemma {:induction false} EscapedOpensNothing(ls: seq<string>, heading: string)
    ensures NoneOpens(EscapeLines(ls), Opener(heading)) && Headless(EscapeLines(ls))
  {
    if ls != [] {
      EscapedLineIsPlain(ls[0], heading);
      EscapedOpensNothing(ls[1..], heading);
      assert EscapeLines(ls)[1..] == EscapeLines(ls[1..]);
    }
  }
}
