/**
 * One triage round on the card body and what a later container reads back from all
 * rounds: the key-to-verdict record survives a restart.
 */
module TriageRecord {
  import opened Wrappers
  import opened Text
  import opened Sections
  import opened SectionLaws
  import opened Seqs
  import opened History
  import opened CommentKeys
  import opened Triage
  import GatesRecord
  import GatesRecordLaws

  function CopilotHeading(): string { "Copilot Review" }
  function CommentsLine(): string { "### Comments triaged" }
  function JudgedHead(): string { "The triage verdict could not be " }
  function JudgedMiddle(): string { "read and the review left no line comments " }
  function JudgedTail(): string { "to take at face value; nothing was judged." }
  function NothingJudged(): string { JudgedHead() + JudgedMiddle() + JudgedTail() }
  function NothingRaised(): string { "The reviewer raised nothing to address." }

  // ---- What a round writes ---------------------------------------------------------

  function RoundHeading(round: nat): string {
    CopilotHeading() + (if round > 1 then " (Round " + (GatesRecord.Dec(round) + ")") else "")
  }

  function FileOf(f: Finding): string {
    if TrimSpace(f.file) == "" then "(file not named)" else f.file
  }

  function IssueLine(f: Finding): string {
    "- " + (Verdict(f.valid) + (FileOf(f) + (": " + f.issue)))
  }

  function ReasonLine(f: Finding): string {
    "  - " + TrimSpace(f.reason)
  }

  function FindingLines(fs: seq<Finding>): seq<string> {
    if fs == [] then []
    else
      var f := fs[|fs| - 1];
      FindingLines(fs[..|fs| - 1]) + Split(IssueLine(f)) + (if TrimSpace(f.reason) == "" then [] else Split(ReasonLine(f)))
  }

  // The lines of one finding.
  function Told(f: Finding): (ls: seq<string>)
    ensures ls != []
  {
    Split(IssueLine(f)) + (if TrimSpace(f.reason) == "" then [] else Split(ReasonLine(f)))
  }

  /** Each finding's lines stand in the round, one behind the other, in the findings' order. */
  lemma {:induction false} FindingStands(fs: seq<Finding>, i: nat)
    requires i < |fs|
    ensures FindingLines(fs[..i]) + Told(fs[i]) <= FindingLines(fs)
    ensures i == |fs| - 1 ==> FindingLines(fs[..i]) + Told(fs[i]) == FindingLines(fs)
    decreases |fs|
  {
    var n := |fs| - 1;
    LinesOfLast(fs);
    if i < n {
      FindingStands(fs[..n], i);
      assert fs[..n][..i] == fs[..i] && fs[..n][i] == fs[i];
      PrefixStays(FindingLines(fs[..i]) + Told(fs[i]), FindingLines(fs[..n]), Told(fs[n]));
    }
  }

  lemma LinesOfLast(fs: seq<Finding>)
    requires fs != []
    ensures var n := |fs| - 1; FindingLines(fs) == FindingLines(fs[..n]) + Told(fs[n])
  {
    var f := fs[|fs| - 1];
    Assoc(FindingLines(fs[..|fs| - 1]), Split(IssueLine(f)), if TrimSpace(f.reason) == "" then [] else Split(ReasonLine(f)));
  }

  lemma PrefixStays<T>(p: seq<T>, x: seq<T>, y: seq<T>)
    requires p <= x
    ensures p <= x + y
  {
  }

  function CommentLines(cs: seq<Comment>, vs: seq<bool>): (ls: seq<string>)
    requires |cs| == |vs|
    ensures |ls| == |cs|
  {
    if cs == [] then []
    else var n := |cs| - 1; CommentLines(cs[..n], vs[..n]) + [CommentLine(cs[n], vs[n])]
  }

  function Note(fs: seq<Finding>, unreadable: bool): seq<string> {
    if fs != [] then [] else [if unreadable then NothingJudged() else NothingRaised()]
  }

  function Quiet(fs: seq<Finding>, unreadable: bool): seq<string> {
    [""] + Note(fs, unreadable) + FindingLines(fs)
  }

  function Preamble(round: nat, fs: seq<Finding>, unreadable: bool): seq<string> {
    [Marker(RoundHeading(round))] + Quiet(fs, unreadable)
  }

  function CommentBlock(cs: seq<Comment>, vs: seq<bool>): seq<string>
    requires |cs| == |vs|
  {
    if cs == [] then [] else ["", CommentsLine(), ""] + CommentLines(cs, vs)
  }

  function RoundLines(round: nat, cs: seq<Comment>, fs: seq<Finding>, unreadable: bool): seq<string> {
    Preamble(round, fs, unreadable) + CommentBlock(cs, Verdicts(cs, fs))
  }

  function RoundText(round: nat, cs: seq<Comment>, fs: seq<Finding>, unreadable: bool): string {
    Terminated(RoundLines(round, cs, fs, unreadable))
  }

  /** Behind its heading a round tells every finding, or that there was none and why. */
  lemma RoundTells(round: nat, cs: seq<Comment>, fs: seq<Finding>, unreadable: bool)
    ensures var m := [Marker(RoundHeading(round)), ""];
            if fs != [] then m + FindingLines(fs) <= RoundLines(round, cs, fs, unreadable)
            else m + [if unreadable then NothingJudged() else NothingRaised()] <= RoundLines(round, cs, fs, unreadable)
  {
    var m := [Marker(RoundHeading(round))];
    assert m + [""] == [Marker(RoundHeading(round)), ""];
    Assoc(m, [""] + Note(fs, unreadable), FindingLines(fs));
    Assoc(m, [""], Note(fs, unreadable));
    if fs != [] {
      assert [""] + [] == [""];
      assert Preamble(round, fs, unreadable) == (m + [""]) + FindingLines(fs);
    } else {
      assert Preamble(round, fs, unreadable) == (m + [""]) + Note(fs, unreadable);
    }
  }

  // A finding whose texts stay on their line.
  predicate PlainFinding(f: Finding) {
    OneLine(f.file) && OneLine(f.issue) && OneLine(TrimSpace(f.reason))
  }

  predicate Plain(fs: seq<Finding>) {
    forall i :: 0 <= i < |fs| ==> PlainFinding(fs[i])
  }

  // ---- What a later read collects ----------------------------------------------------

  datatype Reading = Reading(on: bool, seen: Seen)

  function Step(r: Reading, line: string): Reading {
    if HasPrefix(line, "#") then r.(on := TrimSpace(line) == CommentsLine())
    else if !r.on then r
    else match Parse(line)
         case None => r
         case Some(e) => r.(seen := r.seen[Key(e.path, e.digest) := e.valid])
  }

  type Stepper = (Reading, string) -> Reading

  function Reader(): Stepper {
    (r, line) => Step(r, line)
  }

  // The fold of a step over lines; passed in, the step stays closed in the proofs.
  function Collect(ls: seq<string>, r: Reading, step: Stepper): Reading {
    if ls == [] then r else Collect(ls[1..], step(r, ls[0]), step)
  }

  function CopilotTest(): LineTest {
    PrefixTest(CopilotHeading())
  }

  function Triaged(body: string): Seen {
    Collect(Selected(Split(body), false, CopilotTest()), Reading(false, map[]), Reader()).seen
  }

  lemma {:induction false} CollectAppend(x: seq<string>, y: seq<string>, r: Reading, step: Stepper)
    ensures Collect(x + y, r, step) == Collect(y, Collect(x, r, step), step)
  {
    if x == [] {
      assert x + y == y;
    } else {
      assert (x + y)[1..] == x[1..] + y;
      CollectAppend(x[1..], y, step(r, x[0]), step);
    }
  }

  lemma CollectSnoc(x: seq<string>, l: string, r: Reading, step: Stepper)
    ensures Collect(x + [l], r, step) == step(Collect(x, r, step), l)
  {
    CollectAppend(x, [l], r, step);
    assert [l][1..] == [];
  }

  lemma StepBlank(r: Reading)
    ensures Step(r, "") == r
  {
  }

  method CopilotTriagedComments(body: string) returns (triaged: Seen)
    ensures triaged == Triaged(body)
  {
    var text := SectionsWithPrefix(body, CopilotHeading());
    var lines := Split(text);
    ghost var picked := Selected(Split(body), false, CopilotTest());
    SelectedAllLines(Split(body), false, CopilotTest());
    SplitOfJoin(picked + [""]);
    assert lines == picked + [""];
    ghost var start, step := Reading(false, map[]), Reader();
    triaged := map[];
    var collecting := false;
    for i := 0 to |lines|
      invariant Reading(collecting, triaged) == Collect(lines[..i], start, step)
    {
      var line := lines[i];
      CollectSnoc(lines[..i], line, start, step);
      assert lines[..i + 1] == lines[..i] + [line];
      if HasPrefix(line, "#") {
        collecting := TrimSpace(line) == CommentsLine();
      } else if collecting {
        var m := Parse(line);
        if m.Some? {
          triaged := triaged[Key(m.value.path, m.value.digest) := m.value.valid];
        }
      }
    }
    assert lines[..|lines|] == lines;
    CollectSnoc(picked, "", start, step);
    StepBlank(Collect(picked, start, step));
  }

  lemma {:induction false} SelectedAllLines(ls: seq<string>, inside: bool, sel: LineTest)
    requires AllLines(ls)
    ensures AllLines(Selected(ls, inside, sel))
  {
    if ls != [] { SelectedAllLines(ls[1..], Inside(ls[0], inside, sel), sel); }
  }

  // ---- One round read back -------------------------------------------------------------

  predicate AllRecoverable(cs: seq<Comment>) {
    forall i :: 0 <= i < |cs| ==> Recoverable(cs[i])
  }

  lemma {:induction false} CommentsReadBack(cs: seq<Comment>, vs: seq<bool>, seen: Seen)
    requires |cs| == |vs| && AllRecoverable(cs)
    ensures Collect(CommentLines(cs, vs), Reading(true, seen), Reader()) == Reading(true, Noted(seen, cs, vs))
  {
    if cs != [] {
      var n := |cs| - 1;
      CommentsReadBack(cs[..n], vs[..n], seen);
      CollectSnoc(CommentLines(cs[..n], vs[..n]), CommentLine(cs[n], vs[n]), Reading(true, seen), Reader());
      CommentStep(cs[n], vs[n], Reading(true, Noted(seen, cs[..n], vs[..n])));
      assert Keys(cs)[..n] == Keys(cs[..n]);
    }
  }

  lemma CommentStep(c: Comment, v: bool, r: Reading)
    requires Recoverable(c) && r.on
    ensures Step(r, CommentLine(c, v)) == r.(seen := r.seen[KeyOf(c) := v])
  {
    KeyReadsBack(c, v);
    assert CommentLine(c, v)[0] == '-';
  }

  // Lines that neither record a comment nor start the list of them.
  predicate Silent(l: string) {
    !HasPrefix(l, "#")
  }

  lemma {:induction false} SilentLines(ls: seq<string>, r: Reading)
    requires !r.on && forall i :: 0 <= i < |ls| ==> Silent(ls[i])
    ensures Collect(ls, r, Reader()) == r
  {
    if ls != [] { SilentLines(ls[1..], r); }
  }

  lemma PlainLines(f: Finding)
    requires PlainFinding(f)
    ensures Split(IssueLine(f)) == [IssueLine(f)] && Silent(IssueLine(f))
    ensures Split(ReasonLine(f)) == [ReasonLine(f)] && Silent(ReasonLine(f))
  {
    assert OneLine(FileOf(f));
    VerdictOneLine(f.valid);
    var tail := FileOf(f) + (": " + f.issue);
    assert OneLine(": ") && OneLine(tail);
    assert OneLine("- ");
    SplitOfLine(IssueLine(f));
    assert OneLine("  - ");
    SplitOfLine(ReasonLine(f));
    assert IssueLine(f)[0] == '-' && ReasonLine(f)[0] == ' ';
  }

  lemma VerdictOneLine(valid: bool)
    ensures OneLine(Verdict(valid))
  {
  }

  lemma {:induction false} FindingsSilent(fs: seq<Finding>)
    requires Plain(fs)
    ensures forall i :: 0 <= i < |FindingLines(fs)| ==> Silent(FindingLines(fs)[i])
  {
    if fs != [] {
      var n := |fs| - 1;
      FindingsSilent(fs[..n]);
      PlainLines(fs[n]);
    }
  }

  lemma MarkerStep(round: nat, r: Reading)
    ensures Step(r, Marker(RoundHeading(round))) == r.(on := false)
  {
    var m := Marker(RoundHeading(round));
    assert m[..3] == "## ";
    assert m[0] == '#' && HasPrefix(m, "#");
    TrimLeftStart(m);
    TrimRightPrefix(m);
    assert TrimLeftSpace(m) == m;
    assert CommentsLine()[2] == '#';
  }

  lemma {:induction false} TrimRightPrefix(s: string)
    ensures |TrimRightSpace(s)| <= |s| && TrimRightSpace(s) == s[..|TrimRightSpace(s)|]
  {
    if s != "" && IsSpace(s[|s| - 1]) { TrimRightPrefix(s[..|s| - 1]); }
  }

  lemma CommentsLineStep(r: Reading)
    ensures Step(r, CommentsLine()) == r.(on := true)
  {
    TrimSpaceOfTight(CommentsLine());
  }

  lemma NoteSilent(fs: seq<Finding>, unreadable: bool)
    ensures forall i :: 0 <= i < |Note(fs, unreadable)| ==> Silent(Note(fs, unreadable)[i])
  {
    assert NothingJudged()[0] == 'T' && NothingRaised()[0] == 'T';
  }

  lemma QuietSkipped(fs: seq<Finding>, unreadable: bool, r: Reading)
    requires Plain(fs) && !r.on
    ensures Collect(Quiet(fs, unreadable), r, Reader()) == r
  {
    FindingsSilent(fs);
    NoteSilent(fs, unreadable);
    SilentLines(Quiet(fs, unreadable), r);
  }

  lemma HeadThenQuiet(m: string, quiet: seq<string>, r: Reading, off: Reading, step: Stepper)
    requires step(r, m) == off && Collect(quiet, off, step) == off
    ensures Collect([m] + quiet, r, step) == off
  {
    assert ([m] + quiet)[1..] == quiet;
  }

  lemma PreambleReads(round: nat, fs: seq<Finding>, unreadable: bool, r: Reading)
    requires Plain(fs)
    ensures Collect(Preamble(round, fs, unreadable), r, Reader()) == r.(on := false)
  {
    MarkerStep(round, r);
    QuietSkipped(fs, unreadable, r.(on := false));
    HeadThenQuiet(Marker(RoundHeading(round)), Quiet(fs, unreadable), r, r.(on := false), Reader());
  }

  lemma ListOpens(title: string, lines: seq<string>, r: Reading, on: Reading, step: Stepper)
    requires step(r, "") == r && step(r, title) == on && step(on, "") == on
    ensures Collect(["", title, ""] + lines, r, step) == Collect(lines, on, step)
  {
    CollectAppend(["", title, ""], lines, r, step);
    assert ["", title, ""] == ["", title] + [""] && ["", title] == [""] + [title] && [""] == [] + [""];
    CollectSnoc(["", title], "", r, step);
    CollectSnoc([""], title, r, step);
    CollectSnoc([], "", r, step);
  }

  lemma BlockReads(cs: seq<Comment>, vs: seq<bool>, r: Reading)
    requires |cs| == |vs| && AllRecoverable(cs)
    ensures Collect(CommentBlock(cs, vs), r, Reader()).seen == Noted(r.seen, cs, vs)
  {
    if cs != [] {
      StepBlank(r);
      StepBlank(r.(on := true));
      CommentsLineStep(r);
      ListOpens(CommentsLine(), CommentLines(cs, vs), r, r.(on := true), Reader());
      CommentsReadBack(cs, vs, r.seen);
    }
  }

  /** A round's lines, read in any state, add exactly its verdicts under its comments' keys. */
  lemma RoundReads(round: nat, cs: seq<Comment>, fs: seq<Finding>, unreadable: bool, r: Reading)
    requires Plain(fs) && AllRecoverable(cs)
    ensures Collect(RoundLines(round, cs, fs, unreadable), r, Reader()).seen == Noted(r.seen, cs, Verdicts(cs, fs))
  {
    CollectAppend(Preamble(round, fs, unreadable), CommentBlock(cs, Verdicts(cs, fs)), r, Reader());
    PreambleReads(round, fs, unreadable, r);
    BlockReads(cs, Verdicts(cs, fs), r.(on := false));
  }

  // ---- The round on the body ---------------------------------------------------------

  function Read(ls: seq<string>, inside: bool, r: Reading, sel: LineTest, step: Stepper): Reading {
    Collect(Selected(ls, inside, sel), r, step)
  }

  lemma ReadAppend(x: seq<string>, y: seq<string>, inside: bool, r: Reading, sel: LineTest, step: Stepper)
    ensures Read(x + y, inside, r, sel, step) == Read(y, InsideAfter(x, inside, sel), Read(x, inside, r, sel, step), sel, step)
  {
    SelectedAppend(x, y, inside, sel);
    CollectAppend(Selected(x, inside, sel), Selected(y, InsideAfter(x, inside, sel), sel), r, step);
  }

  lemma {:induction false} ReadBlanks(ls: seq<string>, inside: bool, r: Reading, sel: LineTest, step: Stepper)
    requires step(r, "") == r && forall i :: 0 <= i < |ls| ==> ls[i] == ""
    ensures Read(ls, inside, r, sel, step) == r && InsideAfter(ls, inside, sel) == inside
  {
    if ls != [] {
      assert !IsHeading("");
      ReadBlanks(ls[1..], inside, r, sel, step);
      var rest := Selected(ls[1..], inside, sel);
      assert [] + rest == rest;
      assert ([""] + rest)[1..] == rest;
    }
  }

  ghost predicate IgnoresBlanks(step: Stepper) {
    forall r :: step(r, "") == r
  }

  lemma ReadTrimmed(before: seq<string>, r: Reading, sel: LineTest, step: Stepper)
    requires IgnoresBlanks(step)
    ensures Read(Head(DropTrail(before)), false, r, sel, step) == Read(before, false, r, sel, step)
  {
    var d := DropTrail(before);
    var blanks := before[|d|..];
    assert before == d + blanks;
    ReadAppend(d, blanks, false, r, sel, step);
    ReadBlanks(blanks, InsideAfter(d, false, sel), Read(d, false, r, sel, step), sel, step);
    if d != [] {
      ReadAppend(d, [""], false, r, sel, step);
      ReadBlanks([""], InsideAfter(d, false, sel), Read(d, false, r, sel, step), sel, step);
    }
  }

  // A heading line is read the same whatever list was being collected.
  ghost predicate HeadingsReset(step: Stepper) {
    forall r: Reading, r': Reading, l: string :: IsHeading(l) && r.seen == r'.seen ==> step(r, l) == step(r', l)
  }

  lemma {:induction false} ReadOutside(ls: seq<string>, r: Reading, r': Reading, sel: LineTest, step: Stepper)
    requires HeadingsReset(step) && r.seen == r'.seen
    ensures Read(ls, false, r, sel, step).seen == Read(ls, false, r', sel, step).seen
  {
    if ls != [] {
      var rest := Selected(ls[1..], Inside(ls[0], false, sel), sel);
      if Inside(ls[0], false, sel) {
        assert step(r, ls[0]) == step(r', ls[0]);
        assert ([ls[0]] + rest)[1..] == rest;
      } else {
        ReadOutside(ls[1..], r, r', sel, step);
        assert [] + rest == rest;
      }
    }
  }

  lemma ReadBehind(after: seq<string>, inside: bool, r: Reading, sel: LineTest, step: Stepper)
    requires HeadingsReset(step) && IgnoresBlanks(step) && Headed(after)
    ensures Read([""] + Foot(after), inside, r, sel, step).seen == Read(after, false, Reading(false, r.seen), sel, step).seen
  {
    ReadAppend([""], Foot(after), inside, r, sel, step);
    ReadBlanks([""], inside, r, sel, step);
    if after != [] {
      ReadAppend(after, [""], inside, r, sel, step);
      ReadBlanks([""], InsideAfter(after, inside, sel), Read(after, inside, r, sel, step), sel, step);
      assert Selected(after, inside, sel) == Selected(after, false, sel);
      ReadOutside(after, r, Reading(false, r.seen), sel, step);
    }
  }

  lemma {:induction false} SelectedWhole(ls: seq<string>, sel: LineTest)
    requires Headless(ls)
    ensures Selected(ls, true, sel) == ls
  {
    if ls != [] {
      SelectedWhole(ls[1..], sel);
      assert [ls[0]] + ls[1..] == ls;
    }
  }

  lemma ReadSection(sec: seq<string>, inside: bool, r: Reading, sel: LineTest, step: Stepper)
    requires sec != [] && IsHeading(sec[0]) && sel(sec[0]) && Headless(sec[1..])
    ensures Read(sec, inside, r, sel, step) == Collect(sec, r, step)
  {
    SelectedWhole(sec[1..], sel);
    assert [sec[0]] + sec[1..] == sec;
  }

  lemma ReadWrite(ls: seq<string>, opens: LineTest, sec: seq<string>, r: Reading, sel: LineTest, step: Stepper) returns (s: Sides)
    requires HeadingsReset(step) && IgnoresBlanks(step)
    requires sec != [] && IsHeading(sec[0]) && sel(sec[0]) && Headless(sec[1..])
    ensures s.Of(ls, opens)
    ensures Read(UpsertLines(ls, opens, sec), false, r, sel, step).seen ==
            Read(s.after, false, Reading(false, Collect(sec, Read(s.before, false, r, sel, step), step).seen), sel, step).seen
  {
    s := SidesOf(ls, opens);
    var head, tail := Head(DropTrail(s.before)), [""] + Foot(s.after);
    ReadAppend(head, sec + tail, false, r, sel, step);
    ReadTrimmed(s.before, r, sel, step);
    var r1, in1 := Read(head, false, r, sel, step), InsideAfter(head, false, sel);
    ReadAppend(sec, tail, in1, r1, sel, step);
    ReadSection(sec, in1, r1, sel, step);
    ReadBehind(s.after, InsideAfter(sec, in1, sel), Read(sec, in1, r1, sel, step), sel, step);
  }

  lemma ReaderLaws()
    ensures HeadingsReset(Reader()) && IgnoresBlanks(Reader())
  {
    forall r: Reading, r': Reading, l: string | IsHeading(l) && r.seen == r'.seen ensures Reader()(r, l) == Reader()(r', l) {
      assert HasPrefix(l, "#");
    }
    forall r ensures Reader()(r, "") == r { StepBlank(r); }
  }

  // No line but the first is a column-0 heading, and none but it could open a section.
  lemma {:induction false} CommentLinesDash(cs: seq<Comment>, vs: seq<bool>)
    requires |cs| == |vs|
    ensures forall i :: 0 <= i < |cs| ==> CommentLines(cs, vs)[i] != "" && CommentLines(cs, vs)[i][0] == '-'
  {
    if cs != [] {
      CommentLinesDash(cs[..|cs| - 1], vs[..|cs| - 1]);
      assert CommentLine(cs[|cs| - 1], vs[|cs| - 1])[0] == '-';
    }
  }

  lemma TailOf(m: string, quiet: seq<string>, block: seq<string>)
    ensures ([m] + quiet + block)[0] == m && ([m] + quiet + block)[1..] == quiet + block
  {
  }

  lemma QuietHeadless(fs: seq<Finding>, unreadable: bool)
    requires Plain(fs)
    ensures Headless(Quiet(fs, unreadable))
  {
    FindingsSilent(fs);
    NoteSilent(fs, unreadable);
    SilentHeadless(Quiet(fs, unreadable));
  }

  lemma RoundHeadless(round: nat, cs: seq<Comment>, fs: seq<Finding>, unreadable: bool)
    requires Plain(fs)
    ensures var ls := RoundLines(round, cs, fs, unreadable);
            ls != [] && ls[0] == Marker(RoundHeading(round)) && Headless(ls[1..])
  {
    TailOf(Marker(RoundHeading(round)), Quiet(fs, unreadable), CommentBlock(cs, Verdicts(cs, fs)));
    QuietHeadless(fs, unreadable);
    BlockHeadless(cs, Verdicts(cs, fs));
    HeadlessBoth(Quiet(fs, unreadable), CommentBlock(cs, Verdicts(cs, fs)));
  }

  lemma {:induction false} SilentHeadless(ls: seq<string>)
    requires forall i :: 0 <= i < |ls| ==> Silent(ls[i])
    ensures Headless(ls)
  {
    if ls != [] {
      assert Silent(ls[0]);
      assert IsHeading(ls[0]) ==> HasPrefix(ls[0], "#");
      SilentHeadless(ls[1..]);
    }
  }

  lemma BlockHeadless(cs: seq<Comment>, vs: seq<bool>)
    requires |cs| == |vs|
    ensures Headless(CommentBlock(cs, vs))
  {
    if cs != [] {
      CommentLinesDash(cs, vs);
      var lines := CommentLines(cs, vs);
      forall i | 0 <= i < |lines| ensures Silent(lines[i]) { assert lines[i][0] == '-'; }
      SilentHeadless(lines);
      assert !IsHeading(CommentsLine()) by { assert CommentsLine()[2] == '#'; }
      CutAt(["", CommentsLine(), ""], 3);
      CutAppend(["", CommentsLine(), ""], lines);
    }
  }

  // The round's section as the store writes it: its lines less trailing blanks.
  lemma RoundSection(round: nat, cs: seq<Comment>, fs: seq<Finding>, unreadable: bool)
    requires Plain(fs)
    ensures var ls := RoundLines(round, cs, fs, unreadable);
            AllLines(ls) && SectionLines(RoundText(round, cs, fs, unreadable)) == DropTrail(ls)
  {
    var ls := RoundLines(round, cs, fs, unreadable);
    RoundHeadless(round, cs, fs, unreadable);
    RoundAllLines(round, cs, fs, unreadable);
    SplitOfJoin(ls + [""]);
    DropTrailAppend(ls, [""]);
    assert DropTrail([""]) == [] by { assert [""][..0] == []; }
    KeepsHead(ls);
  }

  lemma {:induction false} KeepsHead(ls: seq<string>)
    requires ls != [] && ls[0] != ""
    ensures DropTrail(ls) != [] && DropTrail(ls)[0] == ls[0]
  {
    if ls[|ls| - 1] == "" { KeepsHead(ls[..|ls| - 1]); }
  }

  lemma RoundAllLines(round: nat, cs: seq<Comment>, fs: seq<Finding>, unreadable: bool)
    ensures AllLines(RoundLines(round, cs, fs, unreadable))
  {
    HeadingOneLine(round);
    NotesOneLine(fs, unreadable);
    FindingsAllLines(fs);
    BlockAllLines(cs, Verdicts(cs, fs));
    assert OneLine("");
  }

  lemma {:induction false} DecOneLine(n: nat)
    ensures OneLine(GatesRecord.Dec(n))
  {
    if n >= 10 { DecOneLine(n / 10); }
  }

  lemma HeadingOneLine(round: nat)
    ensures OneLine(Marker(RoundHeading(round)))
  {
    DecOneLine(round);
    assert OneLine(CopilotHeading()) && OneLine("## ") && OneLine(" (Round ") && OneLine(")") && OneLine("");
  }

  lemma NotesOneLine(fs: seq<Finding>, unreadable: bool)
    ensures AllLines(Note(fs, unreadable))
  {
    JudgedOneLine();
    assert OneLine(NothingRaised());
  }

  lemma JudgedOneLine()
    ensures OneLine(NothingJudged())
  {
    HeadOneLine();
    MiddleOneLine();
    TailOneLine();
    OneLineConcat(JudgedHead(), JudgedMiddle());
    OneLineConcat(JudgedHead() + JudgedMiddle(), JudgedTail());
  }

  lemma OneLineConcat(a: string, b: string)
    requires OneLine(a) && OneLine(b)
    ensures OneLine(a + b)
  {
  }

  lemma HeadOneLine()
    ensures OneLine(JudgedHead())
  {
  }

  lemma MiddleOneLine()
    ensures OneLine(JudgedMiddle())
  {
  }

  lemma TailOneLine()
    ensures OneLine(JudgedTail())
  {
  }

  lemma {:induction false} FindingsAllLines(fs: seq<Finding>)
    ensures AllLines(FindingLines(fs))
  {
    if fs != [] { FindingsAllLines(fs[..|fs| - 1]); }
  }

  lemma BlockAllLines(cs: seq<Comment>, vs: seq<bool>)
    requires |cs| == |vs|
    ensures AllLines(CommentBlock(cs, vs))
  {
    CommentsAllLines(cs, vs);
    assert OneLine(CommentsLine()) && OneLine("");
  }

  lemma {:induction false} CommentsAllLines(cs: seq<Comment>, vs: seq<bool>)
    requires |cs| == |vs|
    ensures AllLines(CommentLines(cs, vs))
  {
    if cs != [] {
      var n := |cs| - 1;
      CommentsAllLines(cs[..n], vs[..n]);
      LineOneLine(cs[n], vs[n]);
    }
  }

  lemma LineOneLine(c: Comment, v: bool)
    ensures OneLine(CommentLine(c, v))
  {
    FlattenIsFlat(c.path);
    FlatChars(Flatten(c.path));
    FlattenIsFlat(c.body);
    FlatChars(Flatten(c.body));
    DigestOneLine(c.body);
    VerdictOneLine(v);
    assert OneLine("- ") && OneLine(": ");
  }

  lemma DigestOneLine(body: string)
    requires OneLine(Flatten(body))
    ensures OneLine(Digest(body))
  {
  }

  lemma HeadingSelected(round: nat)
    ensures IsHeading(Marker(RoundHeading(round))) && CopilotTest()(Marker(RoundHeading(round)))
  {
    var m, p := Marker(RoundHeading(round)), Marker(CopilotHeading());
    assert m[..3] == "## ";
    assert m == p + (if round > 1 then " (Round " + (GatesRecord.Dec(round) + ")") else "");
  }

  lemma TrimmedSection(ls: seq<string>, r: Reading, step: Stepper)
    requires IgnoresBlanks(step)
    ensures Collect(DropTrail(ls), r, step) == Collect(ls, r, step)
  {
    var d := DropTrail(ls);
    assert ls == d + ls[|d|..];
    CollectAppend(d, ls[|d|..], r, step);
    CollectBlanks(ls[|d|..], Collect(d, r, step), step);
  }

  lemma {:induction false} CollectBlanks(ls: seq<string>, r: Reading, step: Stepper)
    requires step(r, "") == r && forall i :: 0 <= i < |ls| ==> ls[i] == ""
    ensures Collect(ls, r, step) == r
  {
    if ls != [] { CollectBlanks(ls[1..], r, step); }
  }

  lemma DroppedHeadless(ls: seq<string>)
    requires ls != [] && ls[0] != "" && Headless(ls[1..])
    ensures Headless(DropTrail(ls)[1..]) && DropTrail(ls) != [] && DropTrail(ls)[0] == ls[0]
  {
    KeepsHead(ls);
    var d := DropTrail(ls);
    assert ls[1..] == d[1..] + ls[|d|..];
    CutAppend(d[1..], ls[|d|..]);
    CutParts(d[1..]);
    CutParts(ls[1..]);
  }

  /**
   * The record survives a restart: reading the body after a round was written gives the
   * verdicts of the sections before it, then the round's own under its comments' keys,
   * then those of the sections after it.
   */
  lemma RoundIsReadBack(body: string, round: nat, cs: seq<Comment>, fs: seq<Finding>, unreadable: bool) returns (s: Sides)
    requires Plain(fs) && AllRecoverable(cs)
    ensures s.Of(Split(body), Opener(RoundHeading(round)))
    ensures Triaged(Upsert(body, RoundHeading(round), RoundText(round, cs, fs, unreadable))) ==
            Read(s.after, false,
                 Reading(false, Noted(Read(s.before, false, Reading(false, map[]), CopilotTest(), Reader()).seen, cs, Verdicts(cs, fs))),
                 CopilotTest(), Reader()).seen
  {
    var heading, text := RoundHeading(round), RoundText(round, cs, fs, unreadable);
    var lines := RoundLines(round, cs, fs, unreadable);
    ReaderLaws();
    RoundSection(round, cs, fs, unreadable);
    RoundHeadless(round, cs, fs, unreadable);
    HeadingSelected(round);
    DroppedHeadless(lines);
    SplitOfUpsert(body, heading, text);
    s := ReadWrite(Split(body), Opener(heading), DropTrail(lines), Reading(false, map[]), CopilotTest(), Reader());
    var r := Read(s.before, false, Reading(false, map[]), CopilotTest(), Reader());
    TrimmedSection(lines, r, Reader());
    RoundReads(round, cs, fs, unreadable, r);
  }

  /** A round the body does not hold yet adds its verdicts to all those already on record. */
  lemma NewRoundIsReadBack(body: string, round: nat, cs: seq<Comment>, fs: seq<Finding>, unreadable: bool)
    requires Plain(fs) && AllRecoverable(cs)
    requires NoneOpens(Split(body), Opener(RoundHeading(round)))
    ensures Triaged(Upsert(body, RoundHeading(round), RoundText(round, cs, fs, unreadable))) ==
            Noted(Triaged(body), cs, Verdicts(cs, fs))
  {
    var s := RoundIsReadBack(body, round, cs, fs, unreadable);
    assert s.gone == [] && s.after == [];
    Assoc(s.before, s.gone, s.after);
    assert s.before + ([] + []) == s.before;
    assert Selected([], false, CopilotTest()) == [];
  }

  // ---- The round beside the gates' own section --------------------------------------------

  predicate NoHash(l: string) {
    TrimLeftSpace(l) == "" || TrimLeftSpace(l)[0] != '#'
  }

  lemma {:induction false} NoHashOpensNothing(ls: seq<string>, heading: string)
    requires forall i :: 0 <= i < |ls| ==> NoHash(ls[i])
    ensures NoneOpens(ls, Opener(heading))
  {
    if ls != [] {
      assert NoHash(ls[0]);
      TrimRightStart(TrimLeftSpace(ls[0]));
      assert Marker(heading)[0] == '#';
      NoHashOpensNothing(ls[1..], heading);
    }
  }

  lemma FindingNoHash(f: Finding)
    ensures NoHash(IssueLine(f)) && NoHash(ReasonLine(f))
  {
    assert IssueLine(f)[0] == '-';
    var r := ReasonLine(f);
    assert r[0] == ' ' && r[1..][0] == ' ' && r[1..][1..][0] == '-';
    assert TrimLeftSpace(r) == TrimLeftSpace(r[1..]);
    assert TrimLeftSpace(r[1..]) == TrimLeftSpace(r[1..][1..]);
    assert TrimLeftSpace(r[1..][1..]) == r[1..][1..];
  }

  lemma {:induction false} FindingsNoHash(fs: seq<Finding>)
    requires Plain(fs)
    ensures forall i :: 0 <= i < |FindingLines(fs)| ==> NoHash(FindingLines(fs)[i])
  {
    if fs != [] {
      FindingsNoHash(fs[..|fs| - 1]);
      PlainLines(fs[|fs| - 1]);
      FindingNoHash(fs[|fs| - 1]);
    }
  }

  lemma QuietOpensNothing(fs: seq<Finding>, unreadable: bool, heading: string)
    requires Plain(fs)
    ensures NoneOpens(Quiet(fs, unreadable), Opener(heading))
  {
    FindingsNoHash(fs);
    assert NothingJudged()[0] == 'T' && NothingRaised()[0] == 'T';
    var note := Note(fs, unreadable);
    assert forall i :: 0 <= i < |note| ==> NoHash(note[i]);
    NoHashOpensNothing([""], heading);
    NoHashOpensNothing(note, heading);
    NoHashOpensNothing(FindingLines(fs), heading);
    FirstAppend([""], note, Opener(heading));
    FirstAppend([""] + note, FindingLines(fs), Opener(heading));
  }

  lemma {:induction false} CommentsNoHash(cs: seq<Comment>, vs: seq<bool>)
    requires |cs| == |vs|
    ensures forall i :: 0 <= i < |cs| ==> NoHash(CommentLines(cs, vs)[i])
  {
    CommentLinesDash(cs, vs);
    var lines := CommentLines(cs, vs);
    forall i | 0 <= i < |lines| ensures NoHash(lines[i]) { assert TrimLeftSpace(lines[i]) == lines[i]; }
  }

  // A round's heading is its own line, trimmed or not.
  lemma RoundMarkerIsTight(round: nat)
    ensures TrimSpace(Marker(RoundHeading(round))) == Marker(RoundHeading(round))
  {
    var heading := RoundHeading(round);
    assert heading[|heading| - 1] == if round > 1 then ')' else 'w';
    assert Marker(heading)[|Marker(heading)| - 1] == heading[|heading| - 1];
    TrimSpaceOfTight(Marker(heading));
  }

  lemma MarkersDiffer(a: string, b: string)
    requires a != b
    ensures Marker(a) != Marker(b)
  {
    assert Marker(a)[3..] == a && Marker(b)[3..] == b;
  }

  lemma TitlesOpenNothing(round: nat, heading: string)
    requires heading != RoundHeading(round)
    ensures NoneOpens([Marker(RoundHeading(round))], Opener(heading))
  {
    RoundMarkerIsTight(round);
    MarkersDiffer(heading, RoundHeading(round));
    FirstAt([Marker(RoundHeading(round))], Opener(heading), 1);
  }

  lemma BlockTitleOpensNothing(heading: string)
    ensures NoneOpens(["", CommentsLine(), ""], Opener(heading))
  {
    TrimSpaceOfTight(CommentsLine());
    assert CommentsLine()[2] == '#' && Marker(heading)[2] == ' ';
    OpenerSkipsBlanks(heading);
    FirstAt(["", CommentsLine(), ""], Opener(heading), 3);
  }

  lemma BlockOpensNothing(cs: seq<Comment>, vs: seq<bool>, heading: string)
    requires |cs| == |vs|
    ensures NoneOpens(CommentBlock(cs, vs), Opener(heading))
  {
    if cs != [] {
      BlockTitleOpensNothing(heading);
      CommentsNoHash(cs, vs);
      NoHashOpensNothing(CommentLines(cs, vs), heading);
      FirstAppend(["", CommentsLine(), ""], CommentLines(cs, vs), Opener(heading));
    }
  }

  // A round of single-line findings opens no section but its own.
  lemma RoundOpensNoOther(round: nat, cs: seq<Comment>, fs: seq<Finding>, unreadable: bool, heading: string)
    requires Plain(fs) && heading != RoundHeading(round)
    ensures NoneOpens(SectionLines(RoundText(round, cs, fs, unreadable)), Opener(heading))
  {
    var opens := Opener(heading);
    var head, quiet, block := [Marker(RoundHeading(round))], Quiet(fs, unreadable), CommentBlock(cs, Verdicts(cs, fs));
    TitlesOpenNothing(round, heading);
    QuietOpensNothing(fs, unreadable, heading);
    BlockOpensNothing(cs, Verdicts(cs, fs), heading);
    FirstAppend(head, quiet, opens);
    FirstAppend(head + quiet, block, opens);
    RoundSection(round, cs, fs, unreadable);
    OpenerSkipsBlanks(heading);
    TrailOpensNothing(RoundLines(round, cs, fs, unreadable), opens);
  }

  /** A round of single-line findings never passes for the gates' progress: recording it keeps what the body holds. */
  lemma RoundOpensNoGates(round: nat, cs: seq<Comment>, fs: seq<Finding>, unreadable: bool)
    requires Plain(fs)
    ensures NoneOpens(SectionLines(RoundText(round, cs, fs, unreadable)), GatesRecordLaws.GatesOpener())
  {
    RoundIsNotGates(round);
    RoundOpensNoOther(round, cs, fs, unreadable, GatesRecord.GatesHeading());
  }

  lemma RoundIsNotGates(round: nat)
    ensures RoundHeading(round) != GatesRecord.GatesHeading()
  {
    assert RoundHeading(round)[0] == 'C' && GatesRecord.GatesHeading()[0] == 'P';
  }

  // ---- Round after round -------------------------------------------------------------------

  /** Two rounds never share a heading: neither opens, overwrites or reads as the other. */
  lemma RoundsApart(a: nat, b: nat)
    requires 1 <= a && 1 <= b && a != b
    ensures RoundHeading(a) != RoundHeading(b)
    ensures forall l :: !(Opener(RoundHeading(a))(l) && Opener(RoundHeading(b))(l))
  {
    GatesRecord.DecReads(a);
    GatesRecord.DecReads(b);
    if a == 1 || b == 1 {
      assert |RoundHeading(1)| == |CopilotHeading()|;
    } else {
      NumberStands(a);
      NumberStands(b);
    }
    MarkersDiffer(RoundHeading(a), RoundHeading(b));
  }

  lemma NumberStands(round: nat)
    requires round > 1
    ensures var h, from := RoundHeading(round), |CopilotHeading()| + |" (Round "|;
            |h| > |CopilotHeading()| + |" (Round "| && h[from..|h| - 1] == GatesRecord.Dec(round)
  {
  }

  // A triage round, as it is recorded.
  datatype Round = Round(number: nat, comments: seq<Comment>, findings: seq<Finding>, unreadable: bool) {
    function Text(): string { RoundText(number, comments, findings, unreadable) }
    function WriteTo(body: string): string { Upsert(body, RoundHeading(number), Text()) }
    function On(seen: Seen): Seen { Noted(seen, comments, Verdicts(comments, findings)) }
    predicate Sound() { 1 <= number && Plain(findings) && AllRecoverable(comments) }
  }

  // The body after these rounds, and the record they add up to.
  function Written(body: string, rounds: seq<Round>): string {
    if rounds == [] then body
    else rounds[|rounds| - 1].WriteTo(Written(body, rounds[..|rounds| - 1]))
  }

  function AddedUp(seen: Seen, rounds: seq<Round>): Seen {
    if rounds == [] then seen else rounds[|rounds| - 1].On(AddedUp(seen, rounds[..|rounds| - 1]))
  }

  // A round leaves a body without another round's heading without it.
  lemma RoundStaysAbsent(body: string, r: Round, other: nat)
    requires r.Sound() && 1 <= other && other != r.number
    requires NoneOpens(Split(body), Opener(RoundHeading(other)))
    ensures NoneOpens(Split(r.WriteTo(body)), Opener(RoundHeading(other)))
  {
    RoundsApart(r.number, other);
    RoundOpensNoOther(r.number, r.comments, r.findings, r.unreadable, RoundHeading(other));
    OpenerSkipsBlanks(RoundHeading(other));
    AbsentStays(Split(body), Opener(RoundHeading(r.number)), SectionLines(r.Text()), Opener(RoundHeading(other)));
    SplitOfUpsert(body, RoundHeading(r.number), r.Text());
  }

  lemma {:induction false} RoundsStayAbsent(body: string, rounds: seq<Round>, other: nat)
    requires 1 <= other && NoneOpens(Split(body), Opener(RoundHeading(other)))
    requires forall i :: 0 <= i < |rounds| ==> rounds[i].Sound() && rounds[i].number != other
    ensures NoneOpens(Split(Written(body, rounds)), Opener(RoundHeading(other)))
  {
    if rounds != [] {
      var n := |rounds| - 1;
      RoundsStayAbsent(body, rounds[..n], other);
      RoundStaysAbsent(Written(body, rounds[..n]), rounds[n], other);
    }
  }

  lemma RoundAdds(body: string, r: Round)
    requires r.Sound() && NoneOpens(Split(body), Opener(RoundHeading(r.number)))
    ensures Triaged(r.WriteTo(body)) == r.On(Triaged(body))
  {
    NewRoundIsReadBack(body, r.number, r.comments, r.findings, r.unreadable);
  }

  // Sound rounds of different numbers, none of which the body holds yet.
  predicate NewRounds(body: string, rounds: seq<Round>) {
    && (forall i :: 0 <= i < |rounds| ==> NewRound(body, rounds[i]))
    && forall i, j :: 0 <= i < j < |rounds| ==> rounds[i].number != rounds[j].number
  }

  predicate NewRound(body: string, r: Round) {
    r.Sound() && NoneOpens(Split(body), Opener(RoundHeading(r.number)))
  }

  /**
   * Rounds of different numbers, written one after another to a body that holds none of
   * them, are all read back: their verdicts stand on record in the order they were made.
   */
  lemma {:induction false} RoundsAddUp(body: string, rounds: seq<Round>)
    requires NewRounds(body, rounds)
    ensures Triaged(Written(body, rounds)) == AddedUp(Triaged(body), rounds)
  {
    if rounds != [] {
      var n := |rounds| - 1;
      FrontIsNew(body, rounds);
      RoundsAddUp(body, rounds[..n]);
      LastIsNew(body, rounds);
      LastAdds(Written(body, rounds[..n]), Triaged(body), rounds[..n], rounds[n]);
    }
  }

  lemma FrontIsNew(body: string, rounds: seq<Round>)
    requires rounds != [] && NewRounds(body, rounds)
    ensures NewRounds(body, rounds[..|rounds| - 1])
  {
  }

  lemma LastAdds(body: string, seen: Seen, rounds: seq<Round>, r: Round)
    requires NewRound(body, r) && Triaged(body) == AddedUp(seen, rounds)
    ensures Triaged(r.WriteTo(body)) == r.On(AddedUp(seen, rounds))
  {
    RoundAdds(body, r);
  }

  lemma LastIsNew(body: string, rounds: seq<Round>)
    requires rounds != [] && NewRounds(body, rounds)
    ensures NewRound(Written(body, rounds[..|rounds| - 1]), rounds[|rounds| - 1])
  {
    var n := |rounds| - 1;
    assert NewRound(body, rounds[n]);
    forall i | 0 <= i < n ensures rounds[..n][i].Sound() && rounds[..n][i].number != rounds[n].number {
      assert NewRound(body, rounds[i]);
    }
    RoundsStayAbsent(body, rounds[..n], rounds[n].number);
  }

  // ---- The method ------------------------------------------------------------------------------

  method FindingsText(ghost ls: seq<string>, start: string, findings: seq<Finding>) returns (b: string)
    requires start == Terminated(ls)
    ensures b == Terminated(ls + FindingLines(findings))
  {
    b := start;
    assert ls + FindingLines([]) == ls;
    for i := 0 to |findings|
      invariant b == Terminated(ls + FindingLines(findings[..i]))
    {
      var f := findings[i];
      assert findings[..i + 1][..i] == findings[..i];
      ghost var upto := FindingLines(findings[..i]);
      GatesRecord.TerminatedConcat(ls + upto, IssueLine(f));
      Assoc(ls, upto, Split(IssueLine(f)));
      b := b + IssueLine(f) + "\n";
      if TrimSpace(f.reason) != "" {
        GatesRecord.TerminatedConcat(ls + (upto + Split(IssueLine(f))), ReasonLine(f));
        Assoc(ls, upto + Split(IssueLine(f)), Split(ReasonLine(f)));
        b := b + ReasonLine(f) + "\n";
      } else {
        assert upto + Split(IssueLine(f)) + [] == upto + Split(IssueLine(f));
      }
    }
    assert findings[..|findings|] == findings;
  }

  method CommentsText(ghost ls: seq<string>, start: string, comments: seq<Comment>, verdicts: seq<bool>) returns (b: string)
    requires start == Terminated(ls) && |comments| == |verdicts|
    ensures b == Terminated(ls + CommentLines(comments, verdicts))
  {
    b := start;
    assert ls + CommentLines([], []) == ls;
    for i := 0 to |comments|
      invariant b == Terminated(ls + CommentLines(comments[..i], verdicts[..i]))
    {
      assert comments[..i + 1][..i] == comments[..i] && verdicts[..i + 1][..i] == verdicts[..i];
      var line := CommentLine(comments[i], verdicts[i]);
      ghost var upto := CommentLines(comments[..i], verdicts[..i]);
      TerminatedAppend(ls + upto, line);
      Assoc(ls, upto, [line]);
      b := b + line + "\n";
    }
    assert comments[..|comments|] == comments && verdicts[..|verdicts|] == verdicts;
  }

  method PreambleText(round: nat, findings: seq<Finding>, unreadable: bool) returns (b: string)
    ensures b == Terminated(Preamble(round, findings, unreadable))
  {
    var m := Marker(RoundHeading(round));
    assert Terminated([]) == "" by { assert [] + [""] == [""]; }
    TerminatedAppend([], m);
    TerminatedAppend([m], "");
    assert [] + [m] == [m];
    b := "" + m + "\n";
    b := b + "" + "\n";
    ghost var ls := [m] + [""];
    if findings == [] {
      var note := if unreadable then NothingJudged() else NothingRaised();
      TerminatedAppend(ls, note);
      b := b + note + "\n";
    } else {
      assert ls + [] == ls;
    }
    b := FindingsText(ls + Note(findings, unreadable), b, findings);
    PreambleIs(m, Note(findings, unreadable), FindingLines(findings));
  }

  lemma PreambleIs(m: string, note: seq<string>, lines: seq<string>)
    ensures [m] + [""] + note + lines == [m] + ([""] + note + lines)
  {
  }

  method RecordCopilotRound(body: string, round: nat, comments: seq<Comment>, findings: seq<Finding>, unreadable: bool) returns (r: string)
    ensures r == Upsert(body, RoundHeading(round), RoundText(round, comments, findings, unreadable))
  {
    ghost var pre := Preamble(round, findings, unreadable);
    var b := PreambleText(round, findings, unreadable);
    var verdicts := CopilotCommentVerdicts(comments, findings);
    if comments != [] {
      TerminatedAppend(pre, "");
      TerminatedAppend(pre + [""], CommentsLine());
      TerminatedAppend(pre + [""] + [CommentsLine()], "");
      b := b + "" + "\n";
      b := b + CommentsLine() + "\n";
      b := b + "" + "\n";
      b := CommentsText(pre + [""] + [CommentsLine()] + [""], b, comments, verdicts);
      BlockIs(pre, CommentsLine(), CommentLines(comments, verdicts));
    } else {
      assert pre + [] == pre;
    }
    r := UpsertSection(body, RoundHeading(round), b);
  }

  lemma BlockIs(pre: seq<string>, title: string, lines: seq<string>)
    ensures pre + [""] + [title] + [""] + lines == pre + (["", title, ""] + lines)
  {
  }
}
