/**
 * The card-body section store: a section starts at the first line whose trimmed
 * text is "## <heading>" and ends before the next line that starts with "## " in
 * column 0. The methods follow the store's own scans over text; each is proved
 * equal to a function on lines, and SectionLaws is about those functions.
 */
module Sections {
  import opened Text

  type LineTest = string -> bool

  function Marker(heading: string): string {
    "## " + heading
  }

  // The test that starts a section: trimmed text against the marker.
  function Opener(heading: string): LineTest {
    line => TrimSpace(line) == Marker(heading)
  }

  // A column-0 heading: the only kind of line that ends a section.
  predicate IsHeading(line: string) {
    HasPrefix(line, "## ")
  }

  // The first line that opens a section, |ls| when none does.
  function First(ls: seq<string>, opens: LineTest): (i: nat)
    ensures i <= |ls|
  {
    if ls == [] || opens(ls[0]) then 0 else 1 + First(ls[1..], opens)
  }

  // The lines before the first column-0 heading, and the lines from it on.
  function Cut(ls: seq<string>): (r: seq<string>)
    ensures |r| <= |ls|
  {
    if ls == [] || IsHeading(ls[0]) then [] else [ls[0]] + Cut(ls[1..])
  }

  function Rest(ls: seq<string>): (r: seq<string>) {
    ls[|Cut(ls)|..]
  }

  // A section's own lines, as every writer trims them.
  function SectionLines(section: string): (s: seq<string>)
    ensures s != [] && AllLines(s)
  {
    OrBlank(DropTrail(Split(section)))
  }

  function Head(before: seq<string>): seq<string> {
    if before == [] then [] else before + [""]
  }

  function Foot(after: seq<string>): seq<string> {
    if after == [] then [] else after + [""]
  }

  function Layout(before: seq<string>, sec: seq<string>, after: seq<string>): seq<string> {
    Head(before) + (sec + ([""] + Foot(after)))
  }

  function UpsertLines(ls: seq<string>, opens: LineTest, sec: seq<string>): seq<string> {
    var i := First(ls, opens);
    Layout(DropTrail(ls[..i]), sec, if i == |ls| then [] else Rest(ls[i + 1..]))
  }

  function Upsert(body: string, heading: string, section: string): string {
    Join(UpsertLines(Split(body), Opener(heading), SectionLines(section)))
  }

  function ExtractLines(ls: seq<string>, opens: LineTest): seq<string> {
    var i := First(ls, opens);
    if i == |ls| then [] else BlockAt(ls, i)
  }

  function BlockAt(ls: seq<string>, i: nat): seq<string>
    requires i < |ls|
  {
    DropTrail([ls[i]] + Cut(ls[i + 1..]))
  }

  function Extract(body: string, heading: string): string {
    Join(ExtractLines(Split(body), Opener(heading)))
  }

  function Stack(before: seq<string>, after: seq<string>): seq<string> {
    if after == [] then OrBlank(before) + [""] else Head(before) + Foot(after)
  }

  function RemoveLines(ls: seq<string>, opens: LineTest): seq<string> {
    var i := First(ls, opens);
    if i == |ls| then ls else Stack(DropTrail(ls[..i]), Rest(ls[i + 1..]))
  }

  function Remove(body: string, heading: string): string {
    Join(RemoveLines(Split(body), Opener(heading)))
  }

  // ---- Scans ------------------------------------------------------------------

  lemma {:induction false} FirstAt(ls: seq<string>, opens: LineTest, i: nat)
    requires i <= |ls| && forall k :: 0 <= k < i ==> !opens(ls[k])
    requires i < |ls| ==> opens(ls[i])
    ensures First(ls, opens) == i
  {
    if i > 0 {
      forall k | 0 <= k < i - 1 ensures !opens(ls[1..][k]) { assert ls[1..][k] == ls[k + 1]; }
      FirstAt(ls[1..], opens, i - 1);
    }
  }

  lemma {:induction false} CutAt(ls: seq<string>, n: nat)
    requires n <= |ls| && forall k :: 0 <= k < n ==> !IsHeading(ls[k])
    requires n < |ls| ==> IsHeading(ls[n])
    ensures Cut(ls) == ls[..n] && Rest(ls) == ls[n..]
  {
    if n > 0 {
      forall k | 0 <= k < n - 1 ensures !IsHeading(ls[1..][k]) { assert ls[1..][k] == ls[k + 1]; }
      CutAt(ls[1..], n - 1);
    }
  }

  method FindStart(lines: seq<string>, marker: string, heading: string) returns (start: int)
    requires marker == Marker(heading)
    ensures start < 0 ==> First(lines, Opener(heading)) == |lines|
    ensures start >= 0 ==> start < |lines| && First(lines, Opener(heading)) == start
  {
    ghost var opens := Opener(heading);
    start := -1;
    var i := 0;
    while i < |lines|
      invariant i <= |lines|
      invariant forall k :: 0 <= k < i ==> !opens(lines[k])
    {
      if TrimSpace(lines[i]) == marker {
        FirstAt(lines, opens, i);
        return i;
      }
      i := i + 1;
    }
    FirstAt(lines, opens, |lines|);
  }

  method FindEnd(lines: seq<string>, start: nat) returns (end: nat)
    requires start < |lines|
    ensures start < end <= |lines|
    ensures Cut(lines[start + 1..]) == lines[start + 1..end] && Rest(lines[start + 1..]) == lines[end..]
  {
    end := |lines|;
    var i := start + 1;
    while i < |lines|
      invariant start < i <= |lines| && end == |lines|
      invariant forall k :: start < k < i ==> !IsHeading(lines[k])
    {
      if HasPrefix(lines[i], "## ") {
        end := i;
        break;
      }
      i := i + 1;
    }
    EndIs(lines, start, end);
  }

  lemma EndIs(lines: seq<string>, start: nat, end: nat)
    requires start < end <= |lines|
    requires forall k :: start < k < end ==> !IsHeading(lines[k])
    requires end < |lines| ==> IsHeading(lines[end])
    ensures Cut(lines[start + 1..]) == lines[start + 1..end] && Rest(lines[start + 1..]) == lines[end..]
  {
    var tail := lines[start + 1..];
    forall k | 0 <= k < end - start - 1 ensures !IsHeading(tail[k]) {
      assert tail[k] == lines[start + 1 + k];
    }
    CutAt(tail, end - start - 1);
  }

  // ---- The store's methods -----------------------------------------------------

  // The text the store assembles: what is empty leaves no separator behind.
  function Assemble(before: string, section: string, after: string): string {
    var r0 := if before != "" then before + "\n\n" else "";
    var r1 := r0 + section;
    var r2 := if after != "" then r1 + "\n\n" + after else r1;
    r2 + "\n"
  }

  lemma JoinTwo(x: seq<string>, y: seq<string>)
    requires x != [] && y != []
    ensures Join(x + ([""] + y)) == Join(x) + "\n\n" + Join(y)
  {
    JoinAppend(x, [""] + y);
    JoinAppend([""], y);
    assert Join([""] + y) == "\n" + Join(y);
    assert Join(x) + [NL] + ("\n" + Join(y)) == Join(x) + "\n\n" + Join(y);
  }

  lemma LayoutText(before: seq<string>, sec: seq<string>, after: seq<string>)
    requires sec != []
    requires (before == [] <==> Join(before) == "") && (after == [] <==> Join(after) == "")
    ensures Join(Layout(before, sec, after)) == Assemble(Join(before), Join(sec), Join(after))
  {
    var core := sec + ([""] + Foot(after));
    LayoutTail(sec, after);
    if before == [] {
      assert Layout(before, sec, after) == core;
      AssembleFlat("", Join(sec), Join(after));
    } else {
      assert Layout(before, sec, after) == before + ([""] + core);
      JoinTwo(before, core);
      AssembleFlat(Join(before), Join(sec), Join(after));
    }
  }

  lemma AssembleFlat(b: string, s: string, a: string)
    ensures Assemble(b, s, a) ==
            (if b != "" then b + "\n\n" else "") + (if a == "" then s + "\n" else s + "\n\n" + a + "\n")
  {
    var r0 := if b != "" then b + "\n\n" else "";
    if a == "" {
      assert (r0 + s) + "\n" == r0 + (s + "\n");
    } else {
      assert r0 + s + "\n\n" + a + "\n" == r0 + (s + "\n\n" + a + "\n");
    }
  }

  lemma LayoutTail(sec: seq<string>, after: seq<string>)
    requires sec != []
    ensures Join(sec + ([""] + Foot(after))) ==
            if after == [] then Join(sec) + "\n" else Join(sec) + "\n\n" + Join(after) + "\n"
  {
    if after == [] {
      assert [""] + Foot(after) == [""];
      JoinAppend(sec, [""]);
    } else {
      JoinTwo(sec, after + [""]);
      JoinAppend(after, [""]);
      assert Join(sec) + "\n\n" + (Join(after) + "\n") == Join(sec) + "\n\n" + Join(after) + "\n";
    }
  }

  lemma SectionText(section: string)
    ensures Join(SectionLines(section)) == TrimRightNL(section)
  {
    JoinOfSplit(section);
    TrimRightIsDropTrail(Split(section));
  }

  // The lines before a section, trimmed: empty text only when there are none.
  lemma BeforeText(lines: seq<string>)
    requires AllLines(lines)
    ensures TrimRightNL(Join(lines)) == Join(DropTrail(lines))
    ensures DropTrail(lines) == [] <==> Join(DropTrail(lines)) == ""
  {
    TrimRightIsDropTrail(lines);
    JoinEmptyOnlyForBlank(DropTrail(lines));
  }

  // The lines after a section start with a heading, so nothing is trimmed off them.
  lemma AfterText(lines: seq<string>)
    requires AllLines(lines) && (lines == [] || IsHeading(lines[0]))
    ensures TrimLeftNL(Join(lines)) == Join(lines)
    ensures lines == [] <==> Join(lines) == ""
  {
    TrimLeftIsDropLead(lines);
    assert lines == [] || lines[0] != "";
    assert DropLead(lines) == lines;
    JoinEmptyOnlyForBlank(lines);
  }

  lemma {:induction false} RestHeaded(ls: seq<string>)
    ensures Rest(ls) == [] || IsHeading(Rest(ls)[0])
  {
    if ls != [] && !IsHeading(ls[0]) {
      RestHeaded(ls[1..]);
      assert Rest(ls) == Rest(ls[1..]);
    }
  }

  lemma UpsertText(body: string, heading: string, section: string, i: nat)
    requires i == First(Split(body), Opener(heading))
    ensures var ls := Split(body);
            Upsert(body, heading, section) ==
            Assemble(TrimRightNL(Join(ls[..i])), TrimRightNL(section),
                     if i == |ls| then "" else TrimLeftNL(Join(Rest(ls[i + 1..]))))
  {
    var ls := Split(body);
    var after := if i == |ls| then [] else Rest(ls[i + 1..]);
    if i < |ls| { RestHeaded(ls[i + 1..]); }
    PartsText(ls[..i], section, after);
  }

  lemma PartsText(before: seq<string>, section: string, after: seq<string>)
    requires AllLines(before) && AllLines(after) && (after == [] || IsHeading(after[0]))
    ensures Join(Layout(DropTrail(before), SectionLines(section), after)) ==
            Assemble(TrimRightNL(Join(before)), TrimRightNL(section), TrimLeftNL(Join(after)))
  {
    SectionText(section);
    BeforeText(before);
    AfterText(after);
    LayoutText(DropTrail(before), SectionLines(section), after);
  }

  method UpsertSection(body: string, heading: string, section: string) returns (r: string)
    ensures r == Upsert(body, heading, section)
  {
    var marker := "## " + heading;
    var trimmedSection := TrimRightNL(section);
    var lines := Split(body);
    var start := FindStart(lines, marker, heading);
    UpsertText(body, heading, section, First(lines, Opener(heading)));

    if start < 0 {
      JoinOfSplit(body);
      assert lines[..|lines|] == lines;
      var trimmed := TrimRightNL(body);
      if trimmed == "" {
        assert "" + trimmedSection == trimmedSection;
        return trimmedSection + "\n";
      }
      return trimmed + "\n\n" + trimmedSection + "\n";
    }

    var end := FindEnd(lines, start);
    var before := TrimRightNL(Join(lines[..start]));
    var after := TrimLeftNL(Join(lines[end..]));

    r := "";
    if before != "" {
      r := before;
      r := r + "\n\n";
    }
    r := r + trimmedSection;
    if after != "" {
      r := r + "\n\n";
      r := r + after;
    }
    r := r + "\n";
  }

  lemma RemoveText(before: seq<string>, after: seq<string>)
    requires (before == [] <==> Join(before) == "") && (after == [] <==> Join(after) == "")
    ensures Join(Stack(before, after)) ==
            (if after == [] then Join(before)
             else if before == [] then Join(after) else Join(before) + "\n\n" + Join(after)) + "\n"
  {
    if after == [] {
      JoinAppend(OrBlank(before), [""]);
    } else if before == [] {
      assert Stack(before, after) == after + [""];
      JoinAppend(after, [""]);
    } else {
      assert Stack(before, after) == before + ([""] + (after + [""]));
      JoinTwo(before, after + [""]);
      JoinAppend(after, [""]);
      assert Join(before) + "\n\n" + (Join(after) + "\n") == Join(before) + "\n\n" + Join(after) + "\n";
    }
  }

  function Close(before: string, after: string): string {
    var r := if after == "" then before else if before == "" then after else before + "\n\n" + after;
    r + "\n"
  }

  lemma RemoveIs(body: string, heading: string, i: nat)
    requires i == First(Split(body), Opener(heading))
    ensures var ls := Split(body);
            if i == |ls| then Remove(body, heading) == body
            else Remove(body, heading) == Close(TrimRightNL(Join(ls[..i])), TrimLeftNL(Join(Rest(ls[i + 1..]))))
  {
    var ls := Split(body);
    if i == |ls| {
      JoinOfSplit(body);
    } else {
      RestHeaded(ls[i + 1..]);
      StackText(ls[..i], Rest(ls[i + 1..]));
    }
  }

  lemma StackText(before: seq<string>, after: seq<string>)
    requires AllLines(before) && AllLines(after) && (after == [] || IsHeading(after[0]))
    ensures Join(Stack(DropTrail(before), after)) == Close(TrimRightNL(Join(before)), TrimLeftNL(Join(after)))
  {
    BeforeText(before);
    AfterText(after);
    RemoveText(DropTrail(before), after);
  }

  method RemoveSection(body: string, heading: string) returns (r: string)
    ensures r == Remove(body, heading)
  {
    var marker := "## " + heading;
    var lines := Split(body);
    var start := FindStart(lines, marker, heading);
    RemoveIs(body, heading, First(lines, Opener(heading)));
    if start < 0 { return body; }
    var end := FindEnd(lines, start);
    r := Rejoin(TrimRightNL(Join(lines[..start])), TrimLeftNL(Join(lines[end..])));
  }

  // What stood in front of a removed section, and what stood behind it.
  method Rejoin(before: string, after: string) returns (r: string)
    ensures r == Close(before, after)
  {
    r := "";
    if before != "" {
      r := before;
    }
    if after != "" {
      if before != "" {
        r := r + "\n\n";
      }
      r := r + after;
    }
    r := r + "\n";
  }

  method ExtractSection(body: string, heading: string) returns (r: string)
    ensures r == Extract(body, heading)
  {
    var marker := "## " + heading;
    var lines := Split(body);
    var start := FindStart(lines, marker, heading);
    if start < 0 {
      return "";
    }
    var end := FindEnd(lines, start);
    var block := lines[start..end];
    assert block == [lines[start]] + lines[start + 1..end];
    TrimRightIsDropTrail(block);
    r := TrimRightNL(Join(block));
  }
}
