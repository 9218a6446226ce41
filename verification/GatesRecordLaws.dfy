/**
 * What a resumed run recovers: the counters whatever the details hold and whatever
 * other section is written, the markers exactly unless a detail spells one out, and
 * nothing at all once another section's text opens a "## PR Gates" of its own.
 */
module GatesRecordLaws {
  import opened Wrappers
  import opened Text
  import opened Sections
  import opened SectionLaws
  import opened Seqs
  import opened SectionHead
  import opened History
  import opened GatesRecord

  function GatesOpener(): LineTest {
    Opener(GatesHeading())
  }

  // The first "## PR Gates" section of the body starts with this progress.
  predicate Holds(body: string, st: GatesState) {
    StartsWith(Split(body), GatesOpener(), Header(st))
  }

  // ---- The header lines -----------------------------------------------------------

  lemma DashLine(line: string, heading: string)
    requires line != "" && line[0] == '-'
    ensures !IsHeading(line) && !Opener(heading)(line)
  {
    assert Marker(heading)[0] == '#';
    TrimLeftStart(line);
    TrimRightStart(line);
  }

  lemma DashLines(st: GatesState, heading: string)
    ensures var h := Header(st);
            forall i :: 1 <= i < |h| ==> !IsHeading(h[i]) && !Opener(heading)(h[i])
    ensures var h := Header(st); 4 <= |h| && h[|h| - 1] != ""
  {
    DashLine(CounterLine(CopilotPrefix(), st.copilotRounds), heading);
    DashLine(CounterLine(CIPrefix(), st.ciRounds), heading);
    DashLine(SatisfiedLine(), heading);
    DashLine(MergedLine(), heading);
    OpenerSkipsBlanks(heading);
    assert !IsHeading("");
  }

  lemma MarkerOpens()
    ensures GatesOpener()(Marker(GatesHeading())) && IsHeading(Marker(GatesHeading()))
  {
    TrimSpaceOfTight("## PR Gates");
    assert Marker(GatesHeading()) == "## PR Gates";
  }

  lemma HeaderQualifies(st: GatesState)
    ensures HeadLines(Header(st), GatesOpener())
  {
    var h := Header(st);
    DashLines(st, GatesHeading());
    MarkerOpens();
    assert h[0] == Marker(GatesHeading());
    CutAt(h[1..], |h| - 1);
  }

  lemma HeaderOpensNoOther(st: GatesState, heading: string)
    requires heading != GatesHeading()
    ensures NoneOpens(Header(st), Opener(heading))
  {
    var h := Header(st);
    DashLines(st, heading);
    TrimSpaceOfTight("## PR Gates");
    assert h[0] == "## PR Gates";
    assert Marker(heading) != "## PR Gates" by {
      assert Marker(heading)[3..] == heading;
      assert "## PR Gates"[3..] == GatesHeading();
    }
    FirstAt(h, Opener(heading), |h|);
  }

  // ---- Counters ---------------------------------------------------------------------

  lemma {:induction false} CounterInPrefix(head: seq<string>, tail: seq<string>, prefix: string, k: nat)
    requires k < |head| && CounterIn(head[k], prefix).Some?
    requires forall i :: 0 <= i < k ==> CounterIn(head[i], prefix).None?
    ensures FirstCounter(head + tail, prefix) == CounterIn(head[k], prefix).value
  {
    assert (head + tail)[0] == head[0];
    if k > 0 {
      assert (head + tail)[1..] == head[1..] + tail;
      assert forall i :: 0 <= i < k - 1 ==> head[1..][i] == head[i + 1];
      CounterInPrefix(head[1..], tail, prefix, k - 1);
    }
  }

  lemma OtherPrefix(line: string)
    ensures HasPrefix(line, CopilotPrefix()) ==> !HasPrefix(line, CIPrefix())
  {
    if HasPrefix(line, CopilotPrefix()) {
      assert line[3] == CopilotPrefix()[3] == 'o';
      assert CIPrefix()[3] == 'I';
    }
  }

  lemma HeaderReads(st: GatesState, tail: seq<string>)
    requires st.copilotRounds <= MAX_INT && st.ciRounds <= MAX_INT
    ensures FirstCounter(Header(st) + tail, CopilotPrefix()) == st.copilotRounds
    ensures FirstCounter(Header(st) + tail, CIPrefix()) == st.ciRounds
  {
    CopilotReads(Header(st), tail, st.copilotRounds);
    CIReads(Header(st), tail, st.copilotRounds, st.ciRounds);
  }

  lemma OpeningCounts(prefix: string, marker: string)
    requires prefix != "" && prefix[0] == '-' && marker != "" && marker[0] == '#'
    ensures CounterIn(marker, prefix).None? && CounterIn("", prefix).None?
  {
  }

  lemma CopilotReads(h: seq<string>, tail: seq<string>, n: nat)
    requires |h| >= 3 && h[0] == Marker(GatesHeading()) && h[1] == "" && h[2] == CounterLine(CopilotPrefix(), n)
    requires n <= MAX_INT
    ensures FirstCounter(h + tail, CopilotPrefix()) == n
  {
    CounterReads(CopilotPrefix(), n);
    assert CopilotPrefix()[0] == '-' && Marker(GatesHeading())[0] == '#';
    OpeningCounts(CopilotPrefix(), Marker(GatesHeading()));
    CounterInPrefix(h, tail, CopilotPrefix(), 2);
  }

  lemma CIReads(h: seq<string>, tail: seq<string>, n: nat, m: nat)
    requires |h| >= 4 && h[0] == Marker(GatesHeading()) && h[1] == "" && h[2] == CounterLine(CopilotPrefix(), n)
    requires h[3] == CounterLine(CIPrefix(), m) && m <= MAX_INT
    ensures FirstCounter(h + tail, CIPrefix()) == m
  {
    CounterReads(CIPrefix(), m);
    assert CIPrefix()[0] == '-' && Marker(GatesHeading())[0] == '#';
    OpeningCounts(CIPrefix(), Marker(GatesHeading()));
    assert HasPrefix(h[2], CopilotPrefix());
    OtherPrefix(h[2]);
    CounterInPrefix(h, tail, CIPrefix(), 3);
  }

  // What a body that holds some progress hands its reader: text that splits into lines
  // which start with the header.
  lemma HeldBlock(body: string, st: GatesState) returns (block: seq<string>)
    requires Holds(body, st)
    ensures Header(st) <= block && Extract(body, GatesHeading()) != "" && Split(Extract(body, GatesHeading())) == block
  {
    HeaderQualifies(st);
    HeadIsRead(Split(body), GatesOpener(), Header(st));
    block := ExtractLines(Split(body), GatesOpener());
    assert block[0] == Header(st)[0] == Marker(GatesHeading());
    ExtractedLines(body);
  }

  lemma MarkersRead(st: GatesState, block: seq<string>)
    requires Header(st) <= block
    ensures st.satisfied ==> SatisfiedLine() in block
    ensures st.merged ==> MergedLine() in block
  {
    var h := Header(st);
    HeadMembers(h, block);
    if st.satisfied { assert h[4] == SatisfiedLine(); }
    if st.merged { assert h[|h| - 1] == MergedLine(); }
  }

  /** A body that holds some progress is read as exactly its counters, and at least its markers. */
  lemma HeldIsRead(body: string, st: GatesState)
    requires Holds(body, st) && st.copilotRounds <= MAX_INT && st.ciRounds <= MAX_INT
    ensures Load(body).copilotRounds == st.copilotRounds && Load(body).ciRounds == st.ciRounds
    ensures st.satisfied ==> Load(body).satisfied
    ensures st.merged ==> Load(body).merged
  {
    var block := HeldBlock(body, st);
    PrefixSplit(Header(st), block);
    HeaderReads(st, block[|Header(st)|..]);
    MarkersRead(st, block);
  }

  lemma HeadMembers(h: seq<string>, block: seq<string>)
    requires h <= block
    ensures forall i :: 0 <= i < |h| ==> h[i] in block
  {
    forall i | 0 <= i < |h| ensures h[i] in block { assert block[i] == h[i]; }
  }

  // The extracted text splits back into the extracted lines.
  lemma ExtractedLines(body: string)
    ensures var block := ExtractLines(Split(body), GatesOpener());
            block != [] && block[0] != "" ==> Extract(body, GatesHeading()) != "" && Split(Extract(body, GatesHeading())) == block
  {
    var ls, opens := Split(body), GatesOpener();
    var block := ExtractLines(ls, opens);
    if block != [] && block[0] != "" {
      var i := First(ls, opens);
      assert AllLines(ls[i + 1..]);
      CutParts(ls[i + 1..]);
      assert AllLines(Cut(ls[i + 1..]));
      assert AllLines([ls[i]] + Cut(ls[i + 1..]));
      SplitOfJoin(block);
      assert Join(block) != "";
    }
  }

  // ---- The laws -----------------------------------------------------------------------

  lemma RenderedLines(st: GatesState)
    ensures SectionLines(Render(st)) == Header(st) + DropTrail(Trailer(st))
  {
    DashLines(st, GatesHeading());
    TrailerAllLines(st);
    HeaderAllLines(st);
    SectionOfTerminated(Header(st), Trailer(st));
  }

  lemma SectionOfTerminated(h: seq<string>, t: seq<string>)
    requires AllLines(h) && AllLines(t) && h != [] && h[|h| - 1] != ""
    ensures SectionLines(Terminated(h + t)) == h + DropTrail(t)
  {
    SplitOfJoin(h + t + [""]);
    DropTrailAppend(h + t, [""]);
    TrailBehindHead(h, t);
  }

  lemma TrailerAllLines(st: GatesState)
    ensures AllLines(Trailer(st))
  {
    BlockLines(st.copilotDetail);
    BlockLines(st.detail);
  }

  lemma BlockLines(text: string)
    ensures AllLines(Block(TrimSpace(text)))
  {
  }

  lemma {:induction false} DecOneLine(n: nat)
    ensures OneLine(Dec(n))
  {
    if n >= 10 { DecOneLine(n / 10); }
  }

  lemma HeaderAllLines(st: GatesState)
    ensures AllLines(Header(st))
  {
    DecOneLine(st.copilotRounds);
    DecOneLine(st.ciRounds);
    assert OneLine(Marker(GatesHeading())) && OneLine(SatisfiedLine()) && OneLine(MergedLine());
    assert OneLine(CopilotPrefix()) && OneLine(CIPrefix());
  }

  /** Whatever the body was and whatever the details say, recording makes the body hold the progress. */
  lemma RecordedHolds(body: string, st: GatesState)
    ensures Holds(Recorded(body, st), st)
  {
    HeaderQualifies(st);
    RenderedLines(st);
    OpenerSkipsBlanks(GatesHeading());
    HeadIsWritten(Split(body), GatesOpener(), Header(st), SectionLines(Render(st)));
    SplitOfUpsert(body, GatesHeading(), Render(st));
  }

  // The write of another section leaves the recorded header the first of its kind.
  predicate Spared(body: string, head: seq<string>, heading: string, section: string) {
    Survives(Split(body), GatesOpener(), head, Opener(heading), SectionLines(section))
  }

  /**
   * The progress survives a write of any other section, in any body and whatever it
   * says, exactly when the recorded section stands in front of the one written, or the
   * text opens no "## PR Gates" section, or the first it opens records the same.
   */
  lemma HoldsThroughOthers(body: string, st: GatesState, heading: string, section: string)
    requires Holds(body, st) && heading != GatesHeading()
    ensures Holds(Upsert(body, heading, section), st) <==> Spared(body, Header(st), heading, section)
  {
    HeaderQualifies(st);
    HeaderOpensNoOther(st, heading);
    OpenerSkipsBlanks(GatesHeading());
    HeadSurvives(Split(body), GatesOpener(), Header(st), Opener(heading), SectionLines(section));
    SplitOfUpsert(body, heading, section);
  }

  /**
   * What is held instead: text that opens "## PR Gates", written before the recorded
   * section, is what the body then holds - progress of its author's choosing.
   */
  lemma OthersCanHijack(body: string, forged: GatesState, heading: string, section: string)
    requires NoneOpens(Split(body)[..First(Split(body), Opener(heading))], GatesOpener())
    requires StartsWith(SectionLines(section), GatesOpener(), Header(forged))
    ensures Holds(Upsert(body, heading, section), forged)
  {
    OpenerSkipsBlanks(GatesHeading());
    var sec := SectionLines(section);
    HeadHijacked(Split(body), GatesOpener(), Opener(heading), sec);
    SplitOfUpsert(body, heading, section);
    var r := Split(Upsert(body, heading, section));
    var i, k := First(r, GatesOpener()), First(sec, GatesOpener());
    assert Header(forged) <= sec[k..] <= r[i..];
  }

  /**
   * A round trip through the card: both counters come back exactly, and each marker
   * comes back set exactly when it was set or a later line of the section, before
   * its next column-0 heading, spells it out.
   */
  lemma RoundTrip(body: string, st: GatesState)
    requires st.copilotRounds <= MAX_INT && st.ciRounds <= MAX_INT
    ensures Load(Recorded(body, st)).copilotRounds == st.copilotRounds
    ensures Load(Recorded(body, st)).ciRounds == st.ciRounds
    ensures Load(Recorded(body, st)).satisfied <==> st.satisfied || SatisfiedLine() in Cut(Trailer(st))
    ensures Load(Recorded(body, st)).merged <==> st.merged || MergedLine() in Cut(Trailer(st))
  {
    RecordedHolds(body, st);
    HeldIsRead(Recorded(body, st), st);
    var block := Header(st) + DropTrail(Cut(Trailer(st)));
    RecordedBlock(body, st);
    ExtractedLines(Recorded(body, st));
    assert block[0] == Marker(GatesHeading());
    HeaderMembers(st);
    TrailMembers(Cut(Trailer(st)));
    assert SatisfiedLine() != "" && MergedLine() != "";
  }

  lemma RecordedBlock(body: string, st: GatesState)
    ensures ExtractLines(Split(Recorded(body, st)), GatesOpener()) == Header(st) + DropTrail(Cut(Trailer(st)))
  {
    HeaderQualifies(st);
    RenderedLines(st);
    OpenerSkipsBlanks(GatesHeading());
    SplitOfUpsert(body, GatesHeading(), Render(st));
    HeadedBlock(Split(body), GatesOpener(), Header(st), DropTrail(Trailer(st)));
    CutOfTrail(Trailer(st));
  }

  lemma HeadedBlock(ls: seq<string>, opens: LineTest, h: seq<string>, t: seq<string>)
    requires !opens("") && HeadLines(h, opens)
    ensures ExtractLines(UpsertLines(ls, opens, h + t), opens) == h + DropTrail(Cut(t))
  {
    CutBehindHead(h, t);
    assert (h + t)[0] == h[0];
    ExtractAfterUpsert(ls, opens, h + t);
    TrailBehindHead(h, Cut(t));
  }

  lemma CutBehindHead(h: seq<string>, t: seq<string>)
    requires h != [] && Headless(h[1..])
    ensures [(h + t)[0]] + Cut((h + t)[1..]) == h + Cut(t)
  {
    assert (h + t)[1..] == h[1..] + t;
    CutAppend(h[1..], t);
    CutParts(h[1..]);
    assert [h[0]] + h[1..] == h;
    Assoc([h[0]], h[1..], Cut(t));
  }

  lemma TrailBehindHead(h: seq<string>, x: seq<string>)
    requires h != [] && h[|h| - 1] != ""
    ensures DropTrail(h + x) == h + DropTrail(x)
  {
    DropTrailAppend(h, x);
    assert DropTrail(h) == h;
    assert h + [] == h;
  }

  lemma CutOfTrail(ls: seq<string>)
    ensures DropTrail(Cut(DropTrail(ls))) == DropTrail(Cut(ls))
  {
    var d := DropTrail(ls);
    assert ls == d + ls[|d|..];
    CutAppend(d, ls[|d|..]);
    if |Cut(d)| == |d| {
      CutParts(d);
      DropTrailAppend(d, Cut(ls[|d|..]));
      BlankCut(ls[|d|..]);
    }
  }

  lemma {:induction false} BlankCut(ls: seq<string>)
    requires forall i :: 0 <= i < |ls| ==> ls[i] == ""
    ensures DropTrail(Cut(ls)) == []
  {
    CutParts(ls);
    assert Cut(ls) <= ls;
    var c := Cut(ls);
    assert forall i :: 0 <= i < |c| ==> c[i] == ls[i];
    assert DropTrail(c) == [];
  }

  lemma TrailMembers(ls: seq<string>)
    ensures forall l :: l != "" ==> (l in DropTrail(ls) <==> l in ls)
  {
    var d := DropTrail(ls);
    forall l | l != "" && l in ls ensures l in d {
      var i :| 0 <= i < |ls| && ls[i] == l;
      assert d[i] == l;
    }
  }

  lemma HeaderMembers(st: GatesState)
    ensures SatisfiedLine() in Header(st) <==> st.satisfied
    ensures MergedLine() in Header(st) <==> st.merged
  {
    var h := Header(st);
    assert SatisfiedLine()[3] == 'o' && MergedLine()[3] == 'e' && CIPrefix()[3] == 'I' && CopilotPrefix()[3] == 'o';
    assert SatisfiedLine()[10] == 'g' && CopilotPrefix()[10] == 'r';
    assert h[2][10] == 'r' && h[3][3] == 'I' && h[2][3] == 'o' && h[0][0] == '#' && h[1] == "";
    if st.satisfied { assert h[4] == SatisfiedLine(); }
    if st.merged { assert h[|h| - 1] == MergedLine(); }
  }

  /** A detail that quotes the marker makes a resumed run believe the PR is merged. */
  lemma QuotedMarkerReadsAsMerged(body: string)
    ensures var st := GatesState(0, 0, false, false, "", MergedLine(), "");
            !st.merged && Load(Recorded(body, st)).merged
  {
    var st := GatesState(0, 0, false, false, "", MergedLine(), "");
    QuotedTrailer(st);
    RoundTrip(body, st);
  }

  lemma QuotedTrailer(st: GatesState)
    requires st.status == "" && st.copilotDetail == "" && st.detail == MergedLine()
    ensures MergedLine() in Cut(Trailer(st))
  {
    QuotedBlock();
    assert TrimSpace("") == "" && Block("") == [];
    assert Trailer(st) == ["", MergedLine()];
    TwoLinesCut(MergedLine());
  }

  lemma QuotedBlock()
    ensures Block(TrimSpace(MergedLine())) == ["", MergedLine()] && !IsHeading(MergedLine())
  {
    TrimSpaceOfTight(MergedLine());
    SplitOfLine(MergedLine());
    DashLine(MergedLine(), GatesHeading());
  }

  lemma TwoLinesCut(l: string)
    requires !IsHeading(l)
    ensures l in Cut(["", l])
  {
    CutAt(["", l], 2);
    assert Cut(["", l])[1] == l;
  }
}
