/**
 * The stripped view as text: what a prompt shows of a card body, compared after
 * trimming and dropping empty lines, is not changed by any recorded history.
 */
module PromptView {
  import opened Text
  import opened Sections
  import opened SectionLaws
  import opened History
  import opened CommentKeys
  import opened Triage
  import opened TriageRecord

  // A text without its empty lines.
  function Squash(t: string): string {
    Join(NonEmpty(Split(t)))
  }

  function View(body: string, agent: LineTest): string {
    TrimSpace(Squash(StripBy(body, agent)))
  }

  // ---- The two trims commute ------------------------------------------------------

  lemma {:induction false} TrimRightCons(s: string)
    requires s != ""
    ensures TrimRightSpace(s) ==
            if TrimRightSpace(s[1..]) == "" && IsSpace(s[0]) then "" else [s[0]] + TrimRightSpace(s[1..])
  {
    if |s| == 1 {
      assert s[1..] == "" && s[..0] == "";
      assert [s[0]] + "" == s;
    } else {
      assert s[1..][|s[1..]| - 1] == s[|s| - 1];
      if IsSpace(s[|s| - 1]) {
        var init := s[..|s| - 1];
        TrimRightCons(init);
        assert init[1..] == s[1..][..|s[1..]| - 1];
      } else {
        assert [s[0]] + s[1..] == s;
      }
    }
  }

  lemma {:induction false} TrimsCommute(s: string)
    ensures TrimRightSpace(TrimLeftSpace(s)) == TrimLeftSpace(TrimRightSpace(s))
  {
    if s != "" {
      TrimRightCons(s);
      if IsSpace(s[0]) {
        TrimsCommute(s[1..]);
        if TrimRightSpace(s) != "" {
          assert TrimRightSpace(s)[1..] == TrimRightSpace(s[1..]);
        }
      }
    }
  }

  // ---- Trimming a text and dropping its empty lines, in either order ---------------

  lemma JoinCons(l: string, ls: seq<string>)
    ensures Join([l] + ls) == if ls == [] then l else l + "\n" + Join(ls)
  {
    assert ([l] + ls)[1..] == ls;
  }

  lemma NonEmptyCons(l: string, ls: seq<string>)
    ensures NonEmpty([l] + ls) == if l == "" then NonEmpty(ls) else [l] + NonEmpty(ls)
  {
    assert ([l] + ls)[1..] == ls;
    assert [] + NonEmpty(ls) == NonEmpty(ls);
  }

  lemma SquashLeft(c: char, r: string)
    requires IsSpace(c)
    ensures TrimLeftSpace(Squash([c] + r)) == TrimLeftSpace(Squash(r))
  {
    var rest := Split(r);
    assert ([c] + r)[1..] == r;
    if c == NL {
      NonEmptyCons("", rest);
    } else {
      assert rest == [rest[0]] + rest[1..];
      NonEmptyCons([c] + rest[0], rest[1..]);
      NonEmptyCons(rest[0], rest[1..]);
      LeadingSpace(c, rest[0], NonEmpty(rest[1..]));
    }
  }

  lemma TrimLeftCons(c: char, s: string)
    requires IsSpace(c)
    ensures TrimLeftSpace([c] + s) == TrimLeftSpace(s)
  {
    assert ([c] + s)[1..] == s;
  }

  lemma LeadingSpace(c: char, l: string, n: seq<string>)
    requires IsSpace(c)
    ensures TrimLeftSpace(Join([[c] + l] + n)) == TrimLeftSpace(Join((if l == "" then [] else [l]) + n))
  {
    var more := if n == [] then "" else "\n" + Join(n);
    JoinCons([c] + l, n);
    assert Join([[c] + l] + n) == [c] + (l + more);
    TrimLeftCons(c, l + more);
    if l == "" {
      assert l + more == more;
      assert [] + n == n;
      if n != [] { TrimLeftCons(NL, Join(n)); }
    } else {
      JoinCons(l, n);
      assert Join([l] + n) == l + more;
    }
  }

  lemma {:induction false} SplitSnoc(r: string, c: char)
    ensures Split(r + [c]) ==
            if c == NL then Split(r) + [""] else Grown(Split(r), c)
  {
    if c == NL {
      SplitAppend(r, "");
      assert r + [NL] + "" == r + [NL];
    } else if r == "" {
      assert r + [c] == [c];
      SplitOfLine([c]);
      assert "" + [c] == [c];
    } else {
      assert (r + [c])[1..] == r[1..] + [c];
      SplitSnoc(r[1..], c);
      if r[0] == NL { GrownBehind("", Split(r[1..]), c); } else { GrownUnder(r[0], Split(r[1..]), c); }
    }
  }

  // The lines with a character more on the last.
  function Grown(ls: seq<string>, c: char): seq<string>
    requires ls != []
  {
    ls[..|ls| - 1] + [ls[|ls| - 1] + [c]]
  }

  lemma GrownBehind(l: string, ls: seq<string>, c: char)
    requires ls != []
    ensures [l] + Grown(ls, c) == Grown([l] + ls, c)
  {
  }

  lemma GrownUnder(a: char, ls: seq<string>, c: char)
    requires ls != []
    ensures [[a] + Grown(ls, c)[0]] + Grown(ls, c)[1..] == Grown([[a] + ls[0]] + ls[1..], c)
  {
    if |ls| == 1 {
      assert [a] + (ls[0] + [c]) == ([a] + ls[0]) + [c];
    } else {
      assert Grown(ls, c)[0] == ls[0];
    }
  }

  lemma JoinSnoc(ls: seq<string>, l: string)
    ensures Join(ls + [l]) == if ls == [] then l else Join(ls) + "\n" + l
  {
    if ls == [] { assert ls + [l] == [l]; } else { JoinAppend(ls, [l]); }
  }

  lemma NonEmptySnoc(ls: seq<string>, l: string)
    ensures NonEmpty(ls + [l]) == if l == "" then NonEmpty(ls) else NonEmpty(ls) + [l]
  {
    NonEmptyAppend(ls, [l]);
    assert [l][1..] == [];
    assert NonEmpty([l]) == if l == "" then [] else [l];
    assert NonEmpty(ls) + [] == NonEmpty(ls);
  }

  lemma TrimRightSnoc(s: string, c: char)
    requires IsSpace(c)
    ensures TrimRightSpace(s + [c]) == TrimRightSpace(s)
  {
    assert (s + [c])[..|s|] == s;
  }

  lemma SquashRight(r: string, c: char)
    requires IsSpace(c)
    ensures TrimRightSpace(Squash(r + [c])) == TrimRightSpace(Squash(r))
  {
    SplitSnoc(r, c);
    if c == NL { NonEmptySnoc(Split(r), ""); } else { GrownTrims(Split(r), c); }
  }

  // A space more on the last line.
  lemma GrownTrims(ls: seq<string>, c: char)
    requires ls != [] && IsSpace(c)
    ensures TrimRightSpace(Join(NonEmpty(Grown(ls, c)))) == TrimRightSpace(Join(NonEmpty(ls)))
  {
    var init, l := ls[..|ls| - 1], ls[|ls| - 1];
    assert ls == init + [l];
    var n := NonEmpty(init);
    NonEmptySnoc(init, l);
    NonEmptySnoc(init, l + [c]);
    JoinSnoc(n, l);
    JoinSnoc(n, l + [c]);
    LastTrims(if n == [] then "" else Join(n) + "\n", l, c);
    if l == "" && n != [] { TrimRightSnoc(Join(n), NL); }
    if n == [] { assert "" + l == l && "" + (l + [c]) == l + [c]; }
    assert Join(n) + "\n" + "" == Join(n) + "\n";
  }

  lemma LastTrims(pre: string, l: string, c: char)
    requires IsSpace(c)
    ensures TrimRightSpace(pre + (l + [c])) == TrimRightSpace(pre + l)
  {
    assert pre + (l + [c]) == (pre + l) + [c];
    TrimRightSnoc(pre + l, c);
  }

  lemma {:induction false} SquashTrimLeft(t: string)
    ensures TrimLeftSpace(Squash(TrimLeftSpace(t))) == TrimLeftSpace(Squash(t))
  {
    if t != "" && IsSpace(t[0]) {
      SquashTrimLeft(t[1..]);
      SquashLeft(t[0], t[1..]);
      assert [t[0]] + t[1..] == t;
    }
  }

  lemma {:induction false} SquashTrimRight(t: string)
    ensures TrimRightSpace(Squash(TrimRightSpace(t))) == TrimRightSpace(Squash(t))
  {
    if t != "" && IsSpace(t[|t| - 1]) {
      SquashTrimRight(t[..|t| - 1]);
      SquashRight(t[..|t| - 1], t[|t| - 1]);
      assert t[..|t| - 1] + [t[|t| - 1]] == t;
    }
  }

  lemma TrimSquash(t: string)
    ensures TrimSpace(Squash(TrimSpace(t))) == TrimSpace(Squash(t))
  {
    var u := TrimLeftSpace(t);
    SquashTrimRight(u);
    TrimsCommute(Squash(TrimRightSpace(u)));
    TrimsCommute(Squash(u));
    SquashTrimLeft(t);
  }

  // ---- The view ----------------------------------------------------------------------

  lemma {:induction false} KeptAll(ls: seq<string>, skipping: bool, agent: LineTest)
    ensures |Kept(ls, skipping, agent)| <= |ls|
    ensures |Kept(ls, skipping, agent)| == |ls| ==> Kept(ls, skipping, agent) == ls
    ensures AllLines(ls) ==> AllLines(Kept(ls, skipping, agent))
  {
    if ls != [] {
      KeptAll(ls[1..], Skips(ls[0], skipping, agent), agent);
      assert ls == [ls[0]] + ls[1..];
    }
  }

  lemma ViewIsShown(body: string, agent: LineTest)
    ensures View(body, agent) == TrimSpace(Join(Shown(Split(body), false, agent)))
  {
    var ls := Split(body);
    var kept := Kept(ls, false, agent);
    KeptAll(ls, false, agent);
    JoinOfSplit(body);
    if kept == [] {
      assert Join(kept) == "" && Split("") == [""];
      NonEmptyCons("", []);
      assert [""] + [] == [""];
    } else {
      SplitOfJoin(kept);
    }
    assert NonEmpty(Split(Join(kept))) == NonEmpty(kept);
    if |kept| != |ls| {
      TrimSquash(Join(kept));
    }
  }

  /**
   * Recording history never changes the view, for any body, when the recorded text
   * starts with a heading the strip knows and holds no column-0 heading it does not.
   * History.RecordingStaysHidden has the converse.
   */
  lemma RecordingKeepsView(body: string, heading: string, section: string, agent: LineTest)
    requires !agent("") && (forall l :: Opener(heading)(l) ==> agent(l))
    requires IsHeading(SectionLines(section)[0]) && agent(SectionLines(section)[0])
    requires AllAgent(SectionLines(section), agent)
    ensures View(Upsert(body, heading, section), agent) == View(body, agent)
  {
    RecordingStaysHidden(Split(body), Opener(heading), SectionLines(section), agent);
    SplitOfUpsert(body, heading, section);
    ViewIsShown(body, agent);
    ViewIsShown(Upsert(body, heading, section), agent);
  }

  // The agent headings meet what the law above asks of them.
  lemma BlankIsNoAgent(hs: Headings)
    ensures !hs.Test()("")
  {
    assert TrimSpace("") == "";
    assert !HasPrefix("", "## ");
  }

  lemma OpenersAreAgent(hs: Headings, heading: string)
    requires hs.IsAgentHeading(Marker(heading))
    ensures forall l :: Opener(heading)(l) ==> hs.Test()(l)
  {
  }

  // A heading on the once-per-run list, or one that starts like a per-round heading.
  lemma ListedIsAgent(hs: Headings, heading: string)
    requires heading != "" && !IsSpace(heading[0]) && !IsSpace(heading[|heading| - 1])
    ensures heading in hs.once || (exists i :: 0 <= i < |hs.perRound| && HasPrefix(heading, hs.perRound[i])) <==>
            hs.IsAgentHeading(Marker(heading))
  {
    TrimSpaceOfTight(heading);
    assert Marker(heading)[3..] == heading;
    assert Marker(heading)[..3] == "## ";
  }

  // ---- The agent's own records --------------------------------------------------------

  lemma {:induction false} HeadlessHasNoHeading(ls: seq<string>)
    requires Headless(ls)
    ensures forall i :: 0 <= i < |ls| ==> !IsHeading(ls[i])
  {
    if ls != [] {
      assert Cut(ls) == [ls[0]] + Cut(ls[1..]);
      HeadlessHasNoHeading(ls[1..]);
      assert forall i :: 1 <= i < |ls| ==> ls[i] == ls[1..][i - 1];
    }
  }

  // Every round's heading is one the strip knows.
  lemma RoundIsListed(hs: Headings, round: nat)
    requires CopilotHeading() in hs.perRound
    ensures hs.IsAgentHeading(Marker(RoundHeading(round)))
    ensures TrimSpace(Marker(RoundHeading(round))) == Marker(RoundHeading(round))
  {
    var heading := RoundHeading(round);
    var i :| 0 <= i < |hs.perRound| && hs.perRound[i] == CopilotHeading();
    assert heading[..|CopilotHeading()|] == CopilotHeading();
    assert HasPrefix(heading, hs.perRound[i]);
    RoundMarkerIsTight(round);
    ListedIsAgent(hs, heading);
  }

  // A section whose only column-0 heading is its first line, less its trailing blanks.
  lemma OneHeading(ls: seq<string>, agent: LineTest)
    requires ls != [] && IsHeading(ls[0]) && agent(ls[0]) && Headless(ls[1..])
    ensures var d := DropTrail(ls); d != [] && IsHeading(d[0]) && agent(d[0]) && AllAgent(d, agent)
  {
    var d := DropTrail(ls);
    KeepsHead(ls);
    HeadlessHasNoHeading(ls[1..]);
    forall i | 0 < i < |d| ensures !IsHeading(d[i]) {
      assert d[i] == ls[i] == ls[1..][i - 1];
    }
  }

  lemma RoundIsAgent(round: nat, cs: seq<Comment>, fs: seq<Finding>, unreadable: bool, agent: LineTest)
    requires Plain(fs) && agent(Marker(RoundHeading(round)))
    ensures var d := SectionLines(RoundText(round, cs, fs, unreadable));
            IsHeading(d[0]) && agent(d[0]) && AllAgent(d, agent)
  {
    RoundHeadless(round, cs, fs, unreadable);
    RoundSection(round, cs, fs, unreadable);
    HeadingSelected(round);
    OneHeading(RoundLines(round, cs, fs, unreadable), agent);
  }

  // The strip takes every section of this heading for the agent's own.
  ghost predicate Knows(agent: LineTest, heading: string) {
    && !agent("")
    && agent(Marker(heading))
    && forall l :: Opener(heading)(l) ==> agent(l)
  }

  lemma TightIsTested(hs: Headings, marker: string)
    requires hs.IsAgentHeading(marker) && TrimSpace(marker) == marker
    ensures hs.Test()(marker)
  {
  }

  lemma ListedIsKnown(hs: Headings, heading: string)
    requires hs.IsAgentHeading(Marker(heading)) && hs.Test()(Marker(heading))
    ensures Knows(hs.Test(), heading)
  {
    BlankIsNoAgent(hs);
    OpenersAreAgent(hs, heading);
  }

  lemma RoundKeepsViewOf(
    agent: LineTest, body: string, round: nat, cs: seq<Comment>, fs: seq<Finding>, unreadable: bool)
    requires Plain(fs) && Knows(agent, RoundHeading(round))
    ensures View(Upsert(body, RoundHeading(round), RoundText(round, cs, fs, unreadable)), agent) == View(body, agent)
  {
    var heading, text := RoundHeading(round), RoundText(round, cs, fs, unreadable);
    RoundIsAgent(round, cs, fs, unreadable, agent);
    RecordingKeepsView(body, heading, text, agent);
  }

  /** A triage round of single-line findings, recorded in any body, changes no prompt. */
  lemma RoundKeepsView(
    hs: Headings, body: string, round: nat, cs: seq<Comment>, fs: seq<Finding>, unreadable: bool)
    requires Plain(fs) && CopilotHeading() in hs.perRound
    ensures View(Upsert(body, RoundHeading(round), RoundText(round, cs, fs, unreadable)), hs.Test()) ==
            View(body, hs.Test())
  {
    RoundIsListed(hs, round);
    TightIsTested(hs, Marker(RoundHeading(round)));
    ListedIsKnown(hs, RoundHeading(round));
    RoundKeepsViewOf(hs.Test(), body, round, cs, fs, unreadable);
  }

  // The run's own lists hold what the law above asks for.
  lemma RecordedListsRounds()
    ensures CopilotHeading() in RecordedHeadings().perRound
  {
    assert RecordedHeadings().perRound[1] == CopilotHeading();
  }
}
