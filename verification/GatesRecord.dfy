/**
 * The "## PR Gates" section: how the gates' progress is written to the card body
 * and recovered from it. The round counters are the section's first lines, so no
 * text a detail carries can reach them; the two markers are matched anywhere in
 * the section, so a detail can.
 */
module GatesRecord {
  import opened Wrappers
  import opened Text
  import opened Sections
  import opened SectionLaws
  import opened Seqs
  import opened SectionHead
  import opened History

  datatype GatesState = GatesState(
    copilotRounds: nat, ciRounds: nat, satisfied: bool, merged: bool,
    status: string, detail: string, copilotDetail: string)

  const ROUNDS_CAP: nat := 3
  const MAX_INT: nat := 0x7fff_ffff_ffff_ffff

  function GatesHeading(): string { "PR Gates" }
  function CopilotPrefix(): string { "- Copilot rounds used: " }
  function CIPrefix(): string { "- CI rounds used: " }
  function SatisfiedLine(): string { "- Copilot gate: satisfied" }
  function MergedLine(): string { "- Merge: merged" }
  function StatusPrefix(): string { "- Status: " }

  // ---- Decimal text ------------------------------------------------------------

  predicate IsDigit(c: char) {
    '0' <= c <= '9'
  }

  function Digit(d: nat): (c: char)
    requires d < 10
    ensures IsDigit(c) && c as int - '0' as int == d
  {
    ('0' as int + d) as char
  }

  function Dec(n: nat): string {
    if n < 10 then [Digit(n)] else Dec(n / 10) + [Digit(n % 10)]
  }

  predicate AllDigits(s: string) {
    forall i :: 0 <= i < |s| ==> IsDigit(s[i])
  }

  function Value(s: string): nat
    requires AllDigits(s)
  {
    if s == "" then 0 else Value(s[..|s| - 1]) * 10 + (s[|s| - 1] as int - '0' as int)
  }

  // strconv.Atoi on digits, 0 on overflow as firstSubmatchInt answers it.
  function Atoi(s: string): nat
    requires AllDigits(s)
  {
    if Value(s) <= MAX_INT then Value(s) else 0
  }

  function DigitRun(s: string): (d: string)
    ensures |d| <= |s| && d == s[..|d|] && AllDigits(d)
    ensures |d| < |s| ==> !IsDigit(s[|d|])
  {
    if s == "" || !IsDigit(s[0]) then "" else [s[0]] + DigitRun(s[1..])
  }

  lemma {:induction false} DecReads(n: nat)
    ensures Dec(n) != "" && AllDigits(Dec(n)) && Value(Dec(n)) == n
  {
    if n >= 10 {
      DecReads(n / 10);
      assert Dec(n)[..|Dec(n)| - 1] == Dec(n / 10);
    } else {
      assert Dec(n)[..0] == "";
    }
  }

  lemma {:induction false} RunOfDigits(d: string, rest: string)
    requires AllDigits(d) && (rest == "" || !IsDigit(rest[0]))
    ensures DigitRun(d + rest) == d
  {
    if d == "" {
      assert d + rest == rest;
    } else {
      assert (d + rest)[1..] == d[1..] + rest;
      RunOfDigits(d[1..], rest);
    }
  }

  // ---- The counters' lines --------------------------------------------------------

  // One line against the counter pattern: prefix, digits, a slash.
  function CounterIn(line: string, prefix: string): Option<nat> {
    if !HasPrefix(line, prefix) then None
    else
      var rest := line[|prefix|..];
      var d := DigitRun(rest);
      if d != "" && |d| < |rest| && rest[|d|] == '/' then Some(Atoi(d)) else None
  }

  function FirstCounter(ls: seq<string>, prefix: string): nat {
    if ls == [] then 0
    else match CounterIn(ls[0], prefix)
         case Some(n) => n
         case None => FirstCounter(ls[1..], prefix)
  }

  function CounterLine(prefix: string, n: nat): string {
    prefix + (Dec(n) + "/3")
  }

  lemma CounterReads(prefix: string, n: nat)
    requires n <= MAX_INT
    ensures CounterIn(CounterLine(prefix, n), prefix) == Some(n)
  {
    DecReads(n);
    assert CounterLine(prefix, n)[|prefix|..] == Dec(n) + "/3";
    RunOfDigits(Dec(n), "/3");
  }

  // ---- What is written -----------------------------------------------------------

  function Header(st: GatesState): seq<string> {
    [Marker(GatesHeading()), "", CounterLine(CopilotPrefix(), st.copilotRounds), CounterLine(CIPrefix(), st.ciRounds)]
    + (if st.satisfied then [SatisfiedLine()] else [])
    + (if st.merged then [MergedLine()] else [])
  }

  function Block(text: string): seq<string> {
    if text == "" then [] else [""] + Split(text)
  }

  function Trailer(st: GatesState): seq<string> {
    (if st.status == "" then [] else Split(StatusPrefix() + st.status))
    + Block(TrimSpace(st.copilotDetail)) + Block(TrimSpace(st.detail))
  }

  function Render(st: GatesState): string {
    Terminated(Header(st) + Trailer(st))
  }

  function Recorded(body: string, st: GatesState): string {
    Upsert(body, GatesHeading(), Render(st))
  }

  // ---- What is read back ------------------------------------------------------------

  function LoadSection(section: string): GatesState {
    if section == "" then GatesState(0, 0, false, false, "", "", "")
    else
      var ls := Split(section);
      GatesState(FirstCounter(ls, CopilotPrefix()), FirstCounter(ls, CIPrefix()),
                 SatisfiedLine() in ls, MergedLine() in ls, "", "", "")
  }

  function Load(body: string): GatesState {
    LoadSection(Extract(body, GatesHeading()))
  }

  // ---- The methods ----------------------------------------------------------------------

  lemma TerminatedConcat(x: seq<string>, text: string)
    ensures Terminated(x + Split(text)) == Terminated(x) + text + "\n"
  {
    JoinOfSplit(text);
    var y := Split(text);
    if x == [] {
      assert x + y == y;
      assert Terminated([]) == "" by { assert [] + [""] == [""]; }
      JoinAppend(y, [""]);
      assert "" + text + "\n" == text + "\n";
    } else {
      JoinAppend(x, [""]);
      JoinAppend(x, y);
      JoinAppend(x + y, [""]);
      assert Join(x) + [NL] + text + [NL] == Terminated(x) + text + "\n";
    }
  }

  // A status line, or a detail behind a blank line; nothing for none.
  function StatusText(status: string): string {
    if status == "" then "" else StatusPrefix() + status + "\n"
  }

  function DetailText(detail: string): string {
    if detail == "" then "" else "\n" + detail + "\n"
  }

  lemma BlockText(x: seq<string>, text: string)
    ensures Terminated(x + Block(text)) == Terminated(x) + DetailText(text)
  {
    if text == "" {
      assert x + [] == x;
    } else {
      TerminatedAppend(x, "");
      TerminatedConcat(x + [""], text);
      Assoc(x, [""], Split(text));
      assert Terminated(x) + "" + "\n" + text + "\n" == Terminated(x) + ("\n" + text + "\n");
    }
  }

  lemma StatusBlock(x: seq<string>, status: string)
    ensures var s := if status == "" then [] else Split(StatusPrefix() + status);
            Terminated(x + s) == Terminated(x) + StatusText(status)
  {
    if status == "" {
      assert x + [] == x;
    } else {
      TerminatedConcat(x, StatusPrefix() + status);
      assert Terminated(x) + (StatusPrefix() + status) + "\n" == Terminated(x) + (StatusPrefix() + status + "\n");
    }
  }

  /** The section's text behind its header: the status, the Copilot detail and the CI detail, each in full. */
  lemma RenderedText(st: GatesState)
    ensures Render(st) ==
            Terminated(Header(st)) + StatusText(st.status) + DetailText(TrimSpace(st.copilotDetail)) + DetailText(TrimSpace(st.detail))
  {
    var h := Header(st);
    var s := if st.status == "" then [] else Split(StatusPrefix() + st.status);
    var c, d := Block(TrimSpace(st.copilotDetail)), Block(TrimSpace(st.detail));
    StatusBlock(h, st.status);
    BlockText(h + s, TrimSpace(st.copilotDetail));
    BlockText(h + s + c, TrimSpace(st.detail));
    Assoc(h, s, c);
    Assoc(h, s + c, d);
  }

  method RenderGates(st: GatesState) returns (b: string)
    ensures b == Render(st)
  {
    ghost var h0 := [Marker(GatesHeading()), "", CounterLine(CopilotPrefix(), st.copilotRounds), CounterLine(CIPrefix(), st.ciRounds)];
    b := HeaderText(st.copilotRounds, st.ciRounds);
    ghost var ls := h0;
    if st.satisfied {
      TerminatedAppend(ls, SatisfiedLine());
      ls := ls + [SatisfiedLine()];
      b := b + SatisfiedLine() + "\n";
    }
    if st.merged {
      TerminatedAppend(ls, MergedLine());
      ls := ls + [MergedLine()];
      b := b + MergedLine() + "\n";
    }
    assert ls == Header(st);
    if st.status != "" {
      TerminatedConcat(ls, StatusPrefix() + st.status);
      ls := ls + Split(StatusPrefix() + st.status);
      b := b + (StatusPrefix() + st.status) + "\n";
    }
    ghost var l1 := ls;
    b := AppendBlock(ls, b, TrimSpace(st.copilotDetail));
    ls := ls + Block(TrimSpace(st.copilotDetail));
    b := AppendBlock(ls, b, TrimSpace(st.detail));
    TrailerSplit(st, l1);
  }

  lemma TrailerSplit(st: GatesState, l1: seq<string>)
    requires l1 == Header(st) + (if st.status == "" then [] else Split(StatusPrefix() + st.status))
               || (st.status == "" && l1 == Header(st))
    ensures l1 + Block(TrimSpace(st.copilotDetail)) + Block(TrimSpace(st.detail)) == Header(st) + Trailer(st)
  {
    var s := if st.status == "" then [] else Split(StatusPrefix() + st.status);
    var c, d := Block(TrimSpace(st.copilotDetail)), Block(TrimSpace(st.detail));
    assert Header(st) + [] == Header(st);
    Assoc(Header(st), s, c);
    Assoc(Header(st), s + c, d);
  }

  method HeaderText(copilotRounds: nat, ciRounds: nat) returns (b: string)
    ensures b == Terminated([Marker(GatesHeading()), "", CounterLine(CopilotPrefix(), copilotRounds), CounterLine(CIPrefix(), ciRounds)])
  {
    var m, c, i := Marker(GatesHeading()), CounterLine(CopilotPrefix(), copilotRounds), CounterLine(CIPrefix(), ciRounds);
    TerminatedAppend([], m);
    TerminatedAppend([m], "");
    TerminatedAppend([m, ""], c);
    TerminatedAppend([m, "", c], i);
    assert Terminated([]) == "" by { assert [] + [""] == [""]; }
    assert [] + [m] == [m] && [m] + [""] == [m, ""] && [m, ""] + [c] == [m, "", c] && [m, "", c] + [i] == [m, "", c, i];
    b := "" + m + "\n";
    b := b + "" + "\n";
    b := b + c + "\n";
    b := b + i + "\n";
  }

  method AppendBlock(ghost ls: seq<string>, b: string, text: string) returns (r: string)
    requires b == Terminated(ls)
    ensures r == Terminated(ls + Block(text))
  {
    if text == "" {
      assert ls + [] == ls;
      return b;
    }
    TerminatedAppend(ls, "");
    TerminatedConcat(ls + [""], text);
    Assoc(ls, [""], Split(text));
    r := b + "" + "\n";
    r := r + text + "\n";
  }

  method RecordGates(body: string, st: GatesState) returns (r: string)
    ensures r == Recorded(body, st)
  {
    var section := RenderGates(st);
    r := UpsertSection(body, GatesHeading(), section);
  }

  method LoadGatesState(body: string) returns (st: GatesState)
    ensures st == Load(body)
  {
    var section := ExtractSection(body, GatesHeading());
    st := LoadSection(section);
  }
}
