/**
 * Text as the section store sees it: a string is a non-empty list of lines
 * joined by newlines. The functions stand for the strings.Split, strings.Join
 * and strings.Trim* calls of the store; the lemmas move between the two views.
 */
module Text {

  const NL: char := '\n'

  // unicode.IsSpace, which strings.TrimSpace and strings.Fields judge by.
  predicate IsSpace(c: char) {
    || c == '\t' || c == '\n' || c == '\U{b}' || c == '\U{c}' || c == '\r' || c == ' '
    || c == '\U{85}' || c == '\U{a0}' || c == '\U{1680}' || '\U{2000}' <= c <= '\U{200a}'
    || c == '\U{2028}' || c == '\U{2029}' || c == '\U{202f}' || c == '\U{205f}' || c == '\U{3000}'
  }

  predicate HasPrefix(s: string, p: string) {
    p <= s
  }

  predicate OneLine(s: string) {
    NL !in s
  }

  predicate AllLines(ls: seq<string>) {
    forall i :: 0 <= i < |ls| ==> OneLine(ls[i])
  }

  function Split(s: string): (ls: seq<string>)
    ensures |ls| > 0 && AllLines(ls)
  {
    if s == "" then [""]
    else if s[0] == NL then [""] + Split(s[1..])
    else
      var rest := Split(s[1..]);
      [[s[0]] + rest[0]] + rest[1..]
  }

  function Join(ls: seq<string>): string {
    if |ls| == 0 then ""
    else if |ls| == 1 then ls[0]
    else ls[0] + [NL] + Join(ls[1..])
  }

  lemma {:induction false} JoinOfSplit(s: string)
    ensures Join(Split(s)) == s
  {
    if s != "" {
      JoinOfSplit(s[1..]);
      var rest := Split(s[1..]);
      if s[0] == NL {
        assert ([""] + rest)[1..] == rest;
        assert Join(Split(s)) == "" + [NL] + Join(rest);
      } else {
        var ls := [[s[0]] + rest[0]] + rest[1..];
        assert ls[1..] == rest[1..];
        if |rest| == 1 {
          assert Join(ls) == [s[0]] + rest[0];
        } else {
          assert Join(ls) == ([s[0]] + rest[0]) + [NL] + Join(rest[1..]);
          assert Join(ls) == [s[0]] + (rest[0] + [NL] + Join(rest[1..]));
        }
      }
    }
  }

  lemma {:induction false} SplitOfLine(l: string)
    requires OneLine(l)
    ensures Split(l) == [l]
  {
    if l != "" {
      SplitOfLine(l[1..]);
      assert [l[0]] + l[1..] == l;
    }
  }

  lemma {:induction false} SplitAppend(a: string, b: string)
    ensures Split(a + [NL] + b) == Split(a) + Split(b)
  {
    if a == "" {
      assert (a + [NL] + b)[1..] == b;
    } else {
      assert (a + [NL] + b)[1..] == a[1..] + [NL] + b;
      SplitAppend(a[1..], b);
    }
  }

  lemma {:induction false} SplitOfJoin(ls: seq<string>)
    requires |ls| > 0 && AllLines(ls)
    ensures Split(Join(ls)) == ls
  {
    SplitOfLine(ls[0]);
    if |ls| > 1 {
      SplitOfJoin(ls[1..]);
      SplitAppend(ls[0], Join(ls[1..]));
      assert [ls[0]] + ls[1..] == ls;
    }
  }

  lemma {:induction false} JoinAppend(a: seq<string>, b: seq<string>)
    requires |a| > 0 && |b| > 0
    ensures Join(a + b) == Join(a) + [NL] + Join(b)
  {
    if |a| == 1 {
      assert (a + b)[1..] == b;
    } else {
      assert (a + b)[1..] == a[1..] + b;
      JoinAppend(a[1..], b);
      assert Join(a) == a[0] + [NL] + Join(a[1..]);
      assert Join(a + b) == a[0] + [NL] + (Join(a[1..]) + [NL] + Join(b));
    }
  }

  // strings.TrimRight(s, "\n") and strings.TrimLeft(s, "\n").
  function TrimRightNL(s: string): string {
    if s != "" && s[|s| - 1] == NL then TrimRightNL(s[..|s| - 1]) else s
  }

  function TrimLeftNL(s: string): string {
    if s != "" && s[0] == NL then TrimLeftNL(s[1..]) else s
  }

  // The same two trims on the list of lines.
  function DropTrail(ls: seq<string>): (r: seq<string>)
    ensures |r| <= |ls| && r == ls[..|r|]
    ensures forall i :: |r| <= i < |ls| ==> ls[i] == ""
    ensures r != [] ==> r[|r| - 1] != ""
  {
    if ls != [] && ls[|ls| - 1] == "" then DropTrail(ls[..|ls| - 1]) else ls
  }

  function DropLead(ls: seq<string>): (r: seq<string>)
    ensures |r| <= |ls| && r == ls[|ls| - |r|..]
    ensures forall i :: 0 <= i < |ls| - |r| ==> ls[i] == ""
    ensures r != [] ==> r[0] != ""
  {
    if ls != [] && ls[0] == "" then DropLead(ls[1..]) else ls
  }

  function OrBlank(ls: seq<string>): seq<string> {
    if ls == [] then [""] else ls
  }

  lemma {:induction false} TrimRightIsDropTrail(ls: seq<string>)
    requires AllLines(ls)
    ensures TrimRightNL(Join(ls)) == Join(DropTrail(ls))
  {
    if ls != [] {
      var init, last := ls[..|ls| - 1], ls[|ls| - 1];
      assert ls == init + [last];
      if init != [] { JoinAppend(init, [last]); }
      var s := Join(ls);
      if last == "" {
        TrimRightIsDropTrail(init);
        if init != [] { assert s[..|s| - 1] == Join(init); }
      } else {
        assert s[|s| - 1] == last[|last| - 1];
      }
    }
  }

  lemma {:induction false} TrimLeftIsDropLead(ls: seq<string>)
    requires AllLines(ls)
    ensures TrimLeftNL(Join(ls)) == Join(DropLead(ls))
  {
    if ls != [] {
      if ls[0] == "" {
        TrimLeftIsDropLead(ls[1..]);
        if |ls| > 1 { assert Join(ls)[1..] == Join(ls[1..]); }
      } else {
        assert Join(ls)[0] == ls[0][0];
      }
    }
  }

  lemma JoinEmptyOnlyForBlank(ls: seq<string>)
    requires ls == [] || ls[0] != "" || ls[|ls| - 1] != ""
    ensures Join(ls) == "" <==> ls == []
  {
  }

  function TrimLeftSpace(s: string): string {
    if s != "" && IsSpace(s[0]) then TrimLeftSpace(s[1..]) else s
  }

  function TrimRightSpace(s: string): string {
    if s != "" && IsSpace(s[|s| - 1]) then TrimRightSpace(s[..|s| - 1]) else s
  }

  // strings.TrimSpace.
  function TrimSpace(s: string): string {
    TrimRightSpace(TrimLeftSpace(s))
  }

  lemma TrimSpaceOfTight(s: string)
    requires s != "" && !IsSpace(s[0]) && !IsSpace(s[|s| - 1])
    ensures TrimSpace(s) == s
  {
  }

  // Trailing blank lines of a concatenation are those of its last part.
  lemma {:induction false} DropTrailAppend(x: seq<string>, y: seq<string>)
    ensures DropTrail(x + y) == if DropTrail(y) == [] then DropTrail(x) else x + DropTrail(y)
  {
    if y == [] {
      assert x + y == x;
    } else {
      assert (x + y)[..|x + y| - 1] == x + y[..|y| - 1];
      DropTrailAppend(x, y[..|y| - 1]);
    }
  }
}
