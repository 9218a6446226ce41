/**
 * The two writers that reassemble lines from a chunked stream: the transcript stamp and
 * the container output pump. Whatever the chunks, what leaves is one item per complete
 * line of the whole stream.
 */
module LineWriters {
  import opened Text
  import opened Seqs

  // The lines a text completes, and the part behind its last newline.
  function Whole(text: string): seq<string> {
    var ls := Split(text);
    ls[..|ls| - 1]
  }

  function Tail(text: string): (t: string)
    ensures OneLine(t)
  {
    var ls := Split(text);
    ls[|ls| - 1]
  }

  // The re-encodings of the lines that are exactly one JSON object: any lines, any texts.
  type Encodings = map<string, string>

  // A line that is not one leaves byte for byte.
  function Stamp(line: string, coded: Encodings): string {
    if line == "" || line[0] != '{' || line !in coded then line else coded[line]
  }

  // One stamped item per line, its terminator with it.
  function Stamped(ls: seq<string>, coded: Encodings): seq<string> {
    if ls == [] then [] else Stamped(ls[..|ls| - 1], coded) + [Stamp(ls[|ls| - 1], coded) + "\n"]
  }

  lemma StampedSnoc(start: seq<string>, ls: seq<string>, l: string, coded: Encodings)
    ensures start + Stamped(ls, coded) + [Stamp(l, coded) + "\n"] == start + Stamped(ls + [l], coded)
  {
    assert (ls + [l])[..|ls|] == ls;
  }

  lemma {:induction false} SplitOn(a: string, b: string)
    ensures Split(a + b) == Whole(a) + Split(Tail(a) + b)
  {
    if a == "" {
      assert a + b == b && Split("") == [""];
    } else {
      assert (a + b)[1..] == a[1..] + b;
      SplitOn(a[1..], b);
      if a[0] == NL {
        NewlineJoins(Split(a[1..]), b);
      } else {
        FirstJoins(a[0], Split(a[1..]), b);
      }
    }
  }

  lemma NewlineJoins(rest: seq<string>, b: string)
    requires rest != []
    ensures var ls := [""] + rest; var n := |rest| - 1;
            [""] + (rest[..n] + Split(rest[n] + b)) == ls[..n + 1] + Split(ls[n + 1] + b)
  {
  }

  // A character in front of some lines, and in front of the same lines continued.
  lemma FirstJoins(c: char, rest: seq<string>, b: string)
    requires rest != [] && c != NL
    ensures var ls := [[c] + rest[0]] + rest[1..];
            var n := |rest| - 1;
            var joined := rest[..n] + Split(rest[n] + b);
            [[c] + joined[0]] + joined[1..] == ls[..n] + Split(ls[n] + b)
  {
    var n := |rest| - 1;
    if n == 0 {
      assert ([c] + rest[0]) + b == [c] + (rest[0] + b);
      assert ([c] + (rest[0] + b))[1..] == rest[0] + b;
    }
  }

  /** Two chunks are worth their concatenation: the second completes what the first left. */
  lemma ChunksCompose(a: string, b: string)
    ensures Whole(a + b) == Whole(a) + Whole(Tail(a) + b)
    ensures Tail(a + b) == Tail(Tail(a) + b)
  {
    SplitOn(a, b);
  }

  lemma NoNewline(text: string)
    requires OneLine(text)
    ensures Whole(text) == [] && Tail(text) == text
  {
    SplitOfLine(text);
  }

  lemma OneNewline(line: string, rest: string)
    requires OneLine(line)
    ensures Whole(line + "\n" + rest) == [line] + Whole(rest) && Tail(line + "\n" + rest) == Tail(rest)
  {
    SplitAppend(line, rest);
    SplitOfLine(line);
    assert line + [NL] + rest == line + "\n" + rest;
  }

  // bytes.IndexByte(s, '\n').
  function NewlineAt(s: string): (i: nat)
    ensures i <= |s| && OneLine(s[..i]) && (i < |s| ==> s[i] == NL)
  {
    if s == "" || s[0] == NL then 0 else 1 + NewlineAt(s[1..])
  }

  lemma AtNewline(s: string)
    requires NewlineAt(s) < |s|
    ensures s == s[..NewlineAt(s)] + "\n" + s[NewlineAt(s) + 1..]
  {
    SplitAt(s, NewlineAt(s));
  }

  // A line completed, or a rest held, behind what was taken before it.
  lemma Extend(held: string, taken: string, piece: string)
    ensures Whole(held + (taken + piece)) == Whole(held + taken) + Whole(Tail(held + taken) + piece)
    ensures Tail(held + (taken + piece)) == Tail(Tail(held + taken) + piece)
  {
    assert held + (taken + piece) == (held + taken) + piece;
    ChunksCompose(held + taken, piece);
  }

  lemma LineTaken(held: string, taken: string, line: string)
    requires OneLine(line)
    ensures Whole(held + (taken + (line + "\n"))) == Whole(held + taken) + [Tail(held + taken) + line]
    ensures Tail(held + (taken + (line + "\n"))) == ""
  {
    Extend(held, taken, line + "\n");
    var t := Tail(held + taken);
    assert t + (line + "\n") == (t + line) + "\n" + "";
    OneNewline(t + line, "");
    assert Split("") == [""];
    assert [t + line] + [] == [t + line];
  }

  lemma RestTaken(held: string, taken: string, rest: string)
    requires OneLine(rest)
    ensures Whole(held + (taken + rest)) == Whole(held + taken) && Tail(held + (taken + rest)) == Tail(held + taken) + rest
  {
    Extend(held, taken, rest);
    NoNewline(Tail(held + taken) + rest);
    assert Whole(held + taken) + [] == Whole(held + taken);
  }

  // ---- The transcript stamp -------------------------------------------------------------

  class StampWriter {
    const coded: Encodings
    var pending: string
    // Every line handed to the sink, terminator included.
    var out: seq<string>

    ghost predicate Valid()
      reads this
    {
      OneLine(pending)
    }

    constructor (coded: Encodings)
      ensures Valid() && pending == "" && out == [] && this.coded == coded
    {
      this.coded, this.pending, this.out := coded, "", [];
    }

    // The sink may fail on any line.
    method Sink(line: string) returns (ok: bool)
      modifies this`out
      ensures out == old(out) + [line]
    {
      out := out + [line];
      ok := *;
    }

    // What has been taken of a chunk: its lines are with the sink, its tail is held.
    ghost predicate Took(start: seq<string>, given: string, taken: string)
      reads this
    {
      pending == Tail(given + taken) && out == start + Stamped(Whole(given + taken), coded)
    }

    method TakeLine(line: string, ghost start: seq<string>, ghost given: string, ghost taken: string) returns (ok: bool)
      requires Valid() && OneLine(line) && Took(start, given, taken)
      modifies this`pending, this`out
      ensures Valid() && Took(start, given, taken + (line + "\n")) && pending == ""
    {
      LineTaken(given, taken, line);
      var whole := pending + line;
      StampedSnoc(start, Whole(given + taken), whole, coded);
      pending := "";
      ok := Sink(Stamp(whole, coded) + "\n");
    }

    method TakeRest(rest: string, ghost start: seq<string>, ghost given: string, ghost taken: string)
      requires Valid() && OneLine(rest) && Took(start, given, taken)
      modifies this`pending
      ensures Valid() && Took(start, given, taken + rest)
    {
      RestTaken(given, taken, rest);
      pending := pending + rest;
    }

    /**
     * Write. Without a sink error: one stamped line for every line completed, the rest
     * held. With one: exactly the lines up to the one that failed were handed over, and
     * n bytes are those of these lines.
     */
    method Write(p: string) returns (n: nat, ok: bool)
      requires Valid()
      modifies this`pending, this`out
      ensures Valid() && n <= |p| && (ok ==> n == |p|)
      ensures pending == Tail(old(pending) + p[..n]) && (!ok ==> pending == "")
      ensures out == old(out) + Stamped(Whole(old(pending) + p[..n]), coded)
    {
      var rest := p;
      ghost var taken, given, start := "", pending, out;
      NoNewline(given);
      assert given + "" == given && start + [] == start;
      while true
        invariant p == taken + rest && Valid() && Took(start, given, taken)
        decreases |rest|
      {
        var i := NewlineAt(rest);
        if i == |rest| {
          assert rest[..i] == rest;
          TakeRest(rest, start, given, taken);
          assert p[..|p|] == taken + rest;
          return |p|, true;
        }
        AtNewline(rest);
        var sunk := TakeLine(rest[..i], start, given, taken);
        LineMoved(p, taken, rest, i);
        taken := taken + (rest[..i] + "\n");
        rest := rest[i + 1..];
        if !sunk { return |p| - |rest|, false; }
      }
    }
  }

  // A line and its newline, moved from what is left to what was taken.
  lemma LineMoved(p: string, taken: string, rest: string, i: nat)
    requires p == taken + rest && i < |rest| && rest[i] == NL
    ensures var t := taken + (rest[..i] + "\n"); p == t + rest[i + 1..] && p[..|t|] == t && |t| == |p| - |rest[i + 1..]|
  {
    assert rest == rest[..i] + "\n" + rest[i + 1..];
  }

  // ---- The output pump ---------------------------------------------------------------------

  // bytes.TrimRight(line, "\r").
  function TrimCR(line: string): string {
    if line != "" && line[|line| - 1] == '\r' then TrimCR(line[..|line| - 1]) else line
  }

  function Cut(line: string, max: nat): string {
    if |line| <= max then line else line[..max]
  }

  // What leaves of one line.
  function Shape(line: string, max: nat): string {
    TrimCR(Cut(line, max))
  }

  function Shaped(ls: seq<string>, max: nat): seq<string> {
    if ls == [] then [] else Shaped(ls[..|ls| - 1], max) + [Shape(ls[|ls| - 1], max)]
  }

  lemma CutTwice(a: string, b: string, max: nat)
    ensures Cut(Cut(a, max) + b, max) == Cut(a + b, max) && |Cut(a, max)| <= max
  {
  }

  predicate NothingButCR(s: string) {
    forall i :: 0 <= i < |s| ==> s[i] == '\r'
  }

  /** A line leaves whole when it fits, as its first characters when it does not, without the CRs at its end and no others. */
  lemma {:induction false} ShapeKeeps(line: string, max: nat)
    ensures var n, s := if |line| <= max then |line| else max, Shape(line, max);
            && |s| <= n && s == line[..|s|] && NothingButCR(line[|s|..n])
            && (s == "" || s[|s| - 1] != '\r')
  {
    TrimCRKeeps(Cut(line, max));
    var s := Shape(line, max);
    assert Cut(line, max)[..|s|] == line[..|s|];
  }

  lemma {:induction false} TrimCRKeeps(line: string)
    ensures var s := TrimCR(line);
            |s| <= |line| && s == line[..|s|] && NothingButCR(line[|s|..]) && (s == "" || s[|s| - 1] != '\r')
  {
    if line != "" && line[|line| - 1] == '\r' {
      var n := |line| - 1;
      TrimCRKeeps(line[..n]);
      var s := TrimCR(line);
      assert line[|s|..] == line[..n][|s|..] + ['\r'];
    }
  }

  lemma SentSnoc(before: seq<string>, whole: seq<string>, line: string, max: nat)
    ensures before + Shaped(whole, max) + [Shape(line, max)] == before + Shaped(whole + [line], max)
  {
    assert (whole + [line])[..|whole|] == whole;
  }

  class LineWriter {
    const max: nat
    var buf: string
    var emitted: seq<string>
    // The lines completed since the last flush, and the one in progress, uncut.
    ghost var whole: seq<string>
    ghost var tail: string
    ghost var before: seq<string>

    // The buffer is the cut of the line in progress; every line completed is out.
    ghost predicate Valid()
      reads this
    {
      && |buf| <= max && buf == Cut(tail, max) && OneLine(tail)
      && emitted == before + Shaped(whole, max)
    }

    constructor (max: nat)
      ensures Valid() && this.max == max && emitted == [] && whole == [] && tail == ""
    {
      this.max, this.buf, this.emitted := max, "", [];
      whole, tail, before := [], "", [];
    }

    method AppendBounded(p: string)
      modifies this`buf
      requires |buf| <= max
      ensures buf == Cut(old(buf) + p, max)
    {
      var room := max - |buf|;
      if room > 0 {
        buf := buf + (if |p| > room then p[..room] else p);
      } else {
        assert Cut(buf + p, max) == buf;
      }
    }

    method FlushLine()
      modifies this`buf, this`emitted
      ensures buf == "" && emitted == old(emitted) + [TrimCR(old(buf))]
    {
      emitted := emitted + [TrimCR(buf)];
      buf := "";
    }

    // The part of a chunk that completes no line.
    method Hold(p: string)
      requires Valid() && OneLine(p)
      modifies this`buf, this`tail
      ensures Valid() && tail == old(tail) + p
    {
      CutTwice(tail, p, max);
      AppendBounded(p);
      tail := tail + p;
    }

    // The part that completes one.
    method Complete(line: string)
      requires Valid() && OneLine(line)
      modifies this`buf, this`emitted, this`whole, this`tail
      ensures Valid() && tail == "" && whole == old(whole) + [old(tail) + line]
    {
      CutTwice(tail, line, max);
      SentSnoc(before, whole, tail + line, max);
      AppendBounded(line);
      FlushLine();
      whole, tail := whole + [tail + line], "";
    }

    // What has been taken of a chunk is in the lines completed and the one in progress.
    ghost predicate Took(start: seq<string>, held: string, taken: string)
      reads this
    {
      whole == start + Whole(held + taken) && tail == Tail(held + taken)
    }

    method TakeLine(line: string, ghost start: seq<string>, ghost held: string, ghost taken: string)
      requires Valid() && OneLine(line) && Took(start, held, taken)
      modifies this`buf, this`emitted, this`whole, this`tail
      ensures Valid() && Took(start, held, taken + (line + "\n"))
    {
      LineTaken(held, taken, line);
      ghost var last := tail + line;
      assert start + Whole(held + taken) + [last] == start + (Whole(held + taken) + [last]);
      Complete(line);
    }

    method TakeRest(rest: string, ghost start: seq<string>, ghost held: string, ghost taken: string)
      requires Valid() && OneLine(rest) && Took(start, held, taken)
      modifies this`buf, this`tail
      ensures Valid() && Took(start, held, taken + rest)
    {
      RestTaken(held, taken, rest);
      Hold(rest);
    }

    /** Write: for any chunks, each completed line leaves cut to the bound, then stripped of its CRs. */
    method Write(p: string) returns (n: nat)
      requires Valid()
      modifies this`buf, this`emitted, this`whole, this`tail
      ensures Valid() && n == |p|
      ensures whole == old(whole) + Whole(old(tail) + p) && tail == Tail(old(tail) + p)
    {
      n := |p|;
      var rest := p;
      ghost var taken, held, start := "", tail, whole;
      NoNewline(held);
      assert held + "" == held && start + [] == start;
      while rest != ""
        invariant Valid() && taken + rest == p && Took(start, held, taken)
        decreases |rest|
      {
        var idx := NewlineAt(rest);
        if idx == |rest| {
          assert rest[..idx] == rest;
          TakeRest(rest, start, held, taken);
          return;
        }
        AtNewline(rest);
        TakeLine(rest[..idx], start, held, taken);
        taken := taken + (rest[..idx] + "\n");
        rest := rest[idx + 1..];
      }
      assert taken + "" == taken;
    }

    /** Flush: the unterminated tail leaves as a line of its own when there is one. */
    method Flush()
      requires Valid()
      modifies this
      ensures Valid() && whole == [] && tail == "" && before == emitted && buf == ""
      ensures emitted == old(emitted) + (if old(buf) == "" then [] else [Shape(old(tail), max)])
    {
      if |buf| > 0 { FlushLine(); }
      whole, tail, before := [], "", emitted;
    }
  }

  /** However a stream is cut into writes, what leaves and what is held are those of the whole stream. */
  method WriteAll(w: LineWriter, chunks: seq<string>)
    requires w.Valid() && w.whole == [] && w.tail == ""
    modifies w`buf, w`emitted, w`whole, w`tail
    ensures w.Valid() && w.whole == Whole(Concat(chunks)) && w.tail == Tail(Concat(chunks))
  {
    assert Split("") == [""];
    for i := 0 to |chunks|
      invariant w.Valid() && w.whole == Whole(Concat(chunks[..i])) && w.tail == Tail(Concat(chunks[..i]))
    {
      ConcatSnoc(chunks, i);
      ChunksCompose(Concat(chunks[..i]), chunks[i]);
      var n := w.Write(chunks[i]);
    }
    assert chunks[..|chunks|] == chunks;
  }

  lemma ConcatSnoc(chunks: seq<string>, i: nat)
    requires i < |chunks|
    ensures Concat(chunks[..i + 1]) == Concat(chunks[..i]) + chunks[i]
  {
    assert chunks[..i + 1][..i] == chunks[..i];
  }

  function Concat(chunks: seq<string>): string {
    if chunks == [] then "" else Concat(chunks[..|chunks| - 1]) + chunks[|chunks| - 1]
  }
}
