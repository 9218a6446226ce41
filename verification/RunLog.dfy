/**
 * The card's run log and the count of the runs in it: a chunked scan with a carry that
 * agrees with counting lines however the reader cuts the file, and the append-only log
 * whose headers it counts.
 */
module RunLog {
  import opened Wrappers
  import opened Text
  import opened History
  import opened Seqs
  import GatesRecord

  function RunHeaderPrefix(): string { "==== run started " }
  const CHUNK: nat := 32768

  // ---- Occurrences of a needle ----------------------------------------------------------

  // At every position where it stands.
  function Matches(s: string, needle: string): nat
    requires needle != ""
  {
    if |s| < |needle| then 0 else (if needle <= s then 1 else 0) + Matches(s[1..], needle)
  }

  // bytes.Count: past each one found.
  function CountOf(s: string, needle: string): nat
    requires needle != ""
    decreases |s|
  {
    if |s| < |needle| then 0
    else if needle <= s then 1 + CountOf(s[|needle|..], needle)
    else CountOf(s[1..], needle)
  }

  // A needle whose first character does not come back in it cannot overlap itself.
  predicate Anchored(needle: string) {
    needle != "" && needle[0] !in needle[1..]
  }

  lemma {:induction false} NoneInside(s: string, needle: string, k: nat)
    requires Anchored(needle) && needle <= s && 1 <= k <= |needle|
    ensures Matches(s[k..], needle) == Matches(s[|needle|..], needle)
    decreases |needle| - k
  {
    if k < |needle| {
      NoneInside(s, needle, k + 1);
      assert s[k..][1..] == s[k + 1..];
      assert s[k] == needle[1..][k - 1];
      if |s[k..]| < |needle| { ShortHasNone(s[|needle|..], needle); } else { assert !(needle <= s[k..]); }
    }
  }

  lemma {:induction false} ShortHasNone(s: string, needle: string)
    requires needle != "" && |s| < |needle|
    ensures Matches(s, needle) == 0
  {
  }

  lemma {:induction false} CountIsMatches(s: string, needle: string)
    requires Anchored(needle)
    ensures CountOf(s, needle) == Matches(s, needle)
    decreases |s|
  {
    if |s| >= |needle| {
      if needle <= s {
        CountIsMatches(s[|needle|..], needle);
        NoneInside(s, needle, 1);
      } else {
        CountIsMatches(s[1..], needle);
      }
    }
  }

  // ---- The carry ---------------------------------------------------------------------------

  // What the next window keeps of what was read.
  function Carried(s: string, needle: string): (t: string)
    requires needle != ""
    ensures |t| < |needle| && |t| <= |s|
  {
    if |s| < |needle| then s else s[|s| - (|needle| - 1)..]
  }

  lemma CarriedTail(s: string, needle: string)
    requires needle != "" && |s| >= |needle|
    ensures Carried(s[1..], needle) == Carried(s, needle)
  {
  }

  lemma {:induction false} MatchesInWindow(s: string, chunk: string, needle: string)
    requires needle != ""
    ensures Matches(s + chunk, needle) == Matches(s, needle) + Matches(Carried(s, needle) + chunk, needle)
    decreases |s|
  {
    if |s| >= |needle| {
      DropIn(s, chunk, 1);
      MatchesInWindow(s[1..], chunk, needle);
      CarriedTail(s, needle);
      PrefixIn(needle, s, chunk);
    }
  }

  lemma CarriedOn(s: string, chunk: string, needle: string)
    requires needle != ""
    ensures Carried(s + chunk, needle) == Carried(Carried(s, needle) + chunk, needle)
  {
    var w := Carried(s, needle) + chunk;
    assert s + chunk == s[..|s| - |Carried(s, needle)|] + w;
  }

  // ---- Lines ---------------------------------------------------------------------------------

  function HeadersAmong(ls: seq<string>): nat {
    if ls == [] then 0 else (if HasPrefix(ls[0], RunHeaderPrefix()) then 1 else 0) + HeadersAmong(ls[1..])
  }

  function HeaderLines(text: string): nat {
    HeadersAmong(Split(text))
  }

  function Needle(): string {
    [NL] + RunHeaderPrefix()
  }

  lemma NeedleAnchored()
    ensures Anchored(Needle()) && NL !in RunHeaderPrefix()
  {
    assert Needle()[1..] == RunHeaderPrefix();
  }

  lemma {:induction false} SkipLine(line: string, rest: string, p: string)
    requires OneLine(line) && OneLine(p) && (rest == "" || rest[0] == NL)
    ensures Matches(line + rest, [NL] + p) == Matches(rest, [NL] + p)
  {
    if line == "" {
      assert line + rest == rest;
    } else {
      assert (line + rest)[1..] == line[1..] + rest;
      SkipLine(line[1..], rest, p);
      assert ([NL] + p)[0] == NL && (line + rest)[0] == line[0];
      assert !([NL] + p <= line + rest);
      if |line + rest| < |[NL] + p| { ShortHasNone(rest, [NL] + p); }
    }
  }

  lemma HeadOfLine(line: string, rest: string, p: string)
    requires OneLine(line) && OneLine(p) && (rest == "" || rest[0] == NL)
    ensures p <= line + rest <==> p <= line
  {
    if rest != "" { assert (line + rest)[|line|] == NL; }
    if p <= line + rest && |p| > |line| { assert false; }
    if p <= line { assert (line + rest)[..|p|] == line[..|p|]; }
    if p <= line + rest { assert line[..|p|] == (line + rest)[..|p|]; }
  }

  // Where a text's first line ends.
  lemma {:induction false} FirstLine(text: string) returns (rest: string)
    ensures text == Split(text)[0] + rest && (rest == "" || rest[0] == NL)
    ensures rest == "" ==> Split(text) == [text]
    ensures rest != "" ==> Split(text)[1..] == Split(rest[1..])
  {
    if text == "" {
      rest := "";
    } else if text[0] == NL {
      rest := text;
    } else {
      rest := FirstLine(text[1..]);
      assert text == [text[0]] + text[1..];
    }
  }

  lemma {:induction false} MatchesAreLines(text: string)
    ensures Matches([NL] + text, Needle()) == HeaderLines(text)
    decreases |text|
  {
    NeedleAnchored();
    var p := RunHeaderPrefix();
    var line := Split(text)[0];
    var rest := FirstLine(text);
    var s := [NL] + text;
    assert s[1..] == text;
    SkipLine(line, rest, p);
    HeadOfLine(line, rest, p);
    assert Needle() <= s <==> p <= text by {
      if p <= text { assert s[..|p| + 1] == [NL] + text[..|p|]; }
      if Needle() <= s { assert text[..|p|] == s[..|p| + 1][1..]; }
    }
    if |s| < |Needle()| { ShortHasNone(text, Needle()); }
    assert HeaderLines(text) == (if p <= line then 1 else 0) + HeadersAmong(Split(text)[1..]);
    assert Matches(s, Needle()) == (if p <= line then 1 else 0) + Matches(rest, Needle());
    if rest == "" {
      assert Split(text)[1..] == [];
    } else {
      assert rest == [NL] + rest[1..];
      MatchesAreLines(rest[1..]);
    }
  }

  // ---- The scan ---------------------------------------------------------------------------------

  datatype ReadError = NoError | EOF | Failed

  /** An open file: any cut on any read, an error at any time, EOF only at the end. */
  class Reader {
    const content: string
    var pos: nat
    // How many more reads may come back empty.
    var patience: nat
    // Whether a read failed, kept by Read alone.
    ghost var failed: bool

    ghost predicate Valid()
      reads this`pos
    {
      pos <= |content|
    }

    // What was read so far, behind the newline the scan puts in front of it.
    ghost function Seen(): string
      requires Valid()
      reads this`pos
    {
      [NL] + content[..pos]
    }

    constructor (content: string, patience: nat)
      ensures Valid() && this.content == content && pos == 0 && !failed
    {
      this.content, this.pos, this.patience, this.failed := content, 0, patience, false;
    }

    method Fill(buf: array<char>, at: nat, n: nat)
      requires pos + n <= |content| && at + n <= buf.Length
      modifies buf
      ensures buf[..at] == old(buf[..at]) && buf[at..at + n] == content[pos..pos + n]
    {
      for k := 0 to n
        invariant buf[..at] == old(buf[..at]) && buf[at..at + k] == content[pos..pos + k]
      {
        buf[at + k] := content[pos + k];
        assert buf[at..at + k + 1] == buf[at..at + k] + [content[pos + k]];
      }
    }

    method Read(buf: array<char>, at: nat) returns (n: nat, err: ReadError)
      requires Valid() && at < buf.Length
      modifies this`pos, this`patience, this`failed, buf
      ensures failed <==> old(failed) || err == Failed
      ensures Valid() && n <= buf.Length - at && pos == old(pos) + n
      ensures buf[..at] == old(buf[..at]) && buf[at..at + n] == content[old(pos)..pos]
      ensures err == EOF ==> pos == |content|
      ensures err == NoError ==> n > 0 || patience < old(patience)
    {
      var want: int := *;
      var left := if |content| - pos < buf.Length - at then |content| - pos else buf.Length - at;
      n := if 0 <= want <= left then want else left;
      var kind: int := *;
      Fill(buf, at, n);
      pos := pos + n;
      if kind == 0 || (n == 0 && pos < |content| && patience == 0) {
        err, failed := Failed, true;
      } else if pos == |content| && (kind == 1 || (n == 0 && patience == 0)) {
        err := EOF;
      } else {
        err := NoError;
        if n == 0 { patience := patience - 1; }
      }
    }
  }

  method KeepCarry(buf: array<char>, filled: nat, needle: string) returns (carry: nat)
    requires needle != "" && filled <= buf.Length
    modifies buf
    ensures carry <= filled && carry < |needle| && buf[..carry] == Carried(old(buf[..filled]), needle)
  {
    carry := if |needle| - 1 < filled then |needle| - 1 else filled;
    var off := filled - carry;
    ghost var was := buf[..filled];
    for k := 0 to carry
      invariant forall j :: 0 <= j < k ==> buf[j] == was[off + j]
      invariant forall j :: off + k <= j < filled ==> buf[j] == was[j]
    {
      buf[k] := buf[off + k];
    }
    assert buf[..carry] == was[off..];
    CarriedIs(was, needle, carry);
  }

  lemma CarriedIs(s: string, needle: string, carry: nat)
    requires needle != "" && carry <= |s| && carry == (if |needle| - 1 < |s| then |needle| - 1 else |s|)
    ensures Carried(s, needle) == s[|s| - carry..]
  {
  }

  // One window: what the carry and the new chunk add to the count, and the next carry.
  method ScanWindow(buf: array<char>, filled: nat, needle: string, ghost seen: string, ghost chunk: string)
    returns (found: nat, carry: nat)
    requires Anchored(needle) && filled <= buf.Length && buf[..filled] == Carried(seen, needle) + chunk
    modifies buf
    ensures Matches(seen + chunk, needle) == Matches(seen, needle) + found
    ensures carry <= filled && carry < |needle| && buf[..carry] == Carried(seen + chunk, needle)
  {
    var window := buf[..filled];
    CountIsMatches(window, needle);
    MatchesInWindow(seen, chunk, needle);
    CarriedOn(seen, chunk, needle);
    found := CountOf(window, needle);
    carry := KeepCarry(buf, filled, needle);
  }

  lemma TextGrows(content: string, was: nat, pos: nat)
    requires was <= pos <= |content|
    ensures [NL] + content[..pos] == ([NL] + content[..was]) + content[was..pos]
  {
  }

  // A read behind what the buffer holds, as the chunk it adds to the text.
  method ReadBehind(r: Reader, buf: array<char>, at: nat, ghost held: string, ghost text: string)
    returns (n: nat, err: ReadError, ghost chunk: string)
    requires r.Valid() && at < buf.Length && held == buf[..at] && text == r.Seen()
    modifies r`pos, r`patience, r`failed, buf
    ensures r.failed <==> old(r.failed) || err == Failed
    ensures r.Valid() && at + n <= buf.Length && r.pos == old(r.pos) + n
    ensures n > 0 ==> r.Seen() == text + chunk && buf[..at + n] == held + chunk
    ensures n == 0 ==> r.Seen() == text && buf[..at] == held
    ensures err == EOF ==> r.pos == |r.content|
    ensures err == NoError ==> n > 0 || r.patience < old(r.patience)
  {
    ghost var was := r.pos;
    n, err := r.Read(buf, at);
    chunk := r.content[was..r.pos];
    TextGrows(r.content, was, r.pos);
    if n > 0 { assert buf[..at + n] == buf[..at] + buf[at..at + n]; }
  }

  // One read: what it adds to the count of what was read so far, and the next carry.
  method ReadWindow(r: Reader, buf: array<char>, at: nat, needle: string, ghost text: string)
    returns (found: nat, carry: nat, err: ReadError, ghost text': string)
    requires r.Valid() && !r.failed && Anchored(needle) && at < |needle| < buf.Length
    requires text == r.Seen() && buf[..at] == Carried(text, needle)
    modifies r`pos, r`patience, r`failed, buf
    ensures r.Valid() && (r.failed <==> err == Failed) && (err == EOF ==> r.pos == |r.content|)
    ensures text' == r.Seen() && Matches(text', needle) == Matches(text, needle) + found
    ensures carry < |needle| && buf[..carry] == Carried(text', needle)
    ensures r.pos >= old(r.pos)
    ensures err == NoError ==> r.pos > old(r.pos) || r.patience < old(r.patience)
  {
    var n;
    ghost var chunk;
    n, err, chunk := ReadBehind(r, buf, at, Carried(text, needle), text);
    if n == 0 { return 0, at, err, text; }
    found, carry := ScanWindow(buf, at + n, needle, text, chunk);
    text' := text + chunk;
  }

  /**
   * countRunHeaders: for every way the reader cuts the file, the number of its lines
   * that start with the run header - of the part that was read, exactly when a read failed.
   */
  method CountRunHeaders(r: Reader) returns (count: nat, ok: bool)
    requires r.Valid() && r.pos == 0 && !r.failed
    modifies r
    ensures r.Valid() && count == HeaderLines(r.content[..r.pos])
    ensures ok <==> !r.failed
    ensures ok ==> r.pos == |r.content| && count == HeaderLines(r.content)
  {
    NeedleAnchored();
    FirstWindow(r.content, Needle());
    count, ok := CountMatches(r, Needle());
    Counted(r, count);
  }

  // The same for any anchored needle.
  method CountMatches(r: Reader, needle: string) returns (count: nat, ok: bool)
    requires r.Valid() && r.pos == 0 && !r.failed && Anchored(needle) && |needle| >= 2
    requires Carried(r.Seen(), needle) == [NL] && Matches(r.Seen(), needle) == 0
    modifies r
    ensures r.Valid() && count == Matches(r.Seen(), needle)
    ensures ok <==> !r.failed
    ensures ok ==> r.pos == |r.content|
  {
    var buf := new char[CHUNK + |needle|](_ => ' ');
    buf[0] := NL;
    var carry: nat := 1;
    count := 0;
    assert buf[..1] == [NL];
    ghost var text := r.Seen();
    while true
      invariant r.Valid() && !r.failed && text == r.Seen() && buf.Length == CHUNK + |needle|
      invariant carry < |needle| && buf[..carry] == Carried(text, needle) && count == Matches(text, needle)
      decreases |r.content| - r.pos, r.patience
    {
      var found, err;
      found, carry, err, text := ReadWindow(r, buf, carry, needle, text);
      count := count + found;
      if err != NoError {
        return count, err == EOF;
      }
    }
  }

  lemma Counted(r: Reader, count: nat)
    requires r.Valid() && count == Matches(r.Seen(), Needle())
    ensures count == HeaderLines(r.content[..r.pos])
    ensures r.pos == |r.content| ==> count == HeaderLines(r.content)
  {
    MatchesAreLines(r.content[..r.pos]);
    if r.pos == |r.content| { assert r.content[..r.pos] == r.content; }
  }

  lemma FirstWindow(content: string, needle: string)
    requires needle == Needle()
    ensures |needle| >= 2 && Carried([NL] + content[..0], needle) == [NL] && Matches([NL] + content[..0], needle) == 0
  {
    assert [NL] + content[..0] == [NL];
  }

  // ---- The log ------------------------------------------------------------------------------

  function FooterPrefix(): string { "==== run ended " }

  lemma {:induction false} HeadersAppend(x: seq<string>, y: seq<string>)
    ensures HeadersAmong(x + y) == HeadersAmong(x) + HeadersAmong(y)
  {
    if x == [] {
      assert x + y == y;
    } else {
      assert (x + y)[1..] == x[1..] + y;
      HeadersAppend(x[1..], y);
    }
  }

  lemma NotHeaders()
    ensures HeadersAmong([""]) == 0
    ensures forall t :: !HasPrefix(FooterPrefix() + t, RunHeaderPrefix())
  {
    assert [""][1..] == [];
    assert RunHeaderPrefix()[9] == 's' && FooterPrefix()[9] == 'e';
    forall t ensures !HasPrefix(FooterPrefix() + t, RunHeaderPrefix()) {
      assert (FooterPrefix() + t)[9] == 'e';
    }
  }

  /**
   * One card's log file and the runs with a writer open on it, by correlation id. Each
   * append lands whole; the lines are what has been appended, split.
   */
  class CardLog {
    var log: string
    var open: set<string>
    ghost var lines: seq<string>
    // The headers appended, and the lines of the runs' own output that look like one.
    ghost var begun: nat
    ghost var lookalikes: nat

    ghost predicate Valid()
      reads this
    {
      AllLines(lines) && log == Terminated(lines) && HeadersAmong(lines) == begun + lookalikes
    }

    constructor ()
      ensures Valid() && begun == 0 && lookalikes == 0 && open == {} && log == ""
    {
      log, open, lines, begun, lookalikes := "", {}, [], 0, 0;
      new;
      assert [] + [""] == [""];
    }

    method Append(text: string)
      requires Valid()
      modifies this`log, this`lines
      ensures log == old(log) + text + "\n" && lines == old(lines) + Split(text)
      ensures AllLines(lines) && log == Terminated(lines)
      ensures HeadersAmong(lines) == HeadersAmong(old(lines)) + HeaderLines(text)
    {
      GatesRecord.TerminatedConcat(lines, text);
      HeadersAppend(lines, Split(text));
      lines := lines + Split(text);
      log := log + text + "\n";
    }

    // The log once the run's writer, if one is open, has written its footer.
    function Closed(run: string, footer: string): string
      reads this`log, this`open
    {
      if run in open then log + (FooterPrefix() + footer) + "\n" else log
    }

    method CloseCard(run: string, footer: string)
      requires Valid() && OneLine(footer)
      modifies this`log, this`lines, this`open
      ensures Valid() && open == old(open) - {run} && log == old(Closed(run, footer))
    {
      if run !in open { return; }
      NotHeaders();
      assert OneLine(FooterPrefix());
      SplitOfLine(FooterPrefix() + footer);
      assert [FooterPrefix() + footer][1..] == [];
      Append(FooterPrefix() + footer);
      open := open - {run};
    }

    // The file may refuse to open; nothing is then appended for the run.
    method Begin(run: string, stamp: string, footer: string) returns (ok: bool)
      requires Valid() && OneLine(stamp) && OneLine(footer)
      modifies this
      ensures Valid() && lookalikes == old(lookalikes)
      ensures begun == old(begun) + (if ok then 1 else 0)
      ensures open == if ok then old(open) + {run} else old(open) - {run}
      ensures log == old(Closed(run, footer)) + (if ok then (RunHeaderPrefix() + stamp) + "\n" else "")
    {
      CloseCard(run, footer);
      ok := *;
      if !ok { return; }
      var header := RunHeaderPrefix() + stamp;
      assert OneLine(RunHeaderPrefix());
      SplitOfLine(header);
      assert [header][1..] == [] && HeadersAmong([]) == 0 && HasPrefix(header, RunHeaderPrefix());
      Append(header);
      begun := begun + 1;
      open := open + {run};
    }

    method Write(run: string, line: string)
      requires Valid()
      modifies this`log, this`lines, this`lookalikes
      ensures Valid()
      ensures log == if run in open then old(log) + line + "\n" else old(log)
      ensures lookalikes == old(lookalikes) + (if run in open then HeaderLines(line) else 0)
    {
      if run !in open { return; }
      Append(line);
      lookalikes := lookalikes + HeaderLines(line);
    }

    method End(run: string, footer: string)
      requires Valid() && OneLine(footer)
      modifies this`log, this`lines, this`open
      ensures Valid() && open == old(open) - {run} && log == old(Closed(run, footer))
    {
      CloseCard(run, footer);
    }

    /**
     * NextAttempt: one more than the runs begun, whoever wrote and ended in between, when
     * the log opened, no read failed and no output line passes for a header; what was read
     * counts when a read failed, and a log that would not open is a first attempt.
     */
    method NextAttempt(file: Option<Reader>) returns (ordinal: nat)
      requires Valid()
      requires file.Some? ==> var r := file.value; r.Valid() && r.content == log && r.pos == 0 && !r.failed
      modifies if file.Some? then {file.value} else {}
      ensures file.None? ==> ordinal == 1
      ensures file.Some? ==> file.value.Valid() && ordinal == 1 + HeaderLines(log[..file.value.pos])
      ensures file.Some? && !file.value.failed ==> ordinal == 1 + begun + lookalikes
    {
      if file.None? { return 1; }
      var count, ok := CountRunHeaders(file.value);
      SplitOfJoin(lines + [""]);
      HeadersAppend(lines, [""]);
      NotHeaders();
      ordinal := count + 1;
    }
  }
}
