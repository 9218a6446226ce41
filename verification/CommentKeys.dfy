/**
 * The dedupe key of a review comment and the card line it is recorded on: when the
 * line read back yields the key that was written.
 */
module CommentKeys {
  import opened Wrappers
  import opened Text
  import opened Sections
  import opened SectionLaws
  import opened History

  datatype Comment = Comment(path: string, body: string)
  datatype Entry = Entry(valid: bool, path: string, digest: string)
  const KEY_BODY_CHARS: nat := 80

  // ---- One line out of any text -----------------------------------------------------

  // The leading run of non-space characters.
  function Word(s: string): (w: string)
    ensures |w| <= |s| && w == s[..|w|] && (forall i :: 0 <= i < |w| ==> !IsSpace(w[i]))
    ensures |w| < |s| ==> IsSpace(s[|w|])
  {
    if s == "" || IsSpace(s[0]) then "" else [s[0]] + Word(s[1..])
  }

  function Spaced(w: string, rest: string): string {
    if rest == "" then w else w + [' '] + rest
  }

  // strings.Join(strings.Fields(s), " ").
  function Flatten(s: string): string
    decreases |s|
  {
    var t := TrimLeftSpace(s);
    TrimLeftShorter(s);
    if t == "" then "" else
      var w := Word(t);
      Spaced(w, Flatten(t[|w|..]))
  }

  lemma {:induction false} TrimLeftShorter(s: string)
    ensures var t := TrimLeftSpace(s); |t| <= |s| && (t == "" || (!IsSpace(t[0]) && Word(t) != ""))
  {
    if s != "" && IsSpace(s[0]) { TrimLeftShorter(s[1..]); }
  }

  // Words and single spaces: nothing Flatten would change.
  predicate Flat(s: string)
    decreases |s|
  {
    var w := Word(s);
    s == "" || (w != "" && (w == s || (s[|w|] == ' ' && |w| + 1 < |s| && Flat(s[|w| + 1..]))))
  }

  lemma {:induction false} WordOf(w: string, rest: string)
    requires forall i :: 0 <= i < |w| ==> !IsSpace(w[i])
    requires rest == "" || IsSpace(rest[0])
    ensures Word(w + rest) == w
  {
    if w == "" {
      assert w + rest == rest;
    } else {
      assert (w + rest)[1..] == w[1..] + rest;
      WordOf(w[1..], rest);
      assert [w[0]] + w[1..] == w;
    }
  }

  lemma {:induction false} FlattenIsFlat(s: string)
    ensures Flat(Flatten(s))
    decreases |s|
  {
    var t := TrimLeftSpace(s);
    TrimLeftShorter(s);
    if t != "" {
      var w := Word(t);
      FlattenIsFlat(t[|w|..]);
      SpacedIsFlat(w, Flatten(t[|w|..]));
    }
  }

  // The words of a text: its runs of non-space characters.
  function Words(s: string): seq<string>
    decreases |s|
  {
    var t := TrimLeftSpace(s);
    TrimLeftShorter(s);
    if t == "" then [] else [Word(t)] + Words(t[|Word(t)|..])
  }

  /** Flattening keeps every word, and adds none. */
  lemma {:induction false} FlattenKeepsWords(s: string)
    ensures Words(Flatten(s)) == Words(s)
    decreases |s|
  {
    var t := TrimLeftSpace(s);
    TrimLeftShorter(s);
    if t != "" {
      var w := Word(t);
      FlattenKeepsWords(t[|w|..]);
      WordsOfSpaced(w, Flatten(t[|w|..]));
    }
  }

  lemma WordsOfSpaced(w: string, rest: string)
    requires w != "" && forall i :: 0 <= i < |w| ==> !IsSpace(w[i])
    ensures Words(Spaced(w, rest)) == [w] + Words(rest)
  {
    var tail := if rest == "" then "" else [' '] + rest;
    var f := Spaced(w, rest);
    assert f == w + tail;
    assert f[0] == w[0] && TrimLeftSpace(f) == f;
    WordOf(w, tail);
    assert f[|w|..] == tail;
    WordsBehindSpace(rest);
  }

  lemma WordsBehindSpace(rest: string)
    ensures Words([' '] + rest) == Words(rest)
  {
    assert ([' '] + rest)[1..] == rest;
    assert TrimLeftSpace([' '] + rest) == TrimLeftSpace(rest);
  }

  lemma SpacedIsFlat(w: string, rest: string)
    requires w != "" && Flat(rest) && forall i :: 0 <= i < |w| ==> !IsSpace(w[i])
    ensures Flat(Spaced(w, rest))
  {
    if rest == "" {
      WordOf(w, "");
      assert w + "" == w;
    } else {
      WordOf(w, [' '] + rest);
      var r := w + [' '] + rest;
      assert r == w + ([' '] + rest);
      assert r[|w| + 1..] == rest;
    }
  }

  lemma {:induction false} FlatStays(s: string)
    requires Flat(s)
    ensures Flatten(s) == s
    decreases |s|
  {
    if s != "" {
      var w := Word(s);
      assert s[0] == w[0] && TrimLeftSpace(s) == s;
      if w == s {
        assert s[|w|..] == "" && Flatten("") == "";
      } else {
        var rest := s[|w| + 1..];
        FlatStays(rest);
        var tail := s[|w|..];
        assert tail[0] == ' ' && tail[1..] == rest;
        assert TrimLeftSpace(tail) == TrimLeftSpace(rest);
        assert Word(rest) != "" && rest[0] == Word(rest)[0];
        assert Flatten(tail) == Flatten(rest);
        assert s == w + [' '] + rest;
      }
    }
  }

  lemma {:induction false} FlatChars(s: string)
    requires Flat(s)
    ensures forall i :: 0 <= i < |s| ==> s[i] == ' ' || !IsSpace(s[i])
    ensures OneLine(s)
    decreases |s|
  {
    var w := Word(s);
    if s != "" && w != s {
      FlatChars(s[|w| + 1..]);
      forall i | 0 <= i < |s| ensures s[i] == ' ' || !IsSpace(s[i]) {
        if i < |w| { assert s[i] == w[i]; } else if i > |w| { assert s[i] == s[|w| + 1..][i - |w| - 1]; }
      }
    }
    forall i | 0 <= i < |s| ensures s[i] != NL { assert s[i] == ' ' || !IsSpace(s[i]); }
  }

  /** A prefix of a flat text is flattened back to itself exactly when it does not end in a space. */
  lemma FlatPrefix(s: string, n: nat)
    requires Flat(s) && n <= |s|
    ensures Flat(s[..n]) <==> n == 0 || s[n - 1] != ' '
    ensures Flatten(s[..n]) == s[..n] <==> n == 0 || s[n - 1] != ' '
  {
    PrefixFlat(s, n);
    FlatIffStays(s[..n]);
  }

  lemma FlatIffStays(p: string)
    ensures Flatten(p) == p <==> Flat(p)
  {
    if Flat(p) { FlatStays(p); } else { FlattenIsFlat(p); }
  }

  lemma {:induction false} PrefixFlat(s: string, n: nat)
    requires Flat(s) && n <= |s|
    ensures Flat(s[..n]) <==> n == 0 || s[n - 1] != ' '
    decreases |s|
  {
    var w := Word(s);
    if 0 < n <= |w| {
      FlatInWord(s, n);
    } else if n > |w| {
      FlatRest(s);
      FlatBehindWord(s, n);
      if n > |w| + 1 {
        PrefixFlat(s[|w| + 1..], n - |w| - 1);
        assert s[|w| + 1..][n - |w| - 2] == s[n - 1];
      }
    }
  }

  lemma FlatInWord(s: string, n: nat)
    requires Flat(s) && 0 < n <= |Word(s)|
    ensures Flat(s[..n]) && s[n - 1] != ' '
  {
    var p, w := s[..n], Word(s);
    assert p == w[..n];
    WordOf(p, "");
    assert p + "" == p;
    assert s[n - 1] == w[n - 1];
  }

  // A prefix that goes on behind the first word is flat when what it has of the rest is,
  // and it has some.
  lemma FlatBehindWord(s: string, n: nat)
    requires Flat(s) && |Word(s)| < n <= |s|
    ensures var w := |Word(s)|; s[w] == ' ' && Flat(s[w + 1..]) && (Flat(s[..n]) <==> n > w + 1 && Flat(s[w + 1..][..n - w - 1]))
  {
    var w := Word(s);
    FlatRest(s);
    TakeBehind(s, |w|, n);
    FlatSpaced(w, s[|w|], s[|w| + 1..][..n - |w| - 1]);
  }

  lemma FlatRest(s: string)
    requires Flat(s) && |Word(s)| < |s|
    ensures var w := |Word(s)|; w > 0 && s[w] == ' ' && Flat(s[w + 1..])
  {
  }

  lemma TakeBehind(s: string, k: nat, n: nat)
    requires k < n <= |s|
    ensures s[..n] == s[..k] + ([s[k]] + s[k + 1..][..n - k - 1])
  {
  }

  lemma FlatSpaced(w: string, c: char, rest: string)
    requires w != "" && IsSpace(c) && forall i :: 0 <= i < |w| ==> !IsSpace(w[i])
    ensures Flat(w + ([c] + rest)) <==> c == ' ' && rest != "" && Flat(rest)
  {
    var p := w + ([c] + rest);
    WordOf(w, [c] + rest);
    assert p[|w|] == c && p[|w| + 1..] == rest;
  }

  // ---- The key ------------------------------------------------------------------------

  // truncateRunes.
  function Truncate(s: string, n: nat): string {
    if |s| <= n then s else s[..n]
  }

  function Digest(body: string): (d: string)
    ensures |d| <= KEY_BODY_CHARS && d <= Flatten(body)
    ensures |d| < KEY_BODY_CHARS ==> d == Flatten(body)
  {
    Truncate(Flatten(body), KEY_BODY_CHARS)
  }

  function Key(path: string, body: string): string {
    Flatten(path) + ['\0'] + Digest(body)
  }

  // What the digest of a comment keeps when the digest itself is read as a comment.
  lemma DigestTwice(body: string)
    ensures Digest(Digest(body)) == Digest(body) <==> Digest(body) == "" || Digest(body)[|Digest(body)| - 1] != ' '
  {
    var f, d := Flatten(body), Digest(body);
    FlattenIsFlat(body);
    FlatPrefix(f, |d|);
    assert d == f[..|d|];
    if Flatten(d) != d && Digest(d) == d {
      FlattenIsFlat(d);
      FlatPrefix(Flatten(d), |d|);
      assert Flatten(d)[..|d|] == d;
      assert !Flat(d);
      assert |Flatten(d)| > |d|;
      FlattenShorter(d);
    }
  }

  lemma {:induction false} FlattenShorter(s: string)
    ensures |Flatten(s)| <= |s|
    decreases |s|
  {
    var t := TrimLeftSpace(s);
    TrimLeftShorter(s);
    if t != "" {
      var w := Word(t);
      FlattenShorter(t[|w|..]);
      if |w| < |t| { TailShorter(t, w); }
    }
  }

  // The space in front of the next word pays for the one Flatten writes.
  lemma TailShorter(t: string, w: string)
    requires w == Word(t) && w != "" && |w| < |t|
    ensures |Flatten(t[|w|..])| < |t[|w|..]|
    decreases |t|, 0
  {
    var tail := t[|w|..];
    assert IsSpace(tail[0]);
    assert TrimLeftSpace(tail) == TrimLeftSpace(tail[1..]);
    assert Flatten(tail) == Flatten(tail[1..]);
    FlattenShorter(tail[1..]);
  }

  // ---- The recorded line ------------------------------------------------------------------

  function Verdict(valid: bool): string {
    if valid then "VALID " else "INVALID "
  }

  function CommentLine(c: Comment, valid: bool): string {
    "- " + (Verdict(valid) + (Flatten(c.path) + (": " + Digest(c.body))))
  }

  // The first ": " that leaves at least one character before it.
  function Colon(s: string, from: nat): (i: nat)
    requires from <= |s|
    ensures from <= i <= |s|
    ensures i < |s| ==> i + 1 < |s| && s[i] == ':' && s[i + 1] == ' '
    ensures forall k :: from <= k < i && k + 1 < |s| ==> !(s[k] == ':' && s[k + 1] == ' ')
    decreases |s| - from
  {
    if from + 1 >= |s| then |s|
    else if s[from] == ':' && s[from + 1] == ' ' then from
    else Colon(s, from + 1)
  }

  function SplitLine(s: string, valid: bool): Option<Entry> {
    if s == "" then None
    else
      var i := Colon(s, 1);
      if i == |s| then None else Some(Entry(valid, s[..i], s[i + 2..]))
  }

  // The line against ^- (?:(VALID|INVALID) )?(.+?): (.*)$.
  function Parse(line: string): Option<Entry> {
    if !HasPrefix(line, "- ") then None
    else
      var s := line[2..];
      var plain := SplitLine(s, true);
      if HasPrefix(s, Verdict(true)) then
        var e := SplitLine(s[|Verdict(true)|..], true); if e.Some? then e else plain
      else if HasPrefix(s, Verdict(false)) then
        var e := SplitLine(s[|Verdict(false)|..], false); if e.Some? then e else plain
      else plain
  }

  // A path the line can be split at again.
  predicate Splittable(path: string) {
    Flatten(path) != "" && Colon(Flatten(path), 1) == |Flatten(path)|
  }

  lemma ColonAfter(p: string, d: string)
    requires p != ""
    ensures Colon(p, 1) == |p| ==> Colon(p + (": " + d), 1) == |p|
    ensures Colon(p, 1) < |p| ==> Colon(p + (": " + d), 1) == Colon(p, 1)
  {
    var s := p + (": " + d);
    assert s[|p|] == ':' && s[|p| + 1] == ' ';
    var i, j := Colon(s, 1), Colon(p, 1);
    if i < |p| {
      assert i + 1 < |p|;
      assert p[i] == ':' && p[i + 1] == ' ';
      assert j <= i;
    } else {
      assert i == |p|;
    }
    if j < |p| { assert s[j] == ':' && s[j + 1] == ' '; assert i <= j; }
  }

  lemma VerdictsDiffer(valid: bool, tail: string)
    ensures HasPrefix(Verdict(valid) + tail, Verdict(true)) <==> valid
    ensures (Verdict(valid) + tail)[|Verdict(valid)|..] == tail
  {
    if !valid { assert (Verdict(false) + tail)[0] == 'I' && Verdict(true)[0] == 'V'; }
  }

  lemma SplitParts(p: string, d: string)
    ensures var tail := p + (": " + d); tail[..|p|] == p && tail[|p| + 2..] == d && |tail| == |p| + 2 + |d|
    ensures forall i :: 0 <= i <= |p| ==> (p + (": " + d))[..i] == p[..i]
  {
  }

  lemma TailParses(p: string, d: string, valid: bool)
    requires p != ""
    ensures var e := SplitLine(p + (": " + d), valid);
            && e.Some? && e.value.valid == valid
            && (Colon(p, 1) == |p| ==> e.value.path == p && e.value.digest == d)
            && (Colon(p, 1) < |p| ==> e.value.path == p[..Colon(p, 1)])
  {
    ColonAfter(p, d);
    SplitParts(p, d);
    var tail := p + (": " + d);
    assert tail != "";
  }

  lemma VerdictParses(tail: string, valid: bool)
    requires SplitLine(tail, valid).Some?
    ensures Parse("- " + (Verdict(valid) + tail)) == SplitLine(tail, valid)
  {
    VerdictsDiffer(valid, tail);
    DashParses(Verdict(valid) + tail);
  }

  lemma DashParses(s: string)
    ensures HasPrefix("- " + s, "- ") && ("- " + s)[2..] == s
  {
  }

  /** The line parses back to the verdict, the path up to its first ": ", and the rest. */
  lemma LineParses(c: Comment, valid: bool)
    requires Flatten(c.path) != ""
    ensures var e := Parse(CommentLine(c, valid));
            && e.Some? && e.value.valid == valid
            && (Splittable(c.path) ==> e.value.path == Flatten(c.path) && e.value.digest == Digest(c.body))
            && (!Splittable(c.path) ==> e.value.path == Flatten(c.path)[..Colon(Flatten(c.path), 1)])
  {
    TailParses(Flatten(c.path), Digest(c.body), valid);
    VerdictParses(Flatten(c.path) + (": " + Digest(c.body)), valid);
  }

  predicate Recoverable(c: Comment) {
    Splittable(c.path) && (Digest(c.body) == "" || Digest(c.body)[|Digest(c.body)| - 1] != ' ')
  }

  /** The key survives the card: read back from its line it is the key that was recorded. */
  lemma KeyReadsBack(c: Comment, valid: bool)
    requires Recoverable(c)
    ensures var e := Parse(CommentLine(c, valid));
            e.Some? && e.value.valid == valid && Key(e.value.path, e.value.digest) == Key(c.path, c.body)
  {
    LineParses(c, valid);
    FlattenIsFlat(c.path);
    FlatStays(Flatten(c.path));
    DigestTwice(c.body);
  }

  // How many characters are no space.
  function Solid(s: string): nat {
    if s == "" then 0 else (if IsSpace(s[0]) then 0 else 1) + Solid(s[1..])
  }

  lemma {:induction false} SolidAppend(x: string, y: string)
    ensures Solid(x + y) == Solid(x) + Solid(y)
  {
    if x == "" {
      assert x + y == y;
    } else {
      assert (x + y)[1..] == x[1..] + y;
      SolidAppend(x[1..], y);
    }
  }

  lemma {:induction false} SolidTrimmed(s: string)
    ensures Solid(TrimLeftSpace(s)) == Solid(s)
  {
    if s != "" && IsSpace(s[0]) { SolidTrimmed(s[1..]); }
  }

  // Flattening only moves spaces.
  lemma {:induction false} SolidFlatten(s: string)
    ensures Solid(Flatten(s)) == Solid(s)
    decreases |s|
  {
    var t := TrimLeftSpace(s);
    TrimLeftShorter(s);
    SolidTrimmed(s);
    if t != "" {
      var w := Word(t);
      var rest := Flatten(t[|w|..]);
      SolidFlatten(t[|w|..]);
      assert t == w + t[|w|..];
      SolidAppend(w, t[|w|..]);
      SolidAppend(w + [' '], rest);
      SolidAppend(w, [' ']);
    }
  }

  lemma FlattenHead(s: string)
    requires s != "" && !IsSpace(s[0])
    ensures Flatten(s) != "" && Flatten(s)[0] == s[0]
  {
    assert TrimLeftSpace(s) == s && Word(s)[0] == s[0];
  }

  // No flattened front of a path is the key's path, with the separator behind it.
  lemma FrontIsNoKey(p: string, i: nat, d: string, d': string)
    requires i < |p| && !IsSpace('\0') && p[i] != '\0'
    ensures Flatten(p[..i]) + ['\0'] + d != p + ['\0'] + d'
  {
    var q := Flatten(p[..i]);
    FlattenShorter(p[..i]);
    SolidFlatten(p[..i]);
    if q + ['\0'] + d == p + ['\0'] + d' {
      assert (p + ['\0'] + d')[|q|] == (q + ['\0'] + d)[|q|] == '\0' == p[|q|];
      assert (p + ['\0'] + d')[..|q|] == p[..|q|] && (q + ['\0'] + d)[..|q|] == q;
      assert p[..i] == q + (['\0'] + p[|q| + 1..i]);
      SolidAppend(q, ['\0'] + p[|q| + 1..i]);
      assert false;
    }
  }

  lemma SplitHead(s: string, valid: bool, k: nat)
    requires 1 <= k && k + 1 < |s| && s[k] == ':' && s[k + 1] == ' '
    ensures var e := SplitLine(s, valid); e.Some? && e.value.path != "" && e.value.path[0] == s[0]
  {
    var i := Colon(s, 1);
    assert i <= k;
  }

  lemma FallsBack(tail: string, valid: bool)
    requires SplitLine(tail, valid).None?
    ensures Parse("- " + (Verdict(valid) + tail)) == SplitLine(Verdict(valid) + tail, true)
  {
    VerdictsDiffer(valid, tail);
    DashParses(Verdict(valid) + tail);
  }

  // A line without a path parses to something in front of a later ": ", or to the verdict.
  lemma NoPathParses(tail: string, valid: bool)
    requires |tail| >= 2 && tail[0] == ':' && tail[1] == ' '
    ensures var e := Parse("- " + (Verdict(valid) + tail));
            e.Some? && e.value.path != "" && e.value.path[0] in {':', 'V', 'I'}
  {
    var v := Verdict(valid);
    if SplitLine(tail, valid).Some? {
      VerdictParses(tail, valid);
      SplitHead(tail, valid, Colon(tail, 1));
    } else {
      FallsBack(tail, valid);
      assert (v + tail)[|v|] == ':' && (v + tail)[|v| + 1] == ' ' && (v + tail)[0] == v[0];
      SplitHead(v + tail, true, |v|);
    }
  }

  /** And in every other case it is lost: another key is read back. */
  lemma KeyLost(c: Comment, valid: bool)
    requires !Recoverable(c)
    ensures var e := Parse(CommentLine(c, valid));
            e.Some? && Key(e.value.path, e.value.digest) != Key(c.path, c.body)
  {
    var p := Flatten(c.path);
    if p == "" {
      assert p + (": " + Digest(c.body)) == ": " + Digest(c.body);
      NoPathParses(": " + Digest(c.body), valid);
      var e := Parse(CommentLine(c, valid)).value;
      FlattenHead(e.path);
      assert Key(e.path, e.digest)[0] == e.path[0] && Key(c.path, c.body)[0] == '\0';
    } else {
      LineParses(c, valid);
      var e := Parse(CommentLine(c, valid)).value;
      if Splittable(c.path) {
        FlattenIsFlat(c.path);
        FlatStays(p);
        DigestTwice(c.body);
        SamePathOtherDigest(p, Digest(e.digest), Digest(c.body));
      } else {
        FrontIsNoKey(p, Colon(p, 1), Digest(e.digest), Digest(c.body));
      }
    }
  }

  lemma SamePathOtherDigest(p: string, d: string, d': string)
    requires d != d'
    ensures p + ['\0'] + d != p + ['\0'] + d'
  {
    assert (p + ['\0'] + d)[|p| + 1..] == d && (p + ['\0'] + d')[|p| + 1..] == d';
  }
}
