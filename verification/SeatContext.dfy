/**
 * trimSeatContext: a seat's conversation cut to a bound in place, reasoning first, then
 * the oldest tool outputs - never the positions, and never at the price of an output
 * that would have been kept had there been no reasoning to carry.
 */
module SeatContext {
  datatype Message = Message(role: string, content: string, reasoning: string)

  const MAX_BYTES: nat := 393216

  function Marker(): string {
    "[tool output dropped to bound seat context - re-read the file if needed]"
  }

  function Size(m: Message): nat {
    |m.content| + |m.reasoning|
  }

  function Total(ms: seq<Message>): nat {
    if ms == [] then 0 else Total(ms[..|ms| - 1]) + Size(ms[|ms| - 1])
  }

  lemma {:induction false} SetTotal(ms: seq<Message>, i: nat, m: Message)
    requires i < |ms|
    ensures Total(ms[i := m]) == Total(ms) - Size(ms[i]) + Size(m)
    decreases |ms|
  {
    var n := |ms| - 1;
    if i < n {
      SetTotal(ms[..n], i, m);
      assert ms[i := m][..n] == ms[..n][i := m];
    } else {
      assert ms[i := m][..n] == ms[..n];
    }
  }

  // ---- The two passes, each from the oldest message while the total is over the bound ----

  function Unreasoned(m: Message): Message {
    m.(reasoning := "")
  }

  predicate Blankable(m: Message, marker: string) {
    m.role == "tool" && |m.content| > |marker|
  }

  function Blanked(m: Message, marker: string): Message {
    if Blankable(m, marker) then m.(content := marker) else m
  }

  function Saved(m: Message, marker: string): int {
    if Blankable(m, marker) then |m.content| - |marker| else 0
  }

  function DropFrom(ms: seq<Message>, i: nat, total: int, max: nat): (r: seq<Message>)
    ensures |r| == |ms|
    decreases |ms| - i
  {
    if i >= |ms| || total <= max then ms
    else DropFrom(ms[i := Unreasoned(ms[i])], i + 1, total - |ms[i].reasoning|, max)
  }

  function BlankFrom(ms: seq<Message>, i: nat, total: int, max: nat, marker: string): (r: seq<Message>)
    ensures |r| == |ms|
    decreases |ms| - i
  {
    if i >= |ms| || total <= max then ms
    else BlankFrom(ms[i := Blanked(ms[i], marker)], i + 1, total - Saved(ms[i], marker), max, marker)
  }

  function Lean(ms: seq<Message>, max: nat): (r: seq<Message>)
    ensures |r| == |ms|
  {
    DropFrom(ms, 0, Total(ms), max)
  }

  function Trimmed(ms: seq<Message>, max: nat, marker: string): (r: seq<Message>)
    ensures |r| == |ms|
  {
    BlankFrom(Lean(ms, max), 0, Total(Lean(ms, max)), max, marker)
  }

  // ---- The methods ----------------------------------------------------------------------------

  // The slice of the array behind its leading system message.
  function Body(msgs: array<Message>, lo: nat): seq<Message>
    requires lo <= msgs.Length
    reads msgs
  {
    msgs[lo..]
  }

  lemma SetBody(all: seq<Message>, lo: nat, i: nat, m: Message)
    requires lo + i < |all|
    ensures all[lo + i := m][lo..] == all[lo..][i := m] && all[lo..][i] == all[lo + i]
  {
  }

  // One message of the slice replaced, the rest of the array as it was.
  method Replace(msgs: array<Message>, lo: nat, i: nat, m: Message)
    requires lo + i < msgs.Length
    modifies msgs
    ensures Body(msgs, lo) == old(Body(msgs, lo))[i := m] && msgs[..lo] == old(msgs[..lo])
  {
    SetBody(msgs[..], lo, i, m);
    msgs[lo + i] := m;
  }

  method DropReasoning(msgs: array<Message>, lo: nat, before: int, max: nat) returns (total: int)
    requires lo <= msgs.Length && before == Total(Body(msgs, lo))
    modifies msgs
    ensures Body(msgs, lo) == DropFrom(old(Body(msgs, lo)), 0, before, max) && total == Total(Body(msgs, lo))
    ensures msgs[..lo] == old(msgs[..lo])
  {
    total := before;
    var i: nat := 0;
    ghost var was := Body(msgs, lo);
    while total > max && lo + i < msgs.Length
      invariant lo + i <= msgs.Length && msgs[..lo] == old(msgs[..lo])
      invariant DropFrom(Body(msgs, lo), i, total, max) == DropFrom(was, 0, before, max)
      invariant total == Total(Body(msgs, lo))
      decreases msgs.Length - i
    {
      var m := msgs[lo + i];
      SetTotal(Body(msgs, lo), i, Unreasoned(m));
      total := total - |m.reasoning|;
      Replace(msgs, lo, i, m.(reasoning := ""));
      i := i + 1;
    }
  }

  lemma BlankStep(ms: seq<Message>, i: nat, total: int, max: nat, marker: string)
    requires i < |ms| && total > max
    ensures BlankFrom(ms, i, total, max, marker) ==
            BlankFrom(ms[i := Blanked(ms[i], marker)], i + 1, total - Saved(ms[i], marker), max, marker)
    ensures !Blankable(ms[i], marker) ==> ms[i := Blanked(ms[i], marker)] == ms
  {
  }

  method BlankTools(msgs: array<Message>, lo: nat, before: int, max: nat, marker: string) returns (total: int)
    requires lo <= msgs.Length && before == Total(Body(msgs, lo))
    modifies msgs
    ensures Body(msgs, lo) == BlankFrom(old(Body(msgs, lo)), 0, before, max, marker) && total == Total(Body(msgs, lo))
    ensures msgs[..lo] == old(msgs[..lo])
  {
    total := before;
    var i: nat := 0;
    ghost var was := Body(msgs, lo);
    while total > max && lo + i < msgs.Length
      invariant lo + i <= msgs.Length && msgs[..lo] == old(msgs[..lo])
      invariant BlankFrom(Body(msgs, lo), i, total, max, marker) == BlankFrom(was, 0, before, max, marker)
      invariant total == Total(Body(msgs, lo))
      decreases msgs.Length - i
    {
      var m := msgs[lo + i];
      SetTotal(Body(msgs, lo), i, Blanked(m, marker));
      BlankStep(Body(msgs, lo), i, total, max, marker);
      if m.role == "tool" && |m.content| > |marker| {
        total := total - (|m.content| - |marker|);
        Replace(msgs, lo, i, m.(content := marker));
      }
      i := i + 1;
    }
  }

  method SumSizes(msgs: array<Message>, lo: nat) returns (total: int)
    requires lo <= msgs.Length
    ensures total == Total(Body(msgs, lo))
  {
    total := 0;
    ghost var all := Body(msgs, lo);
    for i := lo to msgs.Length
      invariant total == Total(all[..i - lo])
    {
      assert all[..i + 1 - lo][..i - lo] == all[..i - lo];
      total := total + (|msgs[i].content| + |msgs[i].reasoning|);
    }
    assert all[..|all|] == all;
  }

  /** The whole trim: the slice from start is the trimmed conversation, a leading system message left in front of it. */
  method TrimSeatContext(msgs: array<Message>) returns (start: nat)
    modifies msgs
    ensures start == (if msgs.Length > 0 && old(msgs[..])[0].role == "system" then 1 else 0)
    ensures start <= msgs.Length && Body(msgs, start) == Trimmed(old(msgs[..])[start..], MAX_BYTES, Marker())
    ensures msgs[..start] == old(msgs[..])[..start]
  {
    start := if msgs.Length > 0 && msgs[0].role == "system" then 1 else 0;
    var total := SumSizes(msgs, start);
    total := DropReasoning(msgs, start, total, MAX_BYTES);
    total := BlankTools(msgs, start, total, MAX_BYTES, Marker());
  }

  // ---- What the trim ends with -----------------------------------------------------------------

  // The first i messages carry no reasoning; or hold no blankable tool output.
  predicate NoReasoning(ms: seq<Message>, i: nat)
    requires i <= |ms|
  {
    forall k :: 0 <= k < i ==> ms[k].reasoning == ""
  }

  predicate ToolsBlank(ms: seq<Message>, i: nat, marker: string)
    requires i <= |ms|
  {
    forall k :: 0 <= k < i ==> !Blankable(ms[k], marker)
  }

  predicate LeanedAt(was: Message, now: Message) {
    now == was || now == Unreasoned(was)
  }

  predicate BlankedAt(was: Message, now: Message, marker: string) {
    now == was || (Blankable(was, marker) && now == was.(content := marker))
  }

  lemma {:induction false} DropEnds(ms: seq<Message>, i: nat, max: nat)
    requires i <= |ms| && NoReasoning(ms, i)
    ensures var r := DropFrom(ms, i, Total(ms), max);
            && (Total(r) <= max || NoReasoning(r, |r|))
            && forall k :: 0 <= k < |ms| ==> LeanedAt(ms[k], r[k])
    decreases |ms| - i
  {
    if i < |ms| && Total(ms) > max {
      SetTotal(ms, i, Unreasoned(ms[i]));
      DropEnds(ms[i := Unreasoned(ms[i])], i + 1, max);
    }
  }

  lemma {:induction false} BlankEnds(ms: seq<Message>, i: nat, max: nat, marker: string)
    requires i <= |ms| && ToolsBlank(ms, i, marker)
    ensures var r := BlankFrom(ms, i, Total(ms), max, marker);
            && (Total(r) <= max || ToolsBlank(r, |r|, marker))
            && forall k :: 0 <= k < |ms| ==> BlankedAt(ms[k], r[k], marker)
    decreases |ms| - i
  {
    if i < |ms| && Total(ms) > max {
      SetTotal(ms, i, Blanked(ms[i], marker));
      BlankEnds(ms[i := Blanked(ms[i], marker)], i + 1, max, marker);
    }
  }

  /**
   * It ends within the bound, or with no reasoning left and every tool output as short
   * as the marker; a position or prompt is never changed, and an output is dropped only
   * where no reasoning was kept.
   */
  lemma TrimEnds(ms: seq<Message>, max: nat, marker: string)
    ensures var r := Trimmed(ms, max, marker);
            && (Total(r) <= max || (NoReasoning(r, |r|) && ToolsBlank(r, |r|, marker)))
            && (forall i :: 0 <= i < |ms| && ms[i].role != "tool" ==> r[i].content == ms[i].content)
            && forall i :: 0 <= i < |ms| && r[i].content != ms[i].content ==> NoReasoning(r, |r|)
  {
    var lean, r := Lean(ms, max), Trimmed(ms, max, marker);
    DropEnds(ms, 0, max);
    BlankEnds(lean, 0, max, marker);
    assert forall i :: 0 <= i < |ms| ==> LeanedAt(ms[i], lean[i]) && BlankedAt(lean[i], r[i], marker);
    if Total(lean) <= max {
      assert r == lean;
    } else {
      assert NoReasoning(r, |r|);
    }
  }

  // The first k messages as they ended, the rest as they were.
  function Half(r: seq<Message>, was: seq<Message>, k: nat): seq<Message>
    requires k <= |r| && k <= |was|
  {
    r[..k] + was[k..]
  }

  lemma {:induction false} DropNoMore(ms: seq<Message>, i: nat, max: nat, k: nat)
    requires i <= |ms| && k < |ms| && NoReasoning(ms, i)
    ensures var r := DropFrom(ms, i, Total(ms), max);
            && r[..i] == ms[..i]
            && (r[k] != ms[k] ==> NoReasoning(r, k) && Total(Half(r, ms, k)) > max)
    decreases |ms| - i
  {
    if i < |ms| && Total(ms) > max {
      var next := ms[i := Unreasoned(ms[i])];
      SetTotal(ms, i, next[i]);
      DropNoMore(next, i + 1, max, k);
      var r := DropFrom(ms, i, Total(ms), max);
      assert forall j :: 0 <= j <= i ==> r[j] == r[..i + 1][j] == next[j];
      if k <= i {
        assert Half(r, ms, k) == ms;
      } else {
        assert Half(r, next, k) == Half(r, ms, k);
      }
    }
  }

  lemma {:induction false} BlankNoMore(ms: seq<Message>, i: nat, max: nat, marker: string, k: nat)
    requires i <= |ms| && k < |ms| && ToolsBlank(ms, i, marker)
    ensures var r := BlankFrom(ms, i, Total(ms), max, marker);
            && r[..i] == ms[..i]
            && (r[k] != ms[k] ==> ToolsBlank(r, k, marker) && Total(Half(r, ms, k)) > max)
    decreases |ms| - i
  {
    if i < |ms| && Total(ms) > max {
      var next := ms[i := Blanked(ms[i], marker)];
      SetTotal(ms, i, next[i]);
      BlankNoMore(next, i + 1, max, marker, k);
      var r := BlankFrom(ms, i, Total(ms), max, marker);
      assert forall j :: 0 <= j <= i ==> r[j] == r[..i + 1][j] == next[j];
      if k <= i {
        assert Half(r, ms, k) == ms;
      } else {
        assert Half(r, next, k) == Half(r, ms, k);
      }
    }
  }

  /**
   * Nothing more is cut than the bound asks for, and the oldest first: a message is cut
   * only when, with all before it cut already and it and the rest as they were, the total
   * is still over. A conversation within the bound is left as it is.
   */
  lemma TrimNoMore(ms: seq<Message>, max: nat, marker: string, k: nat)
    requires k < |ms|
    ensures var lean, r := Lean(ms, max), Trimmed(ms, max, marker);
            && (lean[k] != ms[k] ==> NoReasoning(lean, k) && Total(Half(lean, ms, k)) > max)
            && (r[k] != lean[k] ==> ToolsBlank(r, k, marker) && Total(Half(r, lean, k)) > max)
            && (Total(ms) <= max ==> r == ms)
  {
    DropNoMore(ms, 0, max, k);
    BlankNoMore(Lean(ms, max), 0, max, marker, k);
  }

  // ---- The two-run law --------------------------------------------------------------------------

  function WithoutReasoning(ms: seq<Message>): (r: seq<Message>)
    ensures |r| == |ms| && forall i :: 0 <= i < |ms| ==> r[i] == Unreasoned(ms[i])
  {
    seq(|ms|, i requires 0 <= i < |ms| => Unreasoned(ms[i]))
  }

  function Contents(ms: seq<Message>): (r: seq<string>)
    ensures |r| == |ms| && forall i :: 0 <= i < |ms| ==> r[i] == ms[i].content
  {
    seq(|ms|, i requires 0 <= i < |ms| => ms[i].content)
  }

  lemma {:induction false} DropNothing(ms: seq<Message>, i: nat, total: int, max: nat)
    requires i <= |ms| && NoReasoning(ms, |ms|)
    ensures DropFrom(ms, i, total, max) == ms
    decreases |ms| - i
  {
    if i < |ms| && total > max {
      assert ms[i := Unreasoned(ms[i])] == ms;
      DropNothing(ms, i + 1, total, max);
    }
  }

  lemma {:induction false} LeanNoLarger(ms: seq<Message>)
    ensures Total(WithoutReasoning(ms)) <= Total(ms)
  {
    if ms != [] {
      var n := |ms| - 1;
      LeanNoLarger(ms[..n]);
      assert WithoutReasoning(ms)[..n] == WithoutReasoning(ms[..n]);
    }
  }

  /** The content kept with reasoning to carry is the content kept without any. */
  lemma ReplayCostsNoOutput(ms: seq<Message>, max: nat, marker: string)
    ensures Contents(Trimmed(ms, max, marker)) == Contents(Trimmed(WithoutReasoning(ms), max, marker))
  {
    var bare, lean := WithoutReasoning(ms), Lean(ms, max);
    DropEnds(ms, 0, max);
    DropNothing(bare, 0, Total(bare), max);
    assert WithoutReasoning(lean) == bare;
    if Total(lean) <= max {
      LeanNoLarger(lean);
      assert Trimmed(ms, max, marker) == lean && Trimmed(bare, max, marker) == bare;
    } else {
      assert lean == bare;
    }
  }
}
