/**
 * One mob discussion: what each seat's current task has been told, how the transcript
 * and the cost grow, and what a nil-error outcome stands for. Seats answer, fail, time
 * out and lose their tasks as they like.
 */
module Mob {
  import opened Text
  import GatesRecord
  import opened Seqs

  datatype Entry = Entry(author: string, lens: string, round: nat, content: string)
  datatype Seat = Seat(name: string, lens: string, dead: bool, taskID: string, lastCost: real, lastSeen: nat)

  // What a turn comes back with.
  datatype Answer = Timeout | SendError | NotATask | TaskEnded | NoUtterance | Said(id: string, cost: real, text: string)
  datatype Verdict = Consensus | ProductiveDisagreement | Stalled | Unclassified
  datatype Outcome =
    | Finished(consensus: bool, transcript: seq<Entry>, cost: real)
    | NoQuorum(transcript: seq<Entry>, cost: real)
    | SynthesisFailed(transcript: seq<Entry>, cost: real)

  // What a discussion did, step by step.
  datatype Event =
    | Drained(round: nat, messages: seq<string>)
    | Dispatched(round: nat, blind: bool)
    | Ruled(verdict: Verdict, failed: bool, cost: real)
  {
    // A classification that ends the rounds; a failed one never does.
    predicate Ends() {
      Ruled? && !failed && (verdict == Consensus || verdict == Stalled)
    }
  }

  const QUORUM_MIN: nat := 2

  // ---- Deltas -------------------------------------------------------------------------

  // The entries by anyone but the author, in order.
  function Others(es: seq<Entry>, author: string): seq<Entry> {
    if es == [] then []
    else Others(es[..|es| - 1], author) + (if es[|es| - 1].author == author then [] else [es[|es| - 1]])
  }

  lemma {:induction false} OthersAppend(x: seq<Entry>, y: seq<Entry>, author: string)
    ensures Others(x + y, author) == Others(x, author) + Others(y, author)
  {
    if y == [] {
      assert x + y == x;
    } else {
      assert (x + y)[..|x + y| - 1] == x + y[..|y| - 1];
      OthersAppend(x, y[..|y| - 1], author);
    }
  }

  function NotBy(author: string): Entry -> bool {
    (e: Entry) => e.author != author
  }

  lemma OthersLast(es: seq<Entry>, author: string)
    requires es != []
    ensures var n := |es| - 1;
            Others(es, author) == if NotBy(author)(es[n]) then Others(es[..n], author) + [es[n]] else Others(es[..n], author)
  {
  }

  /** Each entry by anyone but the author, once and in order, and none of the author's own. */
  lemma {:induction false} OthersSift(es: seq<Entry>, author: string) returns (at: seq<nat>)
    ensures Sifts(es, Others(es, author), at, NotBy(author))
  {
    if es == [] {
      at := [];
    } else {
      var front := OthersSift(es[..|es| - 1], author);
      OthersLast(es, author);
      at := SiftsLast(es, Others(es[..|es| - 1], author), front, NotBy(author));
    }
  }

  lemma OthersOfOne(e: Entry, author: string)
    ensures Others([e], author) == if e.author == author then [] else [e]
  {
    assert [e][..0] == [];
  }

  // A snapshot of everything, or the rest behind what a task already holds.
  lemma DeltaCompletes(es: seq<Entry>, from: nat, author: string)
    requires from <= |es|
    ensures Others(es[..from], author) + Others(es[from..], author) == Others(es, author)
  {
    OthersAppend(es[..from], es[from..], author);
    assert es[..from] + es[from..] == es;
  }

  function RenderEntry(e: Entry): string {
    "[round " + GatesRecord.Dec(e.round) + "] " + e.author + (if e.lens == "" then "" else " (" + e.lens + ")") + ": " + e.content
  }

  function Rendered(es: seq<Entry>): seq<string> {
    if es == [] then [] else Rendered(es[..|es| - 1]) + [RenderEntry(es[|es| - 1])]
  }

  function JoinBlank(ls: seq<string>): string {
    if ls == [] then "" else if |ls| == 1 then ls[0] else ls[0] + "\n\n" + JoinBlank(ls[1..])
  }

  function WithInstruction(body: string, instruction: string): string {
    if body == "" then instruction else if instruction == "" then body else body + "\n\n" + instruction
  }

  // The text that shows these entries.
  function Shows(es: seq<Entry>, instruction: string): string {
    WithInstruction(JoinBlank(Rendered(es)), instruction)
  }

  // ---- What a text tells ----------------------------------------------------------------

  predicate StandsAt(text: string, at: nat, piece: string) {
    at + |piece| <= |text| && text[at..at + |piece|] == piece
  }

  // Between two places of a text stand an entry's author and, behind it, what it says.
  predicate EntryStands(text: string, from: nat, to: nat, e: Entry) {
    exists a, c :: from <= a && a + |e.author| <= c && c + |e.content| <= to && StandsAt(text, a, e.author) && StandsAt(text, c, e.content)
  }

  // The entries stand in the text one behind the other, and the instruction behind them.
  predicate TellsAt(text: string, es: seq<Entry>, instruction: string, bounds: seq<nat>) {
    && |bounds| == |es| + 1 && (forall k :: 0 <= k < |es| ==> bounds[k] <= bounds[k + 1])
    && (forall k :: 0 <= k < |es| ==> EntryStands(text, bounds[k], bounds[k + 1], es[k]))
    && bounds[|es|] + |instruction| <= |text| && text[|text| - |instruction|..] == instruction
  }

  ghost predicate Tells(text: string, es: seq<Entry>, instruction: string) {
    exists bounds :: TellsAt(text, es, instruction, bounds)
  }

  lemma EntryShown(e: Entry)
    ensures EntryStands(RenderEntry(e), 0, |RenderEntry(e)|, e)
  {
    var t := RenderEntry(e);
    var lead := "[round " + GatesRecord.Dec(e.round) + "] ";
    var mid := (if e.lens == "" then "" else " (" + e.lens + ")") + ": ";
    assert t == lead + e.author + mid + e.content;
    var a, c := |lead|, |lead| + |e.author| + |mid|;
    assert StandsAt(t, a, e.author) && StandsAt(t, c, e.content);
  }

  lemma StandsInside(text: string, from: nat, inner: string, at: nat, piece: string)
    requires StandsAt(text, from, inner) && StandsAt(inner, at, piece)
    ensures StandsAt(text, from + at, piece)
  {
    SliceOfSlice(text, from, |inner|, at, |piece|);
  }

  lemma EntryInside(text: string, from: nat, inner: string, e: Entry)
    requires StandsAt(text, from, inner) && EntryStands(inner, 0, |inner|, e)
    ensures EntryStands(text, from, from + |inner|, e)
  {
    var a, c :| 0 <= a && a + |e.author| <= c && c + |e.content| <= |inner| && StandsAt(inner, a, e.author) && StandsAt(inner, c, e.content);
    StandsInside(text, from, inner, a, e.author);
    StandsInside(text, from, inner, c, e.content);
    assert from <= from + a;
  }

  // Where each piece of a joined text stands: two newlines apart, from its start to its end.
  predicate JoinedAt(text: string, ls: seq<string>, at: seq<nat>) {
    && PiecesAt(text, ls, at) && GapsAt(text, ls, at)
    && (ls == [] ==> text == "") && (ls != [] ==> at[0] == 0 && at[|ls| - 1] + |ls[|ls| - 1]| == |text|)
  }

  predicate PiecesAt(text: string, ls: seq<string>, at: seq<nat>) {
    |at| == |ls| && forall k :: 0 <= k < |ls| ==> StandsAt(text, at[k], ls[k])
  }

  predicate GapsAt(text: string, ls: seq<string>, at: seq<nat>)
    requires |at| == |ls|
  {
    forall k :: 0 <= k < |ls| - 1 ==> GapAt(text, at[k] + |ls[k]|, at[k + 1])
  }

  predicate GapAt(text: string, from: nat, to: nat) {
    from + 2 == to && StandsAt(text, from, "\n\n")
  }

  /** strings.Join, said of positions. */
  lemma {:induction false} JoinBlankAt(ls: seq<string>) returns (at: seq<nat>)
    ensures JoinedAt(JoinBlank(ls), ls, at)
  {
    if ls == [] {
      at := [];
    } else if |ls| == 1 {
      at := [0];
      WholeStands(ls[0]);
    } else {
      var rest := JoinBlankAt(ls[1..]);
      at := JoinedOn(ls[0], JoinBlank(ls[1..]), ls[1..], rest);
      assert [ls[0]] + ls[1..] == ls;
    }
  }

  lemma WholeStands(l: string)
    ensures StandsAt(l, 0, l)
  {
    assert l[0..|l|] == l;
  }

  function Shifted(at: seq<nat>, d: nat): (r: seq<nat>)
    ensures |r| == |at| && forall k :: 0 <= k < |at| ==> r[k] == at[k] + d
  {
    seq(|at|, k requires 0 <= k < |at| => at[k] + d)
  }

  lemma JoinedOn(l: string, text: string, ls: seq<string>, rest: seq<nat>) returns (at: seq<nat>)
    requires ls != [] && JoinedAt(text, ls, rest)
    ensures JoinedAt(l + "\n\n" + text, [l] + ls, at)
  {
    var whole := l + "\n\n" + text;
    at := [0] + Shifted(rest, |l| + 2);
    ThreeParts(l, text);
    PiecesOn(whole, l, text, ls, rest);
    GapsOn(whole, l, text, ls, rest);
  }

  lemma PiecesOn(whole: string, l: string, text: string, ls: seq<string>, rest: seq<nat>)
    requires StandsAt(whole, 0, l) && StandsAt(whole, |l| + 2, text) && PiecesAt(text, ls, rest)
    ensures PiecesAt(whole, [l] + ls, [0] + Shifted(rest, |l| + 2))
  {
    forall k | 0 <= k < |ls| ensures StandsAt(whole, rest[k] + (|l| + 2), ls[k]) {
      StandsInside(whole, |l| + 2, text, rest[k], ls[k]);
    }
  }

  lemma GapsOn(whole: string, l: string, text: string, ls: seq<string>, rest: seq<nat>)
    requires StandsAt(whole, |l|, "\n\n") && StandsAt(whole, |l| + 2, text)
    requires ls != [] && |rest| == |ls| && GapsAt(text, ls, rest) && rest[0] == 0
    ensures GapsAt(whole, [l] + ls, [0] + Shifted(rest, |l| + 2))
  {
    var all, at := [l] + ls, [0] + Shifted(rest, |l| + 2);
    forall k | 0 <= k < |all| - 1 ensures GapAt(whole, at[k] + |all[k]|, at[k + 1]) {
      if k > 0 {
        assert GapAt(text, rest[k - 1] + |ls[k - 1]|, rest[k]);
        StandsInside(whole, |l| + 2, text, rest[k - 1] + |ls[k - 1]|, "\n\n");
      }
    }
  }

  lemma ThreeParts(l: string, text: string)
    ensures var whole := l + "\n\n" + text;
            StandsAt(whole, 0, l) && StandsAt(whole, |l|, "\n\n") && StandsAt(whole, |l| + 2, text) && |whole| == |l| + 2 + |text|
  {
    var whole := l + "\n\n" + text;
    assert whole[0..|l|] == l && whole[|l|..|l| + 2] == "\n\n" && whole[|l| + 2..] == text;
    assert whole[|l| + 2..|whole|] == text;
  }

  lemma {:induction false} RenderedAt(es: seq<Entry>)
    ensures |Rendered(es)| == |es| && forall k :: 0 <= k < |es| ==> Rendered(es)[k] == RenderEntry(es[k])
  {
    if es != [] { RenderedAt(es[..|es| - 1]); }
  }

  lemma InstructionLast(body: string, instruction: string)
    ensures var t := WithInstruction(body, instruction);
            |body| + |instruction| <= |t| && t[..|body|] == body && t[|t| - |instruction|..] == instruction
  {
  }

  /** A rendered delta tells every entry it is of, in order and apart, and the instruction last. */
  lemma ShowsTells(es: seq<Entry>, instruction: string)
    ensures Tells(Shows(es, instruction), es, instruction)
  {
    RenderedAt(es);
    var at := JoinBlankAt(Rendered(es));
    JoinedTells(es, Rendered(es), JoinBlank(Rendered(es)), instruction, at);
  }

  lemma JoinedTells(es: seq<Entry>, ls: seq<string>, body: string, instruction: string, at: seq<nat>)
    requires |ls| == |es| && (forall k :: 0 <= k < |es| ==> ls[k] == RenderEntry(es[k])) && JoinedAt(body, ls, at)
    ensures Tells(WithInstruction(body, instruction), es, instruction)
  {
    var text := WithInstruction(body, instruction);
    InstructionLast(body, instruction);
    forall k | 0 <= k < |es| ensures StandsAt(text, at[k], RenderEntry(es[k])) { StandsInFront(text, body, at[k], ls[k]); }
    forall k | 0 <= k < |es| - 1 ensures at[k] + |RenderEntry(es[k])| <= at[k + 1] {
      assert GapAt(body, at[k] + |ls[k]|, at[k + 1]);
    }
    BoundsTell(text, es, instruction, at, |body|);
  }

  lemma BoundsTell(text: string, es: seq<Entry>, instruction: string, at: seq<nat>, end: nat)
    requires |at| == |es| && forall k :: 0 <= k < |es| ==> StandsAt(text, at[k], RenderEntry(es[k]))
    requires forall k :: 0 <= k < |es| - 1 ==> at[k] + |RenderEntry(es[k])| <= at[k + 1]
    requires es != [] ==> at[|es| - 1] + |RenderEntry(es[|es| - 1])| <= end
    requires end + |instruction| <= |text| && text[|text| - |instruction|..] == instruction
    ensures TellsAt(text, es, instruction, at + [end])
  {
    var bounds := at + [end];
    forall k | 0 <= k < |es| ensures bounds[k] <= bounds[k + 1] && EntryStands(text, bounds[k], bounds[k + 1], es[k]) {
      var t := RenderEntry(es[k]);
      EntryShown(es[k]);
      EntryInside(text, at[k], t, es[k]);
      EntryWider(text, at[k], at[k] + |t|, bounds[k + 1], es[k]);
    }
  }

  lemma StandsInFront(text: string, body: string, at: nat, piece: string)
    requires |body| <= |text| && text[..|body|] == body && StandsAt(body, at, piece)
    ensures StandsAt(text, at, piece)
  {
    assert text[..|body|][at..at + |piece|] == piece;
  }

  lemma EntryWider(text: string, from: nat, to: nat, to': nat, e: Entry)
    requires EntryStands(text, from, to, e) && to <= to'
    ensures EntryStands(text, from, to', e)
  {
  }

  method RenderDelta(entries: seq<Entry>, start: int, forAuthor: string, instruction: string) returns (text: string)
    ensures var from := if start < 0 then 0 else if start > |entries| then |entries| else start;
            text == Shows(Others(entries[from..], forAuthor), instruction) && Tells(text, Others(entries[from..], forAuthor), instruction)
  {
    var from := if start < 0 then 0 else if start > |entries| then |entries| else start;
    var lines: seq<string> := [];
    var rest := entries[from..];
    for i := 0 to |rest|
      invariant lines == Rendered(Others(rest[..i], forAuthor))
    {
      assert rest[..i + 1][..i] == rest[..i];
      if rest[i].author != forAuthor {
        RenderedSnoc(Others(rest[..i], forAuthor), rest[i]);
        lines := lines + [RenderEntry(rest[i])];
      } else {
        assert Others(rest[..i], forAuthor) + [] == Others(rest[..i], forAuthor);
      }
    }
    assert rest[..|rest|] == rest;
    text := WithInstruction(JoinBlank(lines), instruction);
    ShowsTells(Others(rest, forAuthor), instruction);
  }

  lemma RenderedSnoc(es: seq<Entry>, e: Entry)
    ensures Rendered(es + [e]) == Rendered(es) + [RenderEntry(e)]
  {
    assert (es + [e])[..|es|] == es;
  }

  // ---- What a task was sent -----------------------------------------------------------------

  // A text sent, with the entries it shows.
  datatype Message = Message(text: string, shown: seq<Entry>, instruction: string, blind: bool) {
    // It tells them, or - in the blind round - is the bare briefing.
    ghost predicate Faithful() {
      if blind then shown <= [Entry("moderator", "", 0, text)] else Tells(text, shown, instruction)
    }
  }

  // The messages a seat's current task answered, in order. Astray is a task that answered
  // a message sent to another.
  datatype Held = Held(msgs: seq<Message>, astray: bool)

  function Conveyed(msgs: seq<Message>): seq<Entry> {
    if msgs == [] then [] else Conveyed(msgs[..|msgs| - 1]) + msgs[|msgs| - 1].shown
  }

  ghost predicate AllFaithful(msgs: seq<Message>) {
    forall m :: m in msgs ==> m.Faithful()
  }

  // The messages sent to a task, and all of them faithful, show exactly these entries.
  ghost predicate Knows(h: Held, es: seq<Entry>) {
    !h.astray ==> Conveyed(h.msgs) == es && AllFaithful(h.msgs)
  }

  // The call of sendTurn for one seat, and what it came back with.
  datatype Turn = Turn(seat: nat, answer: Answer)

  // What a task holds once it answered one more message.
  function Holds(h: Held, addressed: string, id: string, m: Message): Held {
    if addressed == "" then Held([m], false)
    else if id == addressed then Held(h.msgs + [m], h.astray)
    else Held([m], true)
  }

  lemma HoldsMore(h: Held, addressed: string, id: string, m: Message, es: seq<Entry>, author: string, from: nat)
    requires from <= |es| && m.Faithful()
    requires addressed != "" ==> Knows(h, Others(es[..from], author)) && m.shown == Others(es[from..], author)
    requires addressed == "" ==> m.shown == Others(es, author)
    ensures Knows(Holds(h, addressed, id, m), Others(es, author))
  {
    var msgs := h.msgs + [m];
    assert msgs[..|msgs| - 1] == h.msgs && [m][..0] == [];
    DeltaCompletes(es, from, author);
    assert Conveyed([m]) == [] + m.shown;
  }

  /**
   * A task that answers a message sent to another holds less than the seat's cursor says:
   * all the others said exactly when nothing had been said before the cursor stood.
   */
  lemma StrayKnowsLess(h: Held, addressed: string, id: string, m: Message, es: seq<Entry>, author: string, from: nat)
    requires from <= |es| && addressed != "" && id != addressed && m.shown == Others(es[from..], author)
    ensures Conveyed(Holds(h, addressed, id, m).msgs) == Others(es, author) <==> Others(es[..from], author) == []
  {
    assert [m][..0] == [];
    assert Conveyed([m]) == [] + m.shown;
    DeltaCompletes(es, from, author);
  }

  // ---- The discussion ---------------------------------------------------------------------

  // A seat's current task has been given, of what others wrote, exactly what its cursor
  // covers: each entry once, in order.
  ghost predicate Told(s: Seat, h: Held, entries: seq<Entry>) {
    s.lastSeen <= |entries| && (s.taskID != "" ==> Knows(h, Others(entries[..s.lastSeen], s.name)))
  }

  // The human's messages as entries, blank ones left out.
  function Interjections(messages: seq<string>, round: nat): seq<Entry> {
    if messages == [] then []
    else
      var n := |messages| - 1;
      var content := TrimSpace(messages[n]);
      Interjections(messages[..n], round) + (if content == "" then [] else [Entry("human", "", round, content)])
  }

  lemma InterjectionsNext(messages: seq<string>, i: nat, round: nat)
    requires i < |messages|
    ensures Interjections(messages[..i + 1], round) ==
            Interjections(messages[..i], round)
            + (if TrimSpace(messages[i]) == "" then [] else [Entry("human", "", round, TrimSpace(messages[i]))])
  {
    assert messages[..i + 1][..i] == messages[..i];
  }

  // One seat's utterance, if its answer is more than a blank.
  function Utterance(s: Seat, a: Answer, round: nat): seq<Entry> {
    if a.Said? && TrimSpace(a.text) != "" then [Entry(s.name, s.lens, round, TrimSpace(a.text))] else []
  }

  // The utterances of one round, in seat order.
  function Utterances(seats: seq<Seat>, answers: seq<Answer>, round: nat): seq<Entry>
    requires |seats| == |answers|
  {
    if seats == [] then []
    else
      var n := |seats| - 1;
      Utterances(seats[..n], answers[..n], round) + Utterance(seats[n], answers[n], round)
  }

  // What the round has said once the first i seats were heard, behind what stood before.
  function Heard(pre: seq<Entry>, seats: seq<Seat>, answers: seq<Answer>, i: nat, round: nat): seq<Entry>
    requires i <= |seats| == |answers|
  {
    pre + Utterances(seats[..i], answers[..i], round)
  }

  lemma HeardNext(pre: seq<Entry>, seats: seq<Seat>, answers: seq<Answer>, i: nat, round: nat)
    requires i < |seats| == |answers|
    ensures Heard(pre, seats, answers, i + 1, round) ==
            Heard(pre, seats, answers, i, round) + Utterance(seats[i], answers[i], round)
    ensures pre <= Heard(pre, seats, answers, i, round)
  {
    assert seats[..i + 1][..i] == seats[..i] && answers[..i + 1][..i] == answers[..i];
  }

  lemma {:induction false} UtterancesByName(x: seq<Seat>, y: seq<Seat>, answers: seq<Answer>, round: nat)
    requires |x| == |y| == |answers| && forall i :: 0 <= i < |x| ==> x[i].name == y[i].name && x[i].lens == y[i].lens
    ensures Utterances(x, answers, round) == Utterances(y, answers, round)
    decreases |x|
  {
    if x != [] { UtterancesByName(x[..|x| - 1], y[..|y| - 1], answers[..|x| - 1], round); }
  }

  // The turns of a round: one for each live seat, in seat order.
  function LiveTurns(seats: seq<Seat>, answers: seq<Answer>): seq<Turn>
    requires |seats| == |answers|
  {
    if seats == [] then []
    else
      var n := |seats| - 1;
      LiveTurns(seats[..n], answers[..n]) + (if seats[n].dead then [] else [Turn(n, answers[n])])
  }

  lemma LiveTurnsNext(seats: seq<Seat>, answers: seq<Answer>, a: Answer)
    requires |answers| < |seats|
    ensures LiveTurns(seats[..|answers| + 1], answers + [a]) ==
            LiveTurns(seats[..|answers|], answers) + (if seats[|answers|].dead then [] else [Turn(|answers|, a)])
  {
    var n := |answers|;
    assert seats[..n + 1][..n] == seats[..n] && (answers + [a])[..n] == answers;
  }

  predicate NoTasks(seats: seq<Seat>) {
    forall i :: 0 <= i < |seats| ==> seats[i].taskID == ""
  }

  // What one more answer adds to the turns and to their cost.
  lemma AccountsNext(seats: seq<Seat>, front: seq<Answer>, a: Answer)
    requires |front| < |seats|
    ensures var i := |front|;
            && LiveTurns(seats[..i + 1], front + [a]) ==
               LiveTurns(seats[..i], front) + (if seats[i].dead then [] else [Turn(i, a)])
            && CostOf(front + [a]) == CostOf(front) + CostOf([a])
  {
    LiveTurnsNext(seats, front, a);
    CostNext(front, a);
  }

  predicate Responds(a: Answer) {
    a.Said? && TrimSpace(a.text) != ""
  }

  // How many turns came back with more than a blank.
  function Responses(turns: seq<Turn>): nat {
    if turns == [] then 0
    else Responses(turns[..|turns| - 1]) + (if Responds(turns[|turns| - 1].answer) then 1 else 0)
  }

  lemma {:induction false} ResponsesAre(seats: seq<Seat>, answers: seq<Answer>, round: nat)
    requires |seats| == |answers| && forall i :: 0 <= i < |seats| && seats[i].dead ==> !answers[i].Said?
    ensures Responses(LiveTurns(seats, answers)) == |Utterances(seats, answers, round)|
    decreases |seats|
  {
    if seats != [] {
      var n := |seats| - 1;
      ResponsesAre(seats[..n], answers[..n], round);
      var front := LiveTurns(seats[..n], answers[..n]);
      assert (front + [Turn(n, answers[n])])[..|front|] == front;
      assert front + [] == front;
    }
  }

  // Two seats have an entry each in this round.
  predicate TwoSpoke(es: seq<Entry>, seats: seq<Seat>, round: nat) {
    exists p, q :: 0 <= p < q < |es| && TwoSeats(es[p], es[q], seats, round)
  }

  predicate TwoSeats(e: Entry, f: Entry, seats: seq<Seat>, round: nat) {
    exists i, j :: 0 <= i < j < |seats| && By(e, seats[i], round) && By(f, seats[j], round)
  }

  predicate By(e: Entry, s: Seat, round: nat) {
    e.author == s.name && e.lens == s.lens && e.round == round
  }

  // Every utterance is some seat's, in seat order.
  lemma {:induction false} SpeakerOf(seats: seq<Seat>, answers: seq<Answer>, round: nat, p: nat) returns (i: nat)
    requires |seats| == |answers| && p < |Utterances(seats, answers, round)|
    ensures i < |seats| && By(Utterances(seats, answers, round)[p], seats[i], round)
    ensures p == |Utterances(seats[..i], answers[..i], round)|
    decreases |seats|
  {
    var n := |seats| - 1;
    var front := Utterances(seats[..n], answers[..n], round);
    if p < |front| {
      i := SpeakerOf(seats[..n], answers[..n], round, p);
      assert seats[..n][..i] == seats[..i] && answers[..n][..i] == answers[..i];
    } else {
      i := n;
    }
  }

  lemma {:induction false} UtterancesGrow(seats: seq<Seat>, answers: seq<Answer>, round: nat, i: nat, j: nat)
    requires i <= j <= |seats| == |answers|
    ensures |Utterances(seats[..i], answers[..i], round)| <= |Utterances(seats[..j], answers[..j], round)|
    decreases j
  {
    if i < j {
      UtterancesGrow(seats, answers, round, i, j - 1);
      assert seats[..j][..j - 1] == seats[..j - 1] && answers[..j][..j - 1] == answers[..j - 1];
    }
  }

  lemma RoundHasTwo(pre: seq<Entry>, seats: seq<Seat>, answers: seq<Answer>, round: nat, rest: seq<Entry>)
    requires |seats| == |answers| && |Utterances(seats, answers, round)| >= 2
    ensures TwoSpoke(pre + Utterances(seats, answers, round) + rest, seats, round)
  {
    var us := Utterances(seats, answers, round);
    var es := pre + us + rest;
    var i := SpeakerOf(seats, answers, round, 0);
    var j := SpeakerOf(seats, answers, round, 1);
    if j <= i { UtterancesGrow(seats, answers, round, j, i); }
    assert es[|pre|] == us[0] && es[|pre| + 1] == us[1];
    assert TwoSeats(es[|pre|], es[|pre| + 1], seats, round);
  }

  // Where a seat stands between its answer and the cursor's move.
  ghost predicate Answered(s: Seat, a: Answer, h: Held, pre: seq<Entry>) {
    if a.Said? then s.lastSeen <= |pre| && (s.taskID != "" ==> Knows(h, Others(pre, s.name))) else Told(s, h, pre)
  }

  predicate SameSeat(s: Seat, t: Seat) {
    s.name == t.name && s.lens == t.lens && s.dead == t.dead
  }

  ghost predicate Awaiting(s: Seat, a: Answer, h: Held, pre: seq<Entry>) {
    Answered(s, a, h, pre) && (s.dead ==> !a.Said?) && (a.Said? ==> s.lastCost == a.cost)
  }

  predicate SameSeats(was: seq<Seat>, now: seq<Seat>) {
    |was| == |now| && forall i :: 0 <= i < |now| ==> SameSeat(now[i], was[i])
  }

  // The first seats were visited, as many as there are answers; the others stand as before.
  ghost predicate Visited(seats: seq<Seat>, held: seq<Held>, answers: seq<Answer>, es: seq<Entry>, was: seq<Seat>) {
    && |answers| <= |seats| == |was| == |held|
    && (forall k :: 0 <= k < |answers| ==> Awaiting(seats[k], answers[k], held[k], es) && SameSeat(seats[k], was[k]))
    && forall k :: |answers| <= k < |seats| ==> seats[k] == was[k] && Told(seats[k], held[k], es)
  }

  lemma VisitedNext(
    seats: seq<Seat>, seats': seq<Seat>, held: seq<Held>, held': seq<Held>, answers: seq<Answer>, a: Answer, es: seq<Entry>,
    was: seq<Seat>)
    requires Visited(seats, held, answers, es, was) && |answers| < |seats| == |seats'| == |held'|
    requires var i := |answers|;
             && seats' == seats[i := seats'[i]] && held' == held[i := held'[i]]
             && Awaiting(seats'[i], a, held'[i], es) && SameSeat(seats'[i], seats[i])
    ensures Visited(seats', held', answers + [a], es, was)
  {
  }

  // The seats from the i-th on are as they were, and all are the same seats.
  predicate Untouched(was: seq<Seat>, seats: seq<Seat>, i: nat) {
    SameSeats(was, seats) && forall k :: i <= k < |seats| ==> seats[k] == was[k]
  }

  lemma UntouchedNext(was: seq<Seat>, seats: seq<Seat>, seats': seq<Seat>, i: nat)
    requires Untouched(was, seats, i) && i < |seats| == |seats'|
    requires seats' == seats[i := seats'[i]] && SameSeat(seats'[i], seats[i])
    ensures Untouched(was, seats', i + 1)
  {
  }

  class Discussion {
    var entries: seq<Entry>
    var seats: seq<Seat>
    var totalCost: real
    // What each seat's current task was sent, the calls of sendTurn made, and every cost a
    // successful one or a moderation reported: kept by the calls themselves.
    ghost var held: seq<Held>
    ghost var log: seq<Turn>
    ghost var spent: real
    // Kept by Interject, Dispatch and Moderate.
    ghost var events: seq<Event>

    ghost predicate Valid()
      reads this
    {
      |held| == |seats| && forall i :: 0 <= i < |seats| ==> Told(seats[i], held[i], entries)
    }

    constructor (seats: seq<Seat>, briefing: string)
      requires forall i :: 0 <= i < |seats| ==> seats[i].taskID == "" && seats[i].lastSeen == 0
      ensures Valid() && totalCost == 0.0 && spent == 0.0 && log == [] && events == [] && this.seats == seats
      ensures entries == [Entry("moderator", "", 0, briefing)]
    {
      this.seats := seats;
      entries := [Entry("moderator", "", 0, briefing)];
      totalCost, spent, log, events := 0.0, 0.0, [], [];
      held := seq(|seats|, i => Held([], false));
    }

    // sendTurn: what an answer leaves of the seat's handle, and of the task behind it.
    method SendTurn(i: nat, body: string, ghost shown: seq<Entry>, ghost instruction: string, ghost blind: bool) returns (a: Answer)
      requires i < |seats| == |held| && Message(body, shown, instruction, blind).Faithful()
      modifies this`seats, this`held, this`spent, this`log
      ensures |seats| == |held| == |old(seats)| && seats == old(seats)[i := seats[i]]
      ensures log == old(log) + [Turn(i, a)] && spent == old(spent) + CostOf([a])
      ensures a.Said? ==> seats[i] == old(seats[i]).(taskID := a.id, lastCost := a.cost)
      ensures a.Said? ==> held == old(held)[i := Holds(old(held[i]), old(seats[i].taskID), a.id, Message(body, shown, instruction, blind))]
      ensures !a.Said? ==> held == old(held) && seats[i] == old(seats[i]).(taskID := seats[i].taskID)
      ensures a.Timeout? || a.TaskEnded? ==> seats[i].taskID == ""
      ensures a.SendError? || a.NotATask? || a.NoUtterance? ==> seats[i] == old(seats[i])
    {
      a := *;
      log := log + [Turn(i, a)];
      CostSnoc([], a);
      assert [] + [a] == [a];
      var s := seats[i];
      match a {
        case Timeout => seats := seats[i := s.(taskID := "")];
        case TaskEnded => seats := seats[i := s.(taskID := "")];
        case Said(id, cost, _) =>
          held := held[i := Holds(held[i], s.taskID, id, Message(body, shown, instruction, blind))];
          spent := spent + cost;
          seats := seats[i := s.(taskID := id, lastCost := cost)];
        case _ =>
      }
    }

    // The blind round's transcript: the briefing alone, and no seat with a task yet.
    ghost predicate Blind(briefing: string)
      reads this`entries, this`seats
    {
      entries == [Entry("moderator", "", 0, briefing)] && NoTasks(seats)
    }

    // What a seat is sent: the entries from its cursor on, or the bare briefing.
    method Body(s: Seat, from: nat, blind: bool, ghost briefing: string, instruction: string) returns (body: string)
      requires from <= |entries| && (blind ==> entries == [Entry("moderator", "", 0, briefing)] && from == 0)
      ensures Message(body, Others(entries[from..], s.name), instruction, blind).Faithful()
    {
      if blind {
        body := entries[0].content;
        OthersOfOne(entries[0], s.name);
        assert entries[from..] == [entries[0]];
      } else {
        body := RenderDelta(entries, from, s.name, instruction);
      }
    }

    // One live seat's turn: the entries its task lacks, or all of them when it has none.
    method Reach(i: nat, blind: bool, ghost briefing: string, instruction: string) returns (a: Answer)
      requires i < |seats| == |held| && !seats[i].dead && Told(seats[i], held[i], entries)
      requires blind ==> entries == [Entry("moderator", "", 0, briefing)] && seats[i].taskID == ""
      modifies this`seats, this`held, this`spent, this`log
      ensures |seats| == |held| == |old(seats)| && seats == old(seats)[i := seats[i]] && held == old(held)[i := held[i]]
      ensures log == old(log) + [Turn(i, a)] && spent == old(spent) + CostOf([a])
      ensures SameSeat(seats[i], old(seats[i])) && Awaiting(seats[i], a, held[i], entries)
    {
      var s := seats[i];
      var from := if s.taskID == "" then 0 else s.lastSeen;
      var body := Body(s, from, blind, briefing, instruction);
      assert entries[0..] == entries;
      ghost var m := Message(body, Others(entries[from..], s.name), instruction, blind);
      ghost var h := held[i];
      a := SendTurn(i, body, m.shown, instruction, blind);
      if a.Said? { HoldsMore(h, s.taskID, a.id, m, entries, s.name, s.lastSeen); }
    }

    // The same for any seat: a dead one is passed over.
    method Visit(i: nat, blind: bool, ghost briefing: string, instruction: string) returns (a: Answer)
      requires i < |seats| == |held| && Told(seats[i], held[i], entries)
      requires blind ==> entries == [Entry("moderator", "", 0, briefing)] && seats[i].taskID == ""
      modifies this`seats, this`held, this`spent, this`log
      ensures |seats| == |held| == |old(seats)| && seats == old(seats)[i := seats[i]] && held == old(held)[i := held[i]]
      ensures log == old(log) + (if old(seats[i]).dead then [] else [Turn(i, a)]) && spent == old(spent) + CostOf([a])
      ensures SameSeat(seats[i], old(seats[i])) && Awaiting(seats[i], a, held[i], entries)
    {
      a := SendError;
      if seats[i].dead {
        CostSnoc([], a);
        assert [] + [a] == [a];
      } else {
        a := Reach(i, blind, briefing, instruction);
      }
    }

    lemma NoneVisited()
      requires Valid()
      ensures Visited(seats, held, [], entries, seats)
    {
    }

    // The next seat's visit, behind the answers so far.
    method VisitNext(answers: seq<Answer>, blind: bool, ghost briefing: string, instruction: string, ghost was: seq<Seat>)
      returns (answers': seq<Answer>)
      requires |answers| < |seats| && Visited(seats, held, answers, entries, was)
      requires blind ==> entries == [Entry("moderator", "", 0, briefing)] && NoTasks(was)
      modifies this`seats, this`held, this`spent, this`log
      ensures |answers'| == |answers| + 1 && answers' == answers + [answers'[|answers|]] && |seats| == |old(seats)|
      ensures Visited(seats, held, answers', entries, was)
      ensures var a := answers'[|answers|];
              && log == old(log) + (if was[|answers|].dead then [] else [Turn(|answers|, a)]) && spent == old(spent) + CostOf([a])
    {
      ghost var seatsWere, heldWere := seats, held;
      var a := Visit(|answers|, blind, briefing, instruction);
      VisitedNext(seatsWere, seats, heldWere, held, answers, a, entries, was);
      answers' := answers + [a];
    }

    // The fan-out: one turn for every live seat.
    method FanOut(blind: bool, ghost briefing: string, instruction: string) returns (answers: seq<Answer>)
      requires Visited(seats, held, [], entries, seats)
      requires blind ==> entries == [Entry("moderator", "", 0, briefing)] && NoTasks(seats)
      modifies this`seats, this`held, this`spent, this`log
      ensures |answers| == |seats| && Visited(seats, held, answers, entries, old(seats))
      ensures log == old(log) + LiveTurns(old(seats), answers)
      ensures spent == old(spent) + CostOf(answers)
    {
      answers := [];
      ghost var was := seats;
      for i := 0 to |seats|
        invariant |answers| == i && |seats| == |was| && Visited(seats, held, answers, entries, was)
        invariant log == old(log) + LiveTurns(was[..i], answers)
        invariant spent == old(spent) + CostOf(answers)
      {
        ghost var front := answers;
        answers := VisitNext(answers, blind, briefing, instruction, was);
        AccountsNext(was, front, answers[i]);
        Assoc(old(log), LiveTurns(was[..i], front), if was[i].dead then [] else [Turn(i, answers[i])]);
      }
      assert was[..|seats|] == was;
    }

    // The first n seats have had their answers taken; all await it before the first.
    ghost predicate AllTold(n: nat)
      reads this
    {
      n <= |seats| == |held| && forall k :: 0 <= k < n ==> Told(seats[k], held[k], entries)
    }

    ghost predicate AllAwaiting(answers: seq<Answer>, pre: seq<Entry>)
      reads this
    {
      && |answers| == |seats| == |held|
      && forall k :: 0 <= k < |seats| ==> Awaiting(seats[k], answers[k], held[k], pre)
    }

    // What dispatch does with one seat's answer, once all are in.
    method TakeAnswer(i: nat, a: Answer, pre: seq<Entry>, round: nat) returns (spoke: bool)
      requires i < |seats| == |held| && pre <= entries
      requires AllTold(i)
      requires Awaiting(seats[i], a, held[i], pre)
      modifies this`entries, this`seats, this`totalCost
      ensures |seats| == |old(seats)| == |held| && seats == old(seats)[i := seats[i]] && AllTold(i + 1)
      ensures SameSeat(seats[i], old(seats)[i])
      ensures totalCost == old(totalCost) + (if a.Said? then a.cost else 0.0)
      ensures entries == old(entries) + Utterance(old(seats)[i], a, round)
      ensures spoke <==> Utterance(old(seats)[i], a, round) != []
    {
      var s := seats[i];
      spoke := false;
      if s.dead || !a.Said? {
        ToldStill(s, held[i], pre, entries);
        return;
      }
      totalCost := totalCost + s.lastCost;
      var text := TrimSpace(a.text);
      if text != "" {
        spoke := true;
        Grows(seats[..i], held[..i], entries, Entry(s.name, s.lens, round, text));
        entries := entries + [Entry(s.name, s.lens, round, text)];
      }
      assert entries[..|pre|] == pre;
      seats := seats[i := s.(lastSeen := |pre|)];
    }

    /**
     * dispatch: the responders' answers become the round's entries, in seat order; the
     * cost of every successful turn is taken, a blank one's included; and each task
     * that was reached has then been sent all that stood before the round.
     */
    method Dispatch(round: nat, blind: bool, ghost briefing: string, instruction: string)
      returns (responded: nat, ghost answers: seq<Answer>)
      requires Valid() && entries != [] && (blind ==> Blind(briefing))
      modifies this
      ensures Valid() && entries != [] && SameSeats(old(seats), seats)
      ensures |answers| == |old(seats)| && log == old(log) + LiveTurns(old(seats), answers)
      ensures entries == old(entries) + Utterances(old(seats), answers, round)
      ensures responded == |Utterances(old(seats), answers, round)| == Responses(LiveTurns(old(seats), answers))
      ensures totalCost - old(totalCost) == spent - old(spent) == CostOf(answers)
      ensures events == old(events) + [Dispatched(round, blind)]
    {
      events := events + [Dispatched(round, blind)];
      var pre := entries;
      NoneVisited();
      var replies := FanOut(blind, briefing, instruction);
      ghost var named := seats;
      UtterancesByName(old(seats), named, replies, round);
      ResponsesAre(old(seats), replies, round);
      responded := TakeAnswers(replies, pre, round);
      answers := replies;
    }

    method TakeAnswers(answers: seq<Answer>, pre: seq<Entry>, round: nat) returns (responded: nat)
      requires |answers| == |seats| == |held| && pre == entries
      requires AllAwaiting(answers, pre)
      modifies this`entries, this`seats, this`totalCost
      ensures Valid() && SameSeats(old(seats), seats) && entries == pre + Utterances(old(seats), answers, round)
      ensures responded == |Utterances(old(seats), answers, round)|
      ensures totalCost == old(totalCost) + CostOf(answers)
    {
      responded := 0;
      ghost var was := seats;
      assert answers[..0] == [] && was[..0] == [] && Heard(pre, was, answers, 0, round) == pre;
      for i := 0 to |seats|
        invariant |answers| == |seats| == |held| == |was| && Untouched(was, seats, i)
        invariant entries == Heard(pre, was, answers, i, round) && |entries| == |pre| + responded
        invariant AllTold(i)
        invariant totalCost == old(totalCost) + CostOf(answers[..i])
      {
        CostTaken(answers, i);
        HeardNext(pre, was, answers, i, round);
        ghost var before := seats;
        var spoke := TakeAnswer(i, answers[i], pre, round);
        UntouchedNext(was, before, seats, i);
        if spoke {
          responded := responded + 1;
        }
      }
      assert answers[..|seats|] == answers && was[..|seats|] == was;
    }

    static lemma ToldStill(s: Seat, h: Held, pre: seq<Entry>, entries: seq<Entry>)
      requires Told(s, h, pre) && pre <= entries
      ensures Told(s, h, entries)
    {
      assert entries[..s.lastSeen] == pre[..s.lastSeen];
    }

    static lemma Grows(seats: seq<Seat>, held: seq<Held>, entries: seq<Entry>, e: Entry)
      requires |seats| == |held| && forall i :: 0 <= i < |seats| ==> Told(seats[i], held[i], entries)
      ensures forall i :: 0 <= i < |seats| ==> Told(seats[i], held[i], entries + [e])
    {
      forall i | 0 <= i < |seats| ensures Told(seats[i], held[i], entries + [e]) {
        ToldStill(seats[i], held[i], entries, entries + [e]);
      }
    }

    // The human's messages join the transcript before the round.
    method Interject(round: nat, messages: seq<string>)
      requires Valid() && entries != []
      modifies this`entries, this`events
      ensures Valid() && entries == old(entries) + Interjections(messages, round)
      ensures events == old(events) + [Drained(round, messages)]
    {
      events := events + [Drained(round, messages)];
      ghost var pre := entries;
      for i := 0 to |messages|
        invariant Valid() && entries == pre + Interjections(messages[..i], round)
        invariant events == old(events) + [Drained(round, messages)]
      {
        InterjectionsNext(messages, i, round);
        var content := TrimSpace(messages[i]);
        if content != "" {
          Grows(seats, held, entries, Entry("human", "", round, content));
          entries := entries + [Entry("human", "", round, content)];
        }
      }
      assert messages[..|messages|] == messages;
    }

    // The same, beside a quorum already there.
    method Drain(round: nat, messages: seq<string>, ghost checked: bool, ghost was: seq<Seat>, ghost first: nat)
      requires Valid() && entries != [] && (checked ==> Quorum(was, first))
      modifies this`entries, this`events
      ensures Valid() && old(entries) <= entries && (checked ==> Quorum(was, first))
      ensures events == old(events) + [Drained(round, messages)]
    {
      Interject(round, messages);
      if checked { QuorumStays(was, first, old(entries), entries, log, log); }
    }

    // One call of the moderator's model, paid for whether it answers or not.
    method Moderate() returns (verdict: Verdict, failed: bool)
      modifies this`totalCost, this`spent, this`events
      ensures totalCost - old(totalCost) == spent - old(spent)
      ensures failed ==> verdict == Unclassified
      ensures events == old(events) + [Ruled(verdict, failed, spent - old(spent))]
    {
      var cost: real := *;
      failed := *;
      verdict := *;
      if failed { verdict := Unclassified; }
      totalCost, spent := totalCost + cost, spent + cost;
      events := events + [Ruled(verdict, failed, cost)];
    }

    // A round's quorum held, as the calls of sendTurn came back and in the transcript.
    ghost predicate Quorum(was: seq<Seat>, round: nat)
      reads this`entries, this`log
    {
      && LiveCount(was) <= |log| && Responses(log[..LiveCount(was)]) >= QUORUM_MIN
      && TwoSpoke(entries, was, round)
    }

    // The first round's calls are all there are, and too few of them responded.
    ghost predicate Short(was: seq<Seat>)
      reads this`log
    {
      |log| == LiveCount(was) && Responses(log) < QUORUM_MIN
    }

    // One round: dispatched, and - the first time - its quorum checked.
    method Round(round: nat, blind: bool, ghost briefing: string, instruction: string, checked: bool, ghost was: seq<Seat>, ghost first: nat)
      returns (enough: bool)
      requires Valid() && entries != [] && (blind ==> Blind(briefing))
      requires if checked then Quorum(was, first) else log == [] && seats == was && round == first
      modifies this
      ensures Valid() && old(entries) <= entries && totalCost - old(totalCost) == spent - old(spent)
      ensures (enough ==> Quorum(was, first)) && (checked ==> enough)
      ensures !enough ==> Short(was)
      ensures events == old(events) + [Dispatched(round, blind)]
    {
      ghost var answers;
      var responded;
      responded, answers := Dispatch(round, blind, briefing, instruction);
      enough := checked || responded >= QUORUM_MIN;
      if checked {
        QuorumStays(was, first, old(entries), entries, old(log), log);
      } else {
        assert log == LiveTurns(was, answers);
        FirstQuorum(old(entries), was, answers, round);
      }
    }

    static lemma FirstQuorum(pre: seq<Entry>, was: seq<Seat>, answers: seq<Answer>, round: nat)
      requires |was| == |answers|
      ensures var log := LiveTurns(was, answers); |log| == LiveCount(was) && log[..LiveCount(was)] == log
      ensures |Utterances(was, answers, round)| >= QUORUM_MIN ==> TwoSpoke(pre + Utterances(was, answers, round), was, round)
    {
      LiveTurnsCount(was, answers);
      if |Utterances(was, answers, round)| >= QUORUM_MIN { RoundHasTwo(pre, was, answers, round, []); }
      assert pre + Utterances(was, answers, round) + [] == pre + Utterances(was, answers, round);
    }

    static lemma QuorumStays(was: seq<Seat>, round: nat, es: seq<Entry>, es': seq<Entry>, log: seq<Turn>, log': seq<Turn>)
      requires es <= es' && log <= log' && TwoSpoke(es, was, round) && LiveCount(was) <= |log|
      ensures TwoSpoke(es', was, round) && log'[..LiveCount(was)] == log[..LiveCount(was)]
    {
      var p, q :| 0 <= p < q < |es| && TwoSeats(es[p], es[q], was, round);
      assert es'[p] == es[p] && es'[q] == es[q];
    }

    /**
     * Discuss. It ends without a quorum exactly when fewer than two of the first round's
     * turns came back with more than a blank; any other outcome's transcript holds what
     * two seats said in that round. Its cost is everything that was reported spent; and
     * throughout, the messages sent to a seat's task - as texts that render them - show it
     * what the others said up to its cursor, each entry once and in order. What it did, in
     * order, is what Played says.
     */
    method Discuss(rounds: int, blind: bool, budget: real, briefing: string, inbox: nat -> seq<string>)
      returns (outcome: Outcome, ghost rulings: seq<Event>)
      requires Valid() && Blind(briefing) && totalCost == 0.0 && spent == 0.0 && log == [] && events == []
      modifies this
      ensures Valid() && old(entries) <= entries
      ensures LiveCount(old(seats)) <= |log|
      ensures outcome.NoQuorum? <==> Responses(log[..LiveCount(old(seats))]) < QUORUM_MIN
      ensures !outcome.NoQuorum? ==> TwoSpoke(outcome.transcript, old(seats), if blind then 0 else 1)
      ensures outcome.transcript == entries && outcome.cost == spent
      ensures outcome.NoQuorum? ==> events == if blind then [Dispatched(0, true)] else [Drained(1, inbox(1)), Dispatched(1, false)]
      ensures !outcome.NoQuorum? ==> Played(events, blind, inbox, rulings, if rounds < 1 then 1 else rounds, budget, spent, outcome)
    {
      var cap := if rounds < 1 then 1 else rounds;
      ghost var was, first := seats, if blind then 0 else 1;
      rulings := [];
      if blind {
        var enough := Round(0, true, briefing, "", false, was, first);
        WholeLog(log);
        if !enough { return NoQuorum(entries, totalCost), rulings; }
      }
      var enough, consensus;
      ghost var over;
      enough, consensus, rulings, over := Rounds(cap, blind, budget, inbox, was, first);
      WholeLog(log);
      if !enough { return NoQuorum(entries, totalCost), rulings; }
      ghost var front := events;
      var synthesis, broken := Moderate();
      outcome := if broken then SynthesisFailed(entries, totalCost) else Finished(consensus, entries, totalCost);
      Last(front, events[|front|]);
    }

    // The rounds behind the blind one.
    method Rounds(cap: nat, blind: bool, budget: real, inbox: nat -> seq<string>, ghost was: seq<Seat>, ghost first: nat)
      returns (enough: bool, consensus: bool, ghost rulings: seq<Event>, ghost over: bool)
      requires Valid() && entries != [] && cap >= 1 && totalCost == spent && events == Opening(blind)
      requires Before(blind, was, first)
      modifies this
      ensures Valid() && old(entries) <= entries && totalCost == spent && (enough ==> Quorum(was, first))
      ensures !enough ==> Short(was)
      ensures !enough ==> !blind && events == [Drained(1, inbox(1)), Dispatched(1, false)]
      ensures enough ==> Rounded(events, blind, inbox, rulings, over, cap) && consensus == Agreed(rulings)
      ensures enough ==> (over <==> Overspent(budget, spent, rulings, cap))
    {
      enough, consensus, rulings, over := true, false, [], false;
      var quorumChecked, r, done := blind, 1, false;
      assert events == Opening(blind) + [];
      while r <= cap
        invariant enough && Valid() && old(entries) <= entries && totalCost == spent && |rulings| == r - 1 <= cap
        invariant Going(blind, quorumChecked, inbox, was, first, rulings) && NoneEnds(rulings)
      {
        enough, done, consensus, rulings, over := OneRound(r, cap, blind, budget, quorumChecked, inbox, was, first, rulings);
        if !enough || done { return; }
        quorumChecked := true;
        r := r + 1;
      }
      consensus, over := false, false;
      AtTheCap(events, blind, inbox, rulings, cap);
    }

    // One pass through the loop: the human's messages, the budget, the round.
    method OneRound(r: nat, ghost cap: nat, blind: bool, budget: real, checked: bool, inbox: nat -> seq<string>,
                    ghost was: seq<Seat>, ghost first: nat, ghost rulings: seq<Event>)
      returns (enough: bool, done: bool, consensus: bool, ghost rulings': seq<Event>, ghost over: bool)
      requires Valid() && totalCost == spent && r == |rulings| + 1 <= cap
      requires Going(blind, checked, inbox, was, first, rulings) && NoneEnds(rulings)
      modifies this
      ensures Valid() && old(entries) <= entries && totalCost == spent
      ensures !enough ==> !blind && Short(was)
      ensures !enough ==> events == [Drained(1, inbox(1)), Dispatched(1, false)]
      ensures enough && done ==> Quorum(was, first) && Rounded(events, blind, inbox, rulings', over, cap)
      ensures enough && done ==> consensus == Agreed(rulings') && (over <==> Overspent(budget, spent, rulings', cap))
      ensures enough && !done ==> Going(blind, true, inbox, was, first, rulings') && NoneEnds(rulings') && |rulings'| == r
    {
      enough, done, consensus, rulings', over := true, true, false, rulings, false;
      Drain(r, inbox(r), checked, was, first);
      if budget > 0.0 && totalCost >= budget {
        over := true;
        BudgetGone(events, blind, inbox, rulings, cap);
      } else {
        enough, done, consensus, rulings' := PlayRound(r, cap, blind, checked, inbox, was, first, rulings);
      }
    }

    // A round, and whether its classification ends the discussion.
    method PlayRound(r: nat, ghost cap: nat, blind: bool, checked: bool, inbox: nat -> seq<string>,
                     ghost was: seq<Seat>, ghost first: nat, ghost rulings: seq<Event>)
      returns (enough: bool, done: bool, consensus: bool, ghost rulings': seq<Event>)
      requires Valid() && entries != [] && totalCost == spent && r == |rulings| + 1 <= cap && (checked <==> blind || rulings != [])
      requires Before(checked, was, first) && NoneEnds(rulings)
      requires Drew(events, blind, inbox, rulings)
      modifies this
      ensures Valid() && old(entries) <= entries && totalCost == spent
      ensures !enough ==> !blind && Short(was)
      ensures !enough ==> events == [Drained(1, inbox(1)), Dispatched(1, false)]
      ensures enough && done ==> Quorum(was, first) && Rounded(events, blind, inbox, rulings', false, cap)
      ensures enough && done ==> Ended(rulings') && consensus == Agreed(rulings')
      ensures enough && !done ==> Going(blind, true, inbox, was, first, rulings') && NoneEnds(rulings') && |rulings'| == r
    {
      done, consensus, rulings' := true, false, rulings;
      ghost var front := events;
      var verdict, failed;
      ghost var ruling;
      enough, verdict, failed, ruling := NextRound(r, checked, was, first);
      if !enough {
        FirstOfAll(front, inbox, rulings);
        return;
      }
      rulings' := rulings + [ruling];
      RuledOn(front, events, blind, inbox, rulings, ruling, cap);
      // Classification is advisory: a failed one never ends the discussion.
      done := !failed && (verdict == Consensus || verdict == Stalled);
      consensus := done && verdict == Consensus;
    }

    // With the quorum checked it held; before that, nothing was said or spent in a first
    // round that is yet to come.
    ghost predicate Before(checked: bool, was: seq<Seat>, first: nat)
      reads this`entries, this`log, this`totalCost, this`seats
    {
      if checked then Quorum(was, first) else first == 1 && totalCost == 0.0 && log == [] && seats == was
    }

    // Between two rounds.
    ghost predicate Going(blind: bool, checked: bool, inbox: nat -> seq<string>, was: seq<Seat>, first: nat, rulings: seq<Event>)
      reads this`entries, this`log, this`totalCost, this`seats, this`events
    {
      && entries != [] && Before(checked, was, first) && (checked <==> blind || rulings != [])
      && Course(events, blind, inbox, rulings)
    }

    // A round once the human's messages are in: the turns, and the classification.
    method NextRound(r: nat, checked: bool, ghost was: seq<Seat>, ghost first: nat)
      returns (enough: bool, verdict: Verdict, failed: bool, ghost ruling: Event)
      requires Valid() && entries != [] && totalCost == spent && Before(checked, was, first) && (!checked ==> r == 1)
      modifies this
      ensures Valid() && old(entries) <= entries && totalCost == spent && entries != []
      ensures enough ==> Quorum(was, first) && events == old(events) + [Dispatched(r, false)] + [ruling]
      ensures enough ==> ruling.Ruled? && ruling.verdict == verdict && ruling.failed == failed
      ensures !enough ==> !checked && Short(was)
      ensures !enough ==> events == old(events) + [Dispatched(r, false)]
    {
      verdict, failed, ruling := Unclassified, true, Dispatched(r, false);
      var instruction: string := *;
      enough := Round(r, false, "", instruction, checked, was, first);
      if !enough { return; }
      ghost var before := spent;
      verdict, failed := Moderate();
      ruling := Ruled(verdict, failed, spent - before);
    }
  }

  // ---- The course of a discussion ----------------------------------------------------------

  function Opening(blind: bool): seq<Event> {
    if blind then [Dispatched(0, true)] else []
  }

  // A round each: what the human had to say, the turns, and the classification.
  function RoundsOf(inbox: nat -> seq<string>, rulings: seq<Event>): seq<Event> {
    if rulings == [] then []
    else
      var n := |rulings|;
      RoundsOf(inbox, rulings[..n - 1]) + [Drained(n, inbox(n)), Dispatched(n, false), rulings[n - 1]]
  }

  // So far: whole rounds; or these, and the human's messages for the next.
  predicate Course(events: seq<Event>, blind: bool, inbox: nat -> seq<string>, rulings: seq<Event>) {
    events == Opening(blind) + RoundsOf(inbox, rulings)
  }

  predicate Drew(events: seq<Event>, blind: bool, inbox: nat -> seq<string>, rulings: seq<Event>) {
    events == Opening(blind) + RoundsOf(inbox, rulings) + [Drained(|rulings| + 1, inbox(|rulings| + 1))]
  }

  lemma RoundsOn(opening: seq<Event>, inbox: nat -> seq<string>, rulings: seq<Event>, e: Event)
    ensures var n := |rulings| + 1;
            opening + RoundsOf(inbox, rulings) + [Drained(n, inbox(n))] + [Dispatched(n, false)] + [e] == opening + RoundsOf(inbox, rulings + [e])
  {
    var n := |rulings| + 1;
    OneMoreRound(inbox, rulings, e);
    ThreeMore(opening, RoundsOf(inbox, rulings), Drained(n, inbox(n)), Dispatched(n, false), e);
  }

  lemma OneMoreRound(inbox: nat -> seq<string>, rulings: seq<Event>, e: Event)
    ensures var n := |rulings| + 1;
            RoundsOf(inbox, rulings + [e]) == RoundsOf(inbox, rulings) + [Drained(n, inbox(n)), Dispatched(n, false), e]
  {
    assert (rulings + [e])[..|rulings|] == rulings;
  }

  lemma ThreeMore<T>(x: seq<T>, y: seq<T>, a: T, b: T, c: T)
    ensures x + y + [a] + [b] + [c] == x + (y + [a, b, c])
  {
  }

  predicate NoneEnds(rulings: seq<Event>) {
    forall k :: 0 <= k < |rulings| ==> rulings[k].Ruled? && !rulings[k].Ends()
  }

  // The last classification ended the rounds; or, of these, agreed.
  predicate Ended(rulings: seq<Event>) {
    rulings != [] && rulings[|rulings| - 1].Ends()
  }

  predicate Agreed(rulings: seq<Event>) {
    Ended(rulings) && rulings[|rulings| - 1].verdict == Consensus
  }

  predicate Overspent(budget: real, spent: real, rulings: seq<Event>, cap: nat) {
    |rulings| < cap && !Ended(rulings) && budget > 0.0 && spent >= budget
  }

  // The rounds are over: at the cap, by a classification, or - the human's messages taken
  // once more - with the budget spent.
  predicate Rounded(events: seq<Event>, blind: bool, inbox: nat -> seq<string>, rulings: seq<Event>, over: bool, cap: nat) {
    && |rulings| <= cap && (rulings != [] ==> NoneEnds(rulings[..|rulings| - 1]))
    && (over || |rulings| == cap || Ended(rulings))
    && events == Opening(blind) + RoundsOf(inbox, rulings) + (if over then [Drained(|rulings| + 1, inbox(|rulings| + 1))] else [])
  }

  lemma AtTheCap(events: seq<Event>, blind: bool, inbox: nat -> seq<string>, rulings: seq<Event>, cap: nat)
    requires Course(events, blind, inbox, rulings) && NoneEnds(rulings) && |rulings| == cap
    ensures Rounded(events, blind, inbox, rulings, false, cap) && !Ended(rulings)
  {
    assert events == Opening(blind) + RoundsOf(inbox, rulings) + [];
  }

  lemma BudgetGone(events: seq<Event>, blind: bool, inbox: nat -> seq<string>, rulings: seq<Event>, cap: nat)
    requires NoneEnds(rulings) && |rulings| < cap
    requires Drew(events, blind, inbox, rulings)
    ensures Rounded(events, blind, inbox, rulings, true, cap) && !Ended(rulings)
  {
  }

  lemma RuledOn(front: seq<Event>, events: seq<Event>, blind: bool, inbox: nat -> seq<string>, rulings: seq<Event>, e: Event, cap: nat)
    requires NoneEnds(rulings) && e.Ruled? && |rulings| < cap
    requires Drew(front, blind, inbox, rulings)
    requires events == front + [Dispatched(|rulings| + 1, false)] + [e]
    ensures Course(events, blind, inbox, rulings + [e]) && (Ended(rulings + [e]) <==> e.Ends())
    ensures if e.Ends() then Rounded(events, blind, inbox, rulings + [e], false, cap) else NoneEnds(rulings + [e])
  {
    RoundsOn(Opening(blind), inbox, rulings, e);
    assert (rulings + [e])[..|rulings|] == rulings;
    assert events == Opening(blind) + RoundsOf(inbox, rulings + [e]) + [];
  }

  lemma FirstOfAll(front: seq<Event>, inbox: nat -> seq<string>, rulings: seq<Event>)
    requires rulings == [] && Drew(front, false, inbox, rulings)
    ensures front + [Dispatched(1, false)] == [Drained(1, inbox(1)), Dispatched(1, false)]
  {
  }

  /**
   * A discussion's course: the blind round if any, then round after round, ended by the
   * first classification that says so, by the cap or by the spent budget and by nothing
   * else, and one synthesis; agreed exactly when the last classification was.
   */
  predicate Played(events: seq<Event>, blind: bool, inbox: nat -> seq<string>, rulings: seq<Event>,
                   cap: nat, budget: real, spent: real, outcome: Outcome) {
    && events != [] && var last := events[|events| - 1];
    && last.Ruled? && (outcome.SynthesisFailed? <==> last.failed)
    && (outcome.Finished? ==> outcome.consensus == Agreed(rulings))
    && Rounded(events[..|events| - 1], blind, inbox, rulings, Overspent(budget, spent - last.cost, rulings, cap), cap)
  }

  lemma Last(front: seq<Event>, e: Event)
    ensures (front + [e])[..|front + [e]| - 1] == front
  {
  }

  lemma WholeLog(log: seq<Turn>)
    ensures log[..|log|] == log
  {
  }

  function LiveCount(seats: seq<Seat>): nat {
    if seats == [] then 0 else LiveCount(seats[..|seats| - 1]) + (if seats[|seats| - 1].dead then 0 else 1)
  }

  lemma {:induction false} LiveTurnsCount(seats: seq<Seat>, answers: seq<Answer>)
    requires |seats| == |answers|
    ensures |LiveTurns(seats, answers)| == LiveCount(seats)
    decreases |seats|
  {
    if seats != [] { LiveTurnsCount(seats[..|seats| - 1], answers[..|seats| - 1]); }
  }

  function CostOf(answers: seq<Answer>): real {
    if answers == [] then 0.0
    else CostOf(answers[..|answers| - 1]) + (if answers[|answers| - 1].Said? then answers[|answers| - 1].cost else 0.0)
  }

  lemma CostSnoc(answers: seq<Answer>, a: Answer)
    ensures CostOf(answers + [a]) == CostOf(answers) + (if a.Said? then a.cost else 0.0)
  {
    assert (answers + [a])[..|answers|] == answers;
  }

  lemma CostTaken(answers: seq<Answer>, i: nat)
    requires i < |answers|
    ensures CostOf(answers[..i + 1]) == CostOf(answers[..i]) + (if answers[i].Said? then answers[i].cost else 0.0)
  {
    CostSnoc(answers[..i], answers[i]);
    assert answers[..i + 1] == answers[..i] + [answers[i]];
  }

  lemma CostNext(answers: seq<Answer>, a: Answer)
    ensures CostOf(answers + [a]) == CostOf(answers) + CostOf([a])
  {
    CostSnoc(answers, a);
    CostSnoc([], a);
    assert [] + [a] == [a];
  }
}
