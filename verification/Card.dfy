/**
 * The card body as one run holds it, beside the copy the board keeps: every write
 * goes to both, the second best-effort, and only the second outlives the process.
 */
module Card {
  import opened Text
  import opened Sections
  import opened SectionLaws
  import opened SectionHead
  import opened History
  import opened GatesRecord
  import opened GatesRecordLaws
  import opened CommentKeys
  import opened Triage
  import opened TriageRecord

  // What a body bears of the gates: nothing yet, or the progress last recorded.
  datatype Mark = Absent | Present(st: GatesState) {
    function CI(): nat { if Present? then st.ciRounds else 0 }
    function Copilot(): nat { if Present? then st.copilotRounds else 0 }
    predicate Merged() { Present? && st.merged }
    predicate Satisfied() { Present? && st.satisfied }
  }

  predicate Counted(st: GatesState) {
    st.copilotRounds <= MAX_INT && st.ciRounds <= MAX_INT
  }

  predicate Bears(body: string, m: Mark) {
    match m
    case Absent => NoneOpens(Split(body), GatesOpener())
    case Present(st) => Holds(body, st) && Counted(st)
  }

  // A loaded state carries a mark's progress.
  predicate Carries(st: GatesState, m: Mark) {
    && st.ciRounds == m.CI() && st.copilotRounds == m.Copilot()
    && (m.Merged() ==> st.merged) && (m.Satisfied() ==> st.satisfied)
  }

  lemma {:induction false} FirstCounterBounded(ls: seq<string>, prefix: string)
    ensures FirstCounter(ls, prefix) <= MAX_INT
  {
    if ls != [] { FirstCounterBounded(ls[1..], prefix); }
  }

  lemma LoadCounted(body: string)
    ensures Counted(Load(body))
  {
    var section := Extract(body, GatesHeading());
    FirstCounterBounded(Split(section), CopilotPrefix());
    FirstCounterBounded(Split(section), CIPrefix());
  }

  /** What a body bears is what loading it recovers, an untouched body reading as no progress. */
  lemma BornIsLoaded(body: string, m: Mark)
    requires Bears(body, m)
    ensures Carries(Load(body), m)
  {
    match m
    case Absent =>
      assert ExtractLines(Split(body), GatesOpener()) == [];
    case Present(st) =>
      HeldIsRead(body, st);
  }

  lemma EmptyIsUntouched()
    ensures NoneOpens(Split(""), GatesOpener())
    ensures var st := Load(""); !st.satisfied && !st.merged && st.copilotRounds == 0
  {
    OpenerSkipsBlanks(GatesHeading());
    assert ExtractLines(Split(""), GatesOpener()) == [];
  }

  // The write of another section leaves standing what the body bears.
  predicate Spares(body: string, m: Mark, heading: string, section: string) {
    match m
    case Absent => NoneOpens(SectionLines(section), GatesOpener())
    case Present(st) => Spared(body, Header(st), heading, section)
  }

  /** A body goes on bearing what it bore through any other section's write exactly then. */
  lemma OtherKeepsMark(body: string, m: Mark, heading: string, section: string)
    requires Bears(body, m) && heading != GatesHeading()
    ensures Bears(Upsert(body, heading, section), m) <==> Spares(body, m, heading, section)
  {
    match m
    case Present(st) => HoldsThroughOthers(body, st, heading, section);
    case Absent =>
      OpenerSkipsBlanks(GatesHeading());
      AbsentStays(Split(body), Opener(heading), SectionLines(section), GatesOpener());
      SplitOfUpsert(body, heading, section);
  }

  lemma QuietIsSpared(body: string, m: Mark, heading: string, section: string)
    requires NoneOpens(SectionLines(section), GatesOpener())
    ensures Spares(body, m, heading, section)
  {
  }

  // A round of single-line findings spares any mark.
  lemma PlainRoundSpares(body: string, m: Mark, round: nat, cs: seq<Comment>, fs: seq<Finding>, unreadable: bool)
    requires Plain(fs)
    ensures Spares(body, m, RoundHeading(round), RoundText(round, cs, fs, unreadable))
  {
    RoundOpensNoGates(round, cs, fs, unreadable);
    QuietIsSpared(body, m, RoundHeading(round), RoundText(round, cs, fs, unreadable));
  }

  class CardBody {
    var body: string
    var durable: string
    // What the two copies bear, until text of a model's own passes for the section.
    ghost var mark: Mark
    ghost var kept: Mark
    ghost var forged: bool
    // The triage rounds recorded, kept by RecordRound alone.
    ghost var rounds: seq<Round>

    ghost predicate Valid()
      reads this
    {
      !forged ==> Bears(body, mark) && Bears(durable, kept)
    }

    constructor (text: string)
      ensures Valid() && body == text && durable == text
      ensures !forged <==> NoneOpens(Split(text), GatesOpener())
      ensures mark == kept == Absent
    {
      body, durable := text, text;
      mark, kept, rounds := Absent, Absent, [];
      forged := !NoneOpens(Split(text), GatesOpener());
    }

    method Load() returns (st: GatesState)
      requires Valid()
      ensures st == GatesRecord.Load(body) && Counted(st)
      ensures !forged ==> Carries(st, mark)
      ensures body == "" ==> !st.satisfied && !st.merged && st.copilotRounds == 0
    {
      EmptyIsUntouched();
      st := LoadGatesState(body);
      LoadCounted(body);
      if !forged { BornIsLoaded(body, mark); }
    }

    method Push()
      requires Valid()
      modifies this`durable, this`kept
      ensures Valid()
      ensures (durable == body && kept == mark) || (durable == old(durable) && kept == old(kept))
    {
      var landed: bool := *;
      if landed {
        durable, kept := body, mark;
      }
    }

    method Record(st: GatesState)
      requires Valid() && Counted(st)
      modifies this
      ensures Valid() && forged == old(forged)
      ensures body == Recorded(old(body), st) && mark == Present(st)
      ensures (durable == body && kept == mark) || (durable == old(durable) && kept == old(kept))
    {
      RecordedHolds(body, st);
      var text := RecordGates(body, st);
      Advance(text, Present(st));
    }

    // A new text for both copies that bears something new.
    method Advance(text: string, ghost m: Mark)
      requires Valid() && Bears(text, m)
      modifies this
      ensures Valid() && mark == m && body == text && forged == old(forged)
      ensures (durable == body && kept == mark) || (durable == old(durable) && kept == old(kept))
    {
      body, mark := text, m;
      Push();
    }

    // A section of another phase, or of an earlier part of this one.
    method RecordSection(heading: string, section: string)
      requires Valid() && heading != GatesHeading()
      modifies this
      ensures Valid() && mark == old(mark)
      ensures body == Upsert(old(body), heading, section)
      ensures forged <==> old(forged) || !Spares(old(body), mark, heading, section)
      ensures (durable == body && kept == mark) || (durable == old(durable) && kept == old(kept))
    {
      ghost var genuine := Spares(body, mark, heading, section);
      if !forged { OtherKeepsMark(body, mark, heading, section); }
      var text := UpsertSection(body, heading, section);
      Take(text, genuine);
    }

    // A triage round.
    method RecordRound(round: nat, comments: seq<Comment>, findings: seq<Finding>, unreadable: bool)
      requires Valid()
      modifies this
      ensures Valid() && mark == old(mark)
      ensures body == Upsert(old(body), RoundHeading(round), RoundText(round, comments, findings, unreadable))
      ensures rounds == old(rounds) + [Round(round, comments, findings, unreadable)]
      ensures forged <==> old(forged)
                          || !Spares(old(body), mark, RoundHeading(round), RoundText(round, comments, findings, unreadable))
      ensures Plain(findings) ==> forged == old(forged)
      ensures (durable == body && kept == mark) || (durable == old(durable) && kept == old(kept))
    {
      ghost var genuine := RoundSpares(round, comments, findings, unreadable);
      rounds := rounds + [Round(round, comments, findings, unreadable)];
      var text := RecordCopilotRound(body, round, comments, findings, unreadable);
      Take(text, genuine);
    }

    lemma RoundSpares(round: nat, cs: seq<Comment>, fs: seq<Finding>, unreadable: bool) returns (genuine: bool)
      requires Valid()
      ensures genuine <==> Spares(body, mark, RoundHeading(round), RoundText(round, cs, fs, unreadable))
      ensures Plain(fs) ==> genuine
      ensures !forged && genuine ==> Bears(Upsert(body, RoundHeading(round), RoundText(round, cs, fs, unreadable)), mark)
    {
      genuine := Spares(body, mark, RoundHeading(round), RoundText(round, cs, fs, unreadable));
      RoundIsNotGates(round);
      if !forged { OtherKeepsMark(body, mark, RoundHeading(round), RoundText(round, cs, fs, unreadable)); }
      if Plain(fs) { PlainRoundSpares(body, mark, round, cs, fs, unreadable); }
    }

    // The same, for a caller that asks which rounds were recorded, and whether single-line
    // findings can forge.
    method NoteRound(round: nat, comments: seq<Comment>, findings: seq<Finding>, unreadable: bool)
      requires Valid()
      modifies this
      ensures Valid() && mark == old(mark) && (old(forged) ==> forged)
      ensures rounds == old(rounds) + [Round(round, comments, findings, unreadable)]
      ensures Plain(findings) ==> forged == old(forged)
      ensures (durable == body && kept == mark) || (durable == old(durable) && kept == old(kept))
    {
      RecordRound(round, comments, findings, unreadable);
    }

    // A new text for both copies, bearing what the old one did unless it was forged.
    method Take(text: string, ghost genuine: bool)
      requires Valid() && (!forged && genuine ==> Bears(text, mark))
      modifies this
      ensures Valid() && mark == old(mark) && body == text && rounds == old(rounds)
      ensures forged <==> old(forged) || !genuine
      ensures (durable == body && kept == mark) || (durable == old(durable) && kept == old(kept))
    {
      body := text;
      forged := forged || !genuine;
      Push();
    }

    // The next process starts from what the board kept.
    method Reload() returns (ghost lost: bool)
      requires Valid()
      modifies this
      ensures Valid() && forged == old(forged) && durable == old(durable) && kept == old(kept)
      ensures body == durable && mark == kept
      ensures lost <==> old(body != durable)
      ensures !lost && !forged ==> kept.CI() == old(mark.CI()) && kept.Copilot() == old(mark.Copilot())
    {
      lost := body != durable;
      if !lost && !forged {
        BornIsLoaded(body, mark);
        BornIsLoaded(durable, kept);
      }
      body, mark := durable, kept;
    }

    method StartAfresh()
      requires Valid()
      modifies this
      ensures Valid() && mark == Absent && (!forged ==> kept == Absent)
    {
      Forget();
    }

    // forgetFinishedRun: the finished run's gates and triage sections leave the body.
    method Forget()
      requires Valid()
      modifies this
      ensures Valid()
      ensures body == RemoveWithPrefix(Remove(old(body), GatesHeading()), CopilotHeading())
      ensures mark == Absent && (!forged ==> kept == Absent)
      ensures forged <==> !NoneOpens(Split(body), GatesOpener()) || (durable != body && !NoneOpens(Split(durable), GatesOpener()))
      ensures durable == body || durable == old(durable)
    {
      var cleared := RemoveSection(body, GatesHeading());
      var clean := RemoveSectionsWithPrefix(cleared, CopilotHeading());
      if clean != body {
        body := clean;
        var landed: bool := *;
        if landed { durable := body; }
      }
      mark, kept := Absent, Absent;
      forged := !NoneOpens(Split(body), GatesOpener()) || (durable != body && !NoneOpens(Split(durable), GatesOpener()));
    }
  }
}
