/**
 * The PR gates of one run: the Copilot gate, the CI gate, the late probe and the
 * merge, as the poll and fix loops they are. Every gh, git and model call answers
 * whatever it likes, every write may be lost, and the process may end at any of
 * them; Live is what every step keeps all the same.
 */
module Gates {
  import opened Wrappers
  import GatesRecord
  import opened Seqs
  import opened CommentKeys
  import opened Triage
  import opened TriageRecord
  import opened Card

  type GatesState = GatesRecord.GatesState
  const CAP: nat := GatesRecord.ROUNDS_CAP

  // In seconds.
  const NO_CHECKS_GRACE: nat := 180
  const FIX_ROUND_RESERVE: nat := 300
  const CODER_ALLOWANCE: nat := 120
  const COPILOT_RECHECK: nat := 10
  const COPILOT_GRACE_WAIT: nat := 300

  function GraceRetry(n: nat): nat
    requires n < 2
  {
    if n == 0 then 60 else 180
  }

  // ---- What the outside answers -------------------------------------------------------

  datatype Check = Check(name: string, bucket: string, link: string)
  datatype PollError = Fine | Transient | Permanent
  datatype Review = Review(commit: string, comments: seq<Comment>)
  datatype Requested = Asked(yes: bool) | AskFailed(text: string)
  datatype Outcome = ReviewerPresent | Unavailable | Unconfirmed | Indeterminate | ConfirmCheckFailed
  datatype FixError = NoError | MaxTurns | NoBudget | ReviewParked | OtherError
  datatype Merging = MergeDone | MergeRefused | Cancelled

  // ---- How a gate ends ----------------------------------------------------------------

  datatype Why =
    | NoPR | CIUnreadable | NoTimeForFix | WaitOver | CapSpent
    | BudgetSpent | TurnsSpent | FixParked | NoChange | RefusedMerge

  // Gone is the end of the process or of its context; Broken any other error.
  datatype Err = Nil | Parked(why: Why) | Broken | Gone

  datatype Cycle = Satisfied | AwaitReview | AwaitGrace

  // What the last poll answered, whether a check was ever on an answer of this process,
  // and whether the probe behind that poll proved that none will come.
  datatype Polls = Polls(checks: seq<Check>, error: PollError, ever: bool, none: bool) {
    predicate Green() { error != Permanent && AllGreen(checks) }
  }

  // How often a review was looked for, and the latest one read.
  datatype Looked = Looked(looks: nat, latest: Option<Review>)

  // The head read after the latest review; what the last request since the last push was
  // answered, whether with the proven refusal, and the last listing since.
  datatype Heard = Heard(head: Option<string>, posted: Option<Requested>, refused: bool, listed: Option<Requested>) {
    predicate Listed() {
      posted == Some(Asked(true)) || listed == Some(Asked(true))
    }

    // A review was asked for, or the listing gave no cause to.
    predicate Sought() {
      posted.Some? || (listed.Some? && listed.value != Asked(false))
    }
  }

  // What the card's rounds read as, and how many calls of the triage there were by then.
  datatype OnCard = OnCard(seen: Seen, at: nat)

  // One call of the triage: what it was asked about, and its reply.
  datatype Triaging = Triaging(novel: seq<Comment>, reply: Answer) {
    // One entry per comment, or none that can be read.
    predicate Full() {
      reply.Read? ==> reply.findings == [] || |reply.findings| == |novel|
    }
  }

  // Answers fixed in advance, for one run to be followed to its end: no call fails, no
  // review is there before a check was seen, and Late is from then on.
  datatype Answers = Answers(checks: seq<Check>, late: Review, reply: Answer, post: Requested)

  // How a fix round can end a gate.
  predicate FixEnd(err: Err) {
    err == Broken || err == Gone || (err.Parked? && err.why in {CapSpent, BudgetSpent, TurnsSpent, FixParked, NoChange})
  }

  function NoPolls(): Polls { Polls([], Fine, false, false) }
  function NothingLooked(): Looked { Looked(0, None) }
  function NothingHeard(): Heard { Heard(None, None, false, None) }

  function Left(rounds: nat): nat {
    if rounds < CAP then CAP - rounds else 0
  }

  // ---- Checks ---------------------------------------------------------------------------

  predicate Failing(c: Check) { c.bucket == "fail" || c.bucket == "cancel" }
  predicate Passing(c: Check) { c.bucket == "pass" || c.bucket == "skipping" }

  datatype Buckets = Buckets(failed: seq<Check>, pending: nat, passing: nat)

  predicate AllGreen(checks: seq<Check>) {
    checks != [] && forall c :: c in checks ==> Passing(c)
  }

  // A check is failed, passing or - in any other bucket - still pending.
  method ClassifyChecks(checks: seq<Check>) returns (b: Buckets)
    ensures |b.failed| + b.pending + b.passing == |checks|
    ensures forall c :: c in b.failed <==> c in checks && Failing(c)
    ensures b.failed == [] && b.pending == 0 && b.passing > 0 <==> AllGreen(checks)
    ensures b.pending == 0 <==> forall c :: c in checks ==> Failing(c) || Passing(c)
  {
    b := Buckets([], 0, 0);
    for i := 0 to |checks|
      invariant |b.failed| + b.pending + b.passing == i
      invariant forall c :: c in b.failed <==> c in checks[..i] && Failing(c)
      invariant b.failed == [] && b.pending == 0 <==> forall c :: c in checks[..i] ==> Passing(c)
      invariant b.pending == 0 <==> forall c :: c in checks[..i] ==> Failing(c) || Passing(c)
    {
      var c := checks[i];
      assert checks[..i + 1] == checks[..i] + [c];
      if Failing(c) {
        b := b.(failed := b.failed + [c]);
      } else if Passing(c) {
        b := b.(passing := b.passing + 1);
      } else {
        b := b.(pending := b.pending + 1);
      }
    }
    assert checks[..|checks|] == checks;
  }

  // No check is pending and some failed.
  predicate SettledRedOf(checks: seq<Check>) {
    (exists c :: c in checks && Failing(c)) && forall c :: c in checks ==> Failing(c) || Passing(c)
  }

  // What a poll shows the gate. Hopeless is a failure that would repeat on every poll,
  // Failed one that would not, Nothing an answer without a check on it.
  datatype Sight = Hopeless | Failed | Nothing | SettledRed(failed: seq<Check>) | Unsettled | AllPassed

  // ---- The proven "Copilot cannot review here" text ------------------------------------

  function UnavailableText(): string { "Copilot isn't available for this repository" }

  predicate Contains(s: string, p: string) {
    p <= s || (s != "" && Contains(s[1..], p))
  }

  /** A text holds another exactly when the other stands in it at some place. */
  lemma {:induction false} ContainsMeans(s: string, p: string)
    ensures Contains(s, p) <==> exists i :: 0 <= i <= |s| && p <= s[i..]
    decreases |s|
  {
    if Contains(s, p) {
      if p <= s {
        assert s[0..] == s;
      } else {
        ContainsMeans(s[1..], p);
        var i :| 0 <= i <= |s| - 1 && p <= s[1..][i..];
        assert s[1..][i..] == s[i + 1..];
      }
    }
    if i :| 0 <= i <= |s| && p <= s[i..] {
      if i == 0 {
        assert s[0..] == s;
      } else {
        assert s[i..] == s[1..][i - 1..];
        ContainsMeans(s[1..], p);
      }
    }
  }

  predicate IsUnavailable(text: string) {
    Contains(text, UnavailableText())
  }

  predicate Refusal(r: Requested) {
    r.AskFailed? && IsUnavailable(r.text)
  }

  lemma {:induction false} ContainsInside(lead: string, s: string, tail: string, p: string)
    requires Contains(s, p)
    ensures Contains(lead + s + tail, p)
    decreases |lead| + |s|
  {
    var t := lead + s + tail;
    if lead != "" {
      assert t[1..] == lead[1..] + s + tail;
      ContainsInside(lead[1..], s, tail, p);
    } else if !(p <= s) {
      assert t[1..] == "" + s[1..] + tail;
      ContainsInside("", s[1..], tail, p);
    } else {
      assert t == s + tail;
    }
  }

  // ---- What a review comes to ------------------------------------------------------------

  // Whether a review asks for a triage: it has a new comment, or none at all.
  predicate Asks(comments: seq<Comment>, triaged: Seen) {
    comments == [] || Unseen(comments, triaged) != []
  }

  // The verdicts after a round: those on record, and the new comments' own.
  function Recalled(comments: seq<Comment>, triaged: Seen, fs: seq<Finding>): Seen {
    Noted(triaged, Unseen(comments, triaged), Verdicts(Unseen(comments, triaged), fs))
  }

  predicate NothingOpen(comments: seq<Comment>, triaged: Seen, fs: seq<Finding>) {
    StillOpen(comments, triaged) == [] && ValidOnly(fs) == []
  }

  // The verdicts known after these calls of the triage, from those on record before them.
  function TriagedAfter(known: Seen, log: seq<Triaging>, unreadable: string, unjudged: string): Seen {
    if log == [] then known
    else
      var n := |log| - 1;
      var fs := Standing(log[n].reply, log[n].novel, unreadable, unjudged);
      Noted(TriagedAfter(known, log[..n], unreadable, unjudged), log[n].novel, Verdicts(log[n].novel, fs))
  }

  // A review with these comments is addressed by these calls: the last was about its new
  // comments, or it has none and none was needed; nothing of it is open then, and every
  // comment is INVALID exactly when each new one was judged.
  predicate Addressed(comments: seq<Comment>, known: Seen, log: seq<Triaging>, unreadable: string, unjudged: string) {
    || AddressedBy(comments, TriagedAfter(known, log, unreadable, unjudged))
    || (log != [] && var n := |log| - 1;
        AddressedWith(comments, TriagedAfter(known, log[..n], unreadable, unjudged), log[n], unreadable, unjudged))
  }

  predicate AddressedBy(comments: seq<Comment>, known: Seen) {
    !Asks(comments, known) && NothingOpen(comments, known, []) && Dismissal(comments, known, [], true)
  }

  predicate AddressedWith(comments: seq<Comment>, known: Seen, t: Triaging, unreadable: string, unjudged: string) {
    var fs := Standing(t.reply, t.novel, unreadable, unjudged);
    && Asks(comments, known) && t.novel == Unseen(comments, known)
    && NothingOpen(comments, known, fs) && Dismissal(comments, known, fs, t.Full())
  }

  // What one review adds: at most the call about it.
  lemma CycleAdds(comments: seq<Comment>, known: Seen, log: seq<Triaging>, unreadable: string, unjudged: string)
    requires if Asks(comments, known) then |log| == 1 && log[0].novel == Unseen(comments, known) else log == []
    ensures var fs := if log == [] then [] else Standing(log[0].reply, log[0].novel, unreadable, unjudged);
            && TriagedAfter(known, log, unreadable, unjudged) == Recalled(comments, known, fs)
            && (NothingOpen(comments, known, fs) && Dismissal(comments, known, fs, log == [] || log[0].Full()) ==>
                  Addressed(comments, known, log, unreadable, unjudged))
  {
    if log == [] {
      NothingNoted(known, []);
    } else {
      assert log[..0] == [];
    }
  }

  lemma {:induction false} TriagedOn(known: Seen, x: seq<Triaging>, y: seq<Triaging>, unreadable: string, unjudged: string)
    ensures TriagedAfter(known, x + y, unreadable, unjudged) ==
            TriagedAfter(TriagedAfter(known, x, unreadable, unjudged), y, unreadable, unjudged)
    decreases |y|
  {
    if y == [] {
      assert x + y == x;
    } else {
      LastOf(x, y);
      TriagedOn(known, x, y[..|y| - 1], unreadable, unjudged);
    }
  }

  // A review addressed by later calls is addressed by all of them.
  lemma AddressedOn(comments: seq<Comment>, known: Seen, x: seq<Triaging>, y: seq<Triaging>, unreadable: string, unjudged: string)
    requires Addressed(comments, TriagedAfter(known, x, unreadable, unjudged), y, unreadable, unjudged)
    ensures Addressed(comments, known, x + y, unreadable, unjudged)
  {
    TriagedOn(known, x, y, unreadable, unjudged);
    if y != [] {
      LastOf(x, y);
      TriagedOn(known, x, y[..|y| - 1], unreadable, unjudged);
    }
  }

  // The log of triage calls grew by the one about these comments.
  predicate AskedAbout(before: seq<Triaging>, after: seq<Triaging>, novel: seq<Comment>, fixed: Option<Answers>) {
    && |after| == |before| + 1 && after[..|before|] == before && after[|before|].novel == novel
    && (fixed.Some? ==> after[|before|].reply == fixed.value.reply)
  }

  // What a satisfied gate says of the comments: all are on record as INVALID exactly when
  // each new one was judged - as a full reply does.
  predicate Dismissal(comments: seq<Comment>, triaged: Seen, fs: seq<Finding>, full: bool) {
    var seen := Recalled(comments, triaged, fs);
    && (AllInvalid(comments, seen) <==> AllJudged(Unseen(comments, triaged), fs))
    && (full ==> AllInvalid(comments, seen))
  }

  lemma SatisfiedDismisses(comments: seq<Comment>, triaged: Seen, fs: seq<Finding>, full: bool)
    requires NothingOpen(comments, triaged, fs) && (full ==> AllJudged(Unseen(comments, triaged), fs))
    ensures Dismissal(comments, triaged, fs, full)
  {
    SatisfiedMeansDismissed(comments, triaged, fs);
  }

  predicate OnlyRepeats(comments: seq<Comment>, triaged: Seen) {
    Unseen(comments, triaged) == [] && StillOpen(comments, triaged) == []
  }

  lemma RepeatsDismissed(comments: seq<Comment>, triaged: Seen)
    requires OnlyRepeats(comments, triaged)
    ensures Recalled(comments, triaged, []) == triaged && NothingOpen(comments, triaged, [])
    ensures Dismissal(comments, triaged, [], true)
  {
    NothingNoted(triaged, []);
    SatisfiedDismisses(comments, triaged, [], true);
  }

  lemma NothingNoted(seen: Seen, fs: seq<Finding>)
    ensures Noted(seen, [], Verdicts([], fs)) == seen
  {
  }

  // Answers that let a fix slip past CI: green checks, then a late review the triage finds
  // a real defect in, and a refusal of the re-request behind its fix.
  predicate Slips(a: Answers) {
    && AllGreen(a.checks)
    && a.late.commit != "" && a.late.comments == []
    && a.reply.Read? && ValidOnly(a.reply.findings) != []
    && Refusal(a.post)
  }

  predicate Bounded(m: Mark) {
    m.CI() <= CAP && m.Copilot() <= CAP
  }

  // The rounds started never outrun the rounds counted, but for the processes that ended
  // with a write the board did not keep; and a merge once kept is on both copies.
  predicate Sound(mark: Mark, kept: Mark, ci: nat, copilot: nat, stale: nat, mergeKept: bool) {
    && Bounded(mark) && Bounded(kept)
    && ci <= mark.CI() + 3 * stale && copilot <= mark.Copilot() + 3 * stale
    && (mergeKept ==> mark.Merged() && kept.Merged())
  }

  lemma ValidStays(a: Answers, t: Triaging, triaged: Seen, unreadable: string, unjudged: string)
    requires Slips(a) && t == Triaging(Unseen([], triaged), a.reply)
    ensures Asks(a.late.comments, triaged)
    ensures !NothingOpen(a.late.comments, triaged, Standing(t.reply, t.novel, unreadable, unjudged))
  {
  }

  // ---- The run ------------------------------------------------------------------------------

  class Run {
    const card: CardBody
    const awaitCI: bool
    const awaitCopilot: bool
    const mergePR: bool
    const createPR: bool
    const poll: nat
    const ciWait: nat
    const copilotWait: nat
    // With none, every answer is arbitrary.
    const fixed: Option<Answers>
    // What the card says of a comment the triage's reply did not judge.
    const unreadable: string
    const unjudged: string

    var lifeEnd: Option<nat>
    var now: nat
    var st: GatesState
    var ciSawChecks: bool
    var ciObservedSettle: nat
    var fixBarSteps: nat

    // Over all processes since the card was fresh.
    ghost var ciStarted: nat
    ghost var copilotStarted: nat
    ghost var mergeCalls: nat
    ghost var stale: nat
    // An earlier process left the merge on the board's record.
    ghost var mergeKept: bool
    // Kept by the calls to the outside: what this process was answered, and whether a
    // fix was committed since the last poll of the checks.
    ghost var polls: Polls
    ghost var looked: Looked
    ghost var heard: Heard
    ghost var asked: seq<Triaging>
    ghost var pushed: bool
    // Kept by the readers of the card: the verdicts a Copilot gate or late check started
    // from, and whether the card read as satisfied when the phase began.
    ghost var onCard: OnCard
    ghost var wasSatisfied: bool
    // The board answered that the card is moved to done.
    ghost var atDone: bool
    // What the branch answered when it was asked for a PR of its own.
    ghost var onBranch: Option<string>

    // What every call to the outside finds and leaves, and all that the next process asks
    // for: this one may end in any of them.
    ghost predicate Safe()
      reads this`ciStarted, this`copilotStarted, this`stale, this`mergeKept, card
    {
      card.Valid() && (!card.forged ==> Sound(card.mark, card.kept, ciStarted, copilotStarted, stale, mergeKept))
    }

    ghost predicate Inv()
      reads this`st, this`ciSawChecks, this`polls, this`ciStarted, this`copilotStarted, this`stale, this`mergeKept, card
    {
      Safe() && 0 < poll && Counted(st) && (ciSawChecks <==> polls.ever)
    }

    // While a gate runs, the state in hand is what the body bears.
    ghost predicate Live()
      reads this`st, this`ciSawChecks, this`polls, this`ciStarted, this`copilotStarted, this`stale, this`mergeKept, card
    {
      Inv() && (!card.forged ==> Carries(st, card.mark))
    }

    constructor (body: CardBody, awaitCI: bool, awaitCopilot: bool, mergePR: bool, createPR: bool,
                 poll: nat, ciWait: nat, copilotWait: nat, lifeEnd: Option<nat>, fixed: Option<Answers>)
      requires body.Valid() && 0 < poll && body.mark == Absent && (!body.forged ==> body.kept == Absent)
      ensures this.awaitCI == awaitCI && this.awaitCopilot == awaitCopilot && this.mergePR == mergePR
      ensures this.fixed == fixed && !ciSawChecks
      ensures Inv() && card == body && stale == 0 && ciStarted == 0 && copilotStarted == 0 && mergeCalls == 0 && !mergeKept
    {
      card := body;
      this.awaitCI, this.awaitCopilot, this.mergePR, this.createPR := awaitCI, awaitCopilot, mergePR, createPR;
      this.poll, this.ciWait, this.copilotWait, this.lifeEnd := poll, ciWait, copilotWait, lifeEnd;
      this.fixed := fixed;
      var says: string, saysToo: string := *, *;
      unreadable, unjudged := says, saysToo;
      now := 0;
      st := GatesState.GatesState(0, 0, false, false, "", "", "");
      ciSawChecks, ciObservedSettle, fixBarSteps := false, 0, 0;
      ciStarted, copilotStarted, mergeCalls, stale := 0, 0, 0, 0;
      polls, looked, heard, asked, pushed := NoPolls(), NothingLooked(), NothingHeard(), [], false;
      onCard, wasSatisfied := OnCard(map[], 0), false;
      mergeKept := false;
    }

    // ---- Oracles ----------------------------------------------------------------------------

    method Elapse()
      requires Safe()
      modifies this`now
      ensures now >= old(now)
    {
      var d: int := *;
      now := if d < 0 then now else now + d;
    }

    // The latest review, when it is of the head read after it.
    ghost function OnHead(): Option<Review>
      reads this`looked, this`heard
    {
      if looked.latest.Some? && heard.head.Some? && heard.head.value != "" && looked.latest.value.commit == heard.head.value
      then looked.latest else None
    }

    // Asked for or listed, no review of the head and no request turned up until the wait, or the shorter grace
    // for a request that did not take, was over.
    ghost predicate NoneCame(wait: nat, grace: nat)
      reads this`looked, this`heard, this`now
    {
      heard.Sought() && OnHead() == None && (now > wait || (now > grace && heard.listed != Some(Asked(true))))
    }

    // The request was refused for good, and the card says so.
    ghost predicate Refused()
      reads this`heard, this`st
    {
      heard.refused && IsUnavailable(st.copilotDetail)
    }

    // When the shorter of the gate's two waits is over.
    ghost function FirstDue(): nat
      reads this`now, this`lifeEnd
    {
      if copilotWait < COPILOT_GRACE_WAIT then GateDeadline(copilotWait) else GateDeadline(COPILOT_GRACE_WAIT)
    }

    // Whether the process, or its context, is still there after a step.
    method Alive() returns (alive: bool)
      ensures fixed.Some? ==> alive
    {
      alive := *;
      if fixed.Some? { alive := true; }
    }

    // False when the context ended while asleep.
    method Sleep(d: nat) returns (alive: bool)
      requires Safe()
      modifies this`now
      ensures now >= old(now) + d && (fixed.Some? ==> alive)
    {
      now := now + d;
      Elapse();
      alive := Alive();
    }

    method Checks() returns (checks: seq<Check>, error: PollError)
      requires Safe()
      modifies this`now, this`polls, this`pushed
      ensures now >= old(now)
      ensures polls == Polls(checks, error, old(polls.ever) || checks != [], false) && !pushed
      ensures fixed.Some? ==> checks == fixed.value.checks && error == Fine
    {
      Elapse();
      checks, error := *, *;
      if fixed.Some? { checks, error := fixed.value.checks, Fine; }
      polls, pushed := Polls(checks, error, polls.ever || checks != [], false), false;
    }

    // noCIConfigured: no signal anywhere, every lookup having answered.
    method NoCIConfigured() returns (none: bool)
      requires Safe()
      modifies this`now, this`polls
      ensures now >= old(now) && polls == old(polls).(none := none)
    {
      Elapse();
      none := *;
      polls := polls.(none := none);
    }

    method LatestReview() returns (review: Option<Review>, failed: bool)
      requires Safe()
      modifies this`now, this`looked, this`heard
      ensures now >= old(now)
      ensures looked == Looked(old(looked.looks) + 1, if failed then None else review) && heard == old(heard).(head := None)
      ensures fixed.Some? ==> !failed && review == if ciSawChecks then Some(fixed.value.late) else None
    {
      Elapse();
      review, failed := *, *;
      if fixed.Some? { review, failed := if ciSawChecks then Some(fixed.value.late) else None, false; }
      looked, heard := Looked(looked.looks + 1, if failed then None else review), heard.(head := None);
    }

    method HeadSHA() returns (head: string, failed: bool)
      requires Safe()
      modifies this`now, this`heard
      ensures now >= old(now)
      ensures heard == old(heard).(head := Some(if failed then "" else head))
      ensures fixed.Some? ==> !failed && head == fixed.value.late.commit
    {
      Elapse();
      head, failed := *, *;
      if fixed.Some? { head, failed := fixed.value.late.commit, false; }
      heard := heard.(head := Some(if failed then "" else head));
    }

    method CopilotRequested() returns (r: Requested)
      requires Safe()
      modifies this`now, this`heard
      ensures now >= old(now) && heard == old(heard).(listed := Some(r))
      ensures fixed.Some? ==> r == Asked(true)
    {
      Elapse();
      r := *;
      if fixed.Some? { r := Asked(true); }
      heard := heard.(listed := Some(r));
    }

    method PostRequest() returns (r: Requested)
      requires Safe()
      modifies this`now, this`heard
      ensures now >= old(now) && heard == old(heard).(posted := Some(r), refused := Refusal(r), listed := None)
      ensures fixed.Some? ==> r == fixed.value.post
    {
      Elapse();
      r := *;
      if fixed.Some? { r := fixed.value.post; }
      heard := heard.(posted := Some(r), refused := Refusal(r), listed := None);
    }

    method Text() returns (s: string)
    {
      s := *;
    }

    // A card line that quotes a reason verbatim.
    method Line(reason: string) returns (s: string)
      ensures IsUnavailable(reason) ==> IsUnavailable(s)
      ensures fixed.Some? ==> s == reason
    {
      if fixed.Some? { return reason; }
      var lead: string, tail: string := *, *;
      s := lead + reason + tail;
      if IsUnavailable(reason) { ContainsInside(lead, reason, tail, UnavailableText()); }
    }

    method Funded() returns (funded: bool)
      ensures fixed.Some? ==> funded
    {
      funded := *;
      if fixed.Some? { funded := true; }
    }

    // One call of the triage model.
    method AskTriage(novel: seq<Comment>) returns (reply: Answer, error: FixError)
      requires Safe()
      modifies this`now, this`asked
      ensures now >= old(now)
      ensures asked == if error == NoError then old(asked) + [Triaging(novel, reply)] else old(asked)
      ensures fixed.Some? ==> error == NoError && reply == fixed.value.reply
    {
      Elapse();
      reply, error := *, *;
      if fixed.Some? { reply, error := fixed.value.reply, NoError; }
      if error == NoError { asked := asked + [Triaging(novel, reply)]; }
    }

    // One fix run, counted where it starts; a commit it lands is a new head. The card must
    // bear the round before: the process may end in it.
    method RunFix(ci: bool) returns (committed: bool, error: FixError, wider: bool)
      requires Safe()
      requires card.forged || (if ci then ciStarted < card.mark.CI() + 3 * stale else copilotStarted < card.mark.Copilot() + 3 * stale)
      modifies this`now, this`fixBarSteps, this`ciStarted, this`copilotStarted, this`pushed, this`heard
      ensures Safe() && now >= old(now) && fixBarSteps >= old(fixBarSteps)
      ensures ciStarted == old(ciStarted) + (if ci then 1 else 0)
      ensures copilotStarted == old(copilotStarted) + (if ci then 0 else 1)
      ensures pushed == (old(pushed) || committed)
      ensures heard == if committed then old(heard).(head := None, posted := None, refused := false, listed := None) else old(heard)
      ensures fixed.Some? ==> committed && error == NoError
    {
      Elapse();
      if ci { ciStarted := ciStarted + 1; } else { copilotStarted := copilotStarted + 1; }
      committed, error, wider := *, *, *;
      if fixed.Some? { committed, error := true, NoError; }
      var climbed: int := *;
      fixBarSteps := if climbed < 0 then fixBarSteps else fixBarSteps + climbed;
      pushed := pushed || committed;
      if committed { heard := heard.(head := None, posted := None, refused := false, listed := None); }
    }

    // Never asked for with the merge on the board's record.
    method MergePullRequest() returns (r: Merging)
      requires Safe() && (card.forged || !mergeKept)
      modifies this`now, this`mergeCalls
      ensures now >= old(now) && mergeCalls == old(mergeCalls) + 1
      ensures fixed.Some? ==> r == MergeDone
    {
      Elapse();
      mergeCalls := mergeCalls + 1;
      r := *;
      if fixed.Some? { r := MergeDone; }
    }

    // ---- Writing the progress ------------------------------------------------------------------

    function GateDeadline(wait: nat): nat
      reads this`lifeEnd, this`now
    {
      if lifeEnd.Some? && lifeEnd.value < now + wait then lifeEnd.value else now + wait
    }

    // A wait is over in its own time, or with the process when that comes first.
    lemma DeadlineIsTheEarlier(wait: nat)
      ensures GateDeadline(wait) <= now + wait && (lifeEnd.Some? ==> GateDeadline(wait) <= lifeEnd.value)
      ensures GateDeadline(wait) == now + wait || lifeEnd == Some(GateDeadline(wait))
    {
    }

    // recordGates. False when the process ends with it, whether or not the write landed.
    method Save() returns (alive: bool)
      requires card.Valid() && 0 < poll && Counted(st) && (ciSawChecks <==> polls.ever)
      requires !card.forged ==>
                 && Bounded(card.kept) && st.ciRounds <= CAP && st.copilotRounds <= CAP
                 && ciStarted <= st.ciRounds + 3 * stale && copilotStarted <= st.copilotRounds + 3 * stale
                 && (mergeKept ==> st.merged && card.kept.Merged())
      modifies card
      ensures Live() && card.forged == old(card.forged) && card.mark == Present(st)
      ensures card.kept == card.mark || card.kept == old(card.kept)
      ensures fixed.Some? ==> alive
    {
      card.Record(st);
      alive := Alive();
    }

    // The same of a state whose progress the card bears already.
    method Keep() returns (err: Err)
      requires Live()
      modifies card
      ensures Live() && card.forged == old(card.forged) && card.mark == Present(st) && (err == Nil || err == Gone)
      ensures card.kept == card.mark || card.kept == old(card.kept)
      ensures fixed.Some? ==> err == Nil
    {
      var alive := Save();
      err := if alive then Nil else Gone;
    }

    method Park(why: Why) returns (err: Err)
      requires Live()
      modifies this`st, card
      ensures Live() && card.forged == old(card.forged) && (err == Parked(why) || err == Gone)
      ensures st == old(st).(status := st.status) && card.mark == Present(st)
      ensures card.kept == card.mark || card.kept == old(card.kept)
    {
      var status := Text();
      st := st.(status := status);
      err := Keep();
      if err == Nil { err := Parked(why); }
    }

    // ---- Requesting and awaiting a review -----------------------------------------------

    // copilotReviewOnHead: the latest review when it is of the head read after it, any
    // read failure counting as none.
    method ReviewOnHead() returns (found: Option<Review>)
      requires Safe()
      modifies this`now, this`looked, this`heard
      ensures now >= old(now) && looked.looks > old(looked.looks)
      ensures found == OnHead() && (looked.latest.Some? ==> heard.head.Some?)
      ensures heard == old(heard).(head := heard.head)
      ensures fixed.Some? && fixed.value.late.commit != "" ==> found == if ciSawChecks then Some(fixed.value.late) else None
    {
      var review, failed := LatestReview();
      if failed || review.None? { return None; }
      var sha, unread := HeadSHA();
      if unread || sha == "" || review.value.commit != sha { return None; }
      found := review;
    }

    // requestCopilotReview: Unavailable on the proven refusal alone, with its text.
    method RequestReview() returns (reason: string, outcome: Outcome, alive: bool)
      requires Safe()
      modifies this`now, this`heard
      ensures now >= old(now) && (fixed.Some? ==> alive && heard.refused == Refusal(fixed.value.post))
      ensures heard.posted.Some?
      ensures alive ==> (outcome == Unavailable <==> heard.refused)
      ensures alive ==> (outcome == Indeterminate <==> heard.posted.value.AskFailed? && !heard.refused)
      ensures alive ==> (outcome == ReviewerPresent <==> heard.Listed())
      ensures alive ==> (outcome == Unconfirmed <==> heard.posted.value == Asked(false) && heard.listed == Some(Asked(false)))
      ensures alive && outcome == Unavailable ==> heard.posted == Some(AskFailed(reason)) && IsUnavailable(reason)
    {
      var posted := PostRequest();
      if posted.AskFailed? {
        return posted.text, if IsUnavailable(posted.text) then Unavailable else Indeterminate, true;
      }
      if posted.yes { return "", ReviewerPresent, true; }
      alive := Sleep(COPILOT_RECHECK);
      if !alive { return "", Indeterminate, false; }
      var listed := CopilotRequested();
      if listed.AskFailed? { return listed.text, ConfirmCheckFailed, true; }
      if !listed.yes {
        reason := Text();
        return reason, Unconfirmed, true;
      }
      return "", ReviewerPresent, true;
    }

    method EnsureReviewer() returns (reason: string, outcome: Outcome, alive: bool)
      requires Safe()
      modifies this`now, this`heard
      ensures now >= old(now)
      ensures alive && outcome == Unavailable ==> heard.refused && IsUnavailable(reason)
      ensures alive && outcome == ReviewerPresent ==> heard.Listed()
      ensures alive ==> heard.Sought() && (outcome == Unconfirmed ==> heard.posted.Some?)
      ensures fixed.Some? ==> alive && outcome == ReviewerPresent
    {
      var requested := CopilotRequested();
      if requested.AskFailed? { return requested.text, Indeterminate, true; }
      if requested.yes { return "", ReviewerPresent, true; }
      reason, outcome, alive := RequestReview();
    }

    // awaitCopilotReview: a review of the head, or none once the deadline is past.
    method AwaitCopilotReview() returns (found: Option<Review>, alive: bool)
      requires Safe() && 0 < poll
      modifies this`now, this`looked, this`heard
      ensures looked.looks >= old(looked.looks) && now >= old(now)
      ensures alive ==> found == OnHead() && (looked.latest.Some? ==> heard.head.Some?)
      ensures alive ==> looked.looks > old(looked.looks)
      ensures found.Some? ==> alive
      ensures heard == old(heard).(head := heard.head)
      ensures found.None? && alive ==> now > old(GateDeadline(copilotWait))
      ensures fixed.Some? && !ciSawChecks ==> alive && found == None
    {
      var deadline := GateDeadline(copilotWait);
      ghost var start, looks := now, looked.looks;
      while true
        invariant now >= start && looked.looks >= looks && heard == old(heard).(head := heard.head)
        decreases deadline - now
      {
        var review, failed := LatestReview();
        var onHead := false;
        if review.Some? && !failed {
          var sha, unread := HeadSHA();
          onHead := !unread && sha != "" && review.value.commit == sha;
        }
        if onHead { return review, true; }
        if now > deadline { return None, true; }
        alive := Sleep(poll);
        if !alive { return None, false; }
      }
    }

    // awaitCopilotGrace: a review, a pending request, or the proof that none can come.
    method AwaitCopilotGrace() returns (found: Option<Review>, requested: bool, unavailable: string, alive: bool)
      requires Safe() && 0 < poll
      modifies this`now, this`looked, this`heard
      ensures looked.looks >= old(looked.looks) && now >= old(now)
      ensures found.Some? ==> found == OnHead()
      ensures old(heard.posted.Some?) ==> heard.posted.Some?
      ensures requested ==> heard.Listed() && found.None?
      ensures unavailable != "" ==> heard.refused && IsUnavailable(unavailable) && found.None? && !requested
      ensures alive && found.None? && !requested && unavailable == "" ==>
                now > old(GateDeadline(COPILOT_GRACE_WAIT)) && OnHead() == None && heard.listed != Some(Asked(true))
    {
      var start := now;
      var deadline := GateDeadline(COPILOT_GRACE_WAIT);
      var nextRetry := 0;
      while true
        invariant Safe() && now >= start && nextRetry <= 2 && looked.looks >= old(looked.looks)
        invariant old(heard.posted.Some?) ==> heard.posted.Some?
        decreases deadline - now
      {
        var over;
        over, found, requested, unavailable, alive, nextRetry := GraceTurn(start, deadline, nextRetry);
        if over { return; }
      }
    }

    // One turn of the grace's loop.
    method GraceTurn(start: nat, deadline: nat, retries: nat)
      returns (over: bool, found: Option<Review>, requested: bool, unavailable: string, alive: bool, nextRetry: nat)
      requires Safe() && 0 < poll && start <= now && retries <= 2
      modifies this`now, this`looked, this`heard
      ensures looked.looks >= old(looked.looks) && now >= old(now) && nextRetry <= 2
      ensures !over ==> old(now) <= deadline && now > old(now)
      ensures found.Some? ==> found == OnHead()
      ensures old(heard.posted.Some?) ==> heard.posted.Some?
      ensures requested ==> heard.Listed() && found.None?
      ensures unavailable != "" ==> heard.refused && IsUnavailable(unavailable) && found.None? && !requested
      ensures over && alive && found.None? && !requested && unavailable == "" ==>
                now > deadline && OnHead() == None && heard.listed != Some(Asked(true))
    {
      over, unavailable, alive, nextRetry := true, "", true, retries;
      requested, found := GraceLook();
      if requested || found.Some? || now > deadline { return; }
      if nextRetry < 2 && start + GraceRetry(nextRetry) <= now && start + GraceRetry(nextRetry) < deadline {
        nextRetry := nextRetry + 1;
        requested, unavailable, alive := Reissue();
        if !alive || requested || unavailable != "" { return; }
      }
      alive := Sleep(poll);
      over := !alive;
    }

    method GraceLook() returns (requested: bool, found: Option<Review>)
      requires Safe()
      modifies this`now, this`looked, this`heard
      ensures looked.looks >= old(looked.looks) && now >= old(now)
      ensures requested <==> heard.listed == Some(Asked(true))
      ensures heard.posted == old(heard.posted)
      ensures found == if requested then None else OnHead()
    {
      var pending := CopilotRequested();
      if pending.Asked? && pending.yes { return true, None; }
      found := ReviewOnHead();
      requested := false;
    }

    // A dropped request re-issued inside the grace.
    method Reissue() returns (requested: bool, unavailable: string, alive: bool)
      requires Safe()
      modifies this`now, this`heard
      ensures now >= old(now) && heard.posted.Some? && (!alive ==> !requested && unavailable == "")
      ensures requested ==> heard.Listed()
      ensures unavailable != "" ==> heard.refused && IsUnavailable(unavailable) && !requested
    {
      var reason, outcome, on := RequestReview();
      if !on { return false, "", false; }
      return outcome == ReviewerPresent, if outcome == Unavailable then reason else "", true;
    }

    // ---- The Copilot gate's lines -----------------------------------------------------------

    // A line of the Copilot gate on the card: the counters stay what they are.
    method Remark(reason: string) returns (err: Err)
      requires Live()
      modifies this`st, card
      ensures Live() && card.forged == old(card.forged) && (err == Nil || err == Gone)
      ensures st == old(st).(copilotDetail := st.copilotDetail) && card.mark == Present(st)
      ensures IsUnavailable(reason) ==> IsUnavailable(st.copilotDetail)
      ensures fixed.Some? ==> err == Nil && st.copilotDetail == reason
    {
      var line := Line(reason);
      st := st.(copilotDetail := line);
      err := Keep();
    }

    // settleCopilotGrace: done when the gate is skipped, else the review to go on with.
    method SettleGrace(review: Option<Review>, requested: bool, unavailable: string)
      returns (next: Option<Review>, done: bool, err: Err)
      requires Live()
      modifies this`st, card
      ensures Live() && card.forged == old(card.forged) && (err == Nil || err == Gone)
      ensures st == old(st).(copilotDetail := st.copilotDetail)
      ensures err == Nil ==> next == (if unavailable != "" then None else review)
      ensures err == Nil ==> (done <==> unavailable != "" || (review.None? && !requested))
      ensures IsUnavailable(unavailable) ==> IsUnavailable(st.copilotDetail)
    {
      if unavailable != "" {
        err := Remark(unavailable);
        return None, true, err;
      }
      if review.None? && !requested {
        err := Remark("");
        return None, true, err;
      }
      if requested {
        err := Remark("");
        if err != Nil { return None, true, err; }
      }
      return review, false, Nil;
    }

    // ---- Fix rounds ---------------------------------------------------------------------------

    // What a round leaves of the state whatever happens: its own counter moved by at
    // most the one it counted before it started, the other gate's untouched.
    twostate predicate RoundSpent(ci: bool)
      reads this, card
    {
      && now >= old(now) && fixBarSteps >= old(fixBarSteps) && card.forged == old(card.forged)
      && st.satisfied == old(st.satisfied) && st.merged == old(st.merged)
      && (ci ==> st.copilotDetail == old(st.copilotDetail))
      && st.ciRounds == old(st.ciRounds) + (if ci then 1 else 0)
      && st.copilotRounds == old(st.copilotRounds) + (if ci then 0 else 1)
      && ciStarted == old(ciStarted) + (if ci then 1 else 0)
      && copilotStarted == old(copilotStarted) + (if ci then 0 else 1)
    }

    // The same of a round that ended the gate instead: it may have been counted and
    // not started, or not even counted.
    twostate predicate RoundEnded(ci: bool)
      reads this, card
    {
      && now >= old(now) && card.forged == old(card.forged)
      && st.satisfied == old(st.satisfied) && st.merged == old(st.merged)
      && (ci ==> st.copilotDetail == old(st.copilotDetail))
      && 0 <= ciStarted - old(ciStarted) <= st.ciRounds - old(st.ciRounds) <= (if ci then 1 else 0)
      && 0 <= copilotStarted - old(copilotStarted) <= st.copilotRounds - old(st.copilotRounds) <= (if ci then 0 else 1)
    }

    method GateNoChangeRetry(rounds: nat) returns (granted: bool)
      modifies this`fixBarSteps
      ensures granted <==> old(fixBarSteps) == 0 && rounds < CAP
      ensures fixBarSteps == old(fixBarSteps) + (if granted then 1 else 0)
    {
      if fixBarSteps != 0 || rounds >= CAP { return false; }
      fixBarSteps := fixBarSteps + 1;
      granted := true;
    }

    method ParkOnResource(error: FixError) returns (err: Err)
      requires Live() && error != NoError
      modifies this`st, card
      ensures Live() && card.forged == old(card.forged) && FixEnd(err) && err != Parked(CapSpent)
      ensures st == old(st).(status := st.status)
    {
      match error {
        case NoBudget => err := Park(BudgetSpent);
        case MaxTurns => err := Park(TurnsSpent);
        case ReviewParked => err := Park(FixParked);
        case _ => err := Broken;
      }
    }

    // The part of a fix round that ciFixRound and copilotFixRound share: one run of the
    // fixer, and whether its end keeps the gate going.
    method SpendFix(ci: bool) returns (committed: bool, err: Err)
      requires Live()
      modifies this`now, this`st, this`fixBarSteps, this`ciStarted, this`copilotStarted, this`pushed, this`heard, card
      requires card.forged || ciStarted < st.ciRounds + 3 * stale || !ci
      requires card.forged || copilotStarted < st.copilotRounds + 3 * stale || ci
      ensures Live() && card.forged == old(card.forged) && now >= old(now) && fixBarSteps >= old(fixBarSteps)
      ensures ciStarted == old(ciStarted) + (if ci then 1 else 0)
      ensures copilotStarted == old(copilotStarted) + (if ci then 0 else 1)
      ensures st == old(st).(status := st.status)
      ensures err == Nil ==> st == old(st)
      ensures err == Nil && committed ==> pushed && heard.posted.None?
      ensures err == Nil && !committed ==> pushed == old(pushed) && heard == old(heard)
      ensures err != Nil ==> FixEnd(err) && err != Parked(CapSpent)
      ensures fixed.Some? ==> err == Nil && committed
    {
      var error, wider;
      committed, error, wider := RunFix(ci);
      err := AfterFix(if ci then st.ciRounds else st.copilotRounds, committed, error, wider);
    }

    // What the end of a fix run means for its gate.
    method AfterFix(rounds: nat, committed: bool, error: FixError, wider: bool) returns (err: Err)
      requires Live()
      modifies this`st, this`fixBarSteps, card
      ensures Live() && card.forged == old(card.forged) && fixBarSteps >= old(fixBarSteps)
      ensures st == old(st).(status := st.status)
      ensures err == Nil ==> st == old(st)
      ensures err != Nil ==> FixEnd(err) && err != Parked(CapSpent)
      ensures error == NoError && committed ==> err == Nil
    {
      // A capped round that pushed earns another look at its new head, while a wider
      // one is left.
      if error == MaxTurns && committed && wider && rounds < CAP { return Nil; }
      if error != NoError {
        err := ParkOnResource(error);
      } else if !committed {
        var granted := GateNoChangeRetry(rounds);
        if granted { return Nil; }
        err := Park(NoChange);
      } else {
        err := Nil;
      }
    }

    // ciFixRound: the round is counted and written before any work is done.
    method CIFixRound(failed: seq<Check>) returns (err: Err)
      requires Live()
      modifies this`now, this`st, this`fixBarSteps, this`ciStarted, this`copilotStarted, this`pushed, this`heard, card
      ensures Live()
      ensures old(st.ciRounds) >= CAP ==> err == Parked(CapSpent) || err == Gone
      ensures old(st.ciRounds) >= CAP ==> ciStarted == old(ciStarted) && st.ciRounds == old(st.ciRounds)
      ensures err == Nil ==> old(st.ciRounds) < CAP && RoundSpent(true)
      ensures err != Nil ==> RoundEnded(true) && FixEnd(err)
      ensures err == Parked(CapSpent) ==> old(st.ciRounds) >= CAP
      ensures fixed.Some? && old(st.ciRounds) < CAP ==> err == Nil
    {
      var detail := Text();
      st := st.(detail := detail);
      if st.ciRounds >= CAP {
        err := Park(CapSpent);
        return;
      }
      var status := Text();
      st := st.(ciRounds := st.ciRounds + 1, status := status);
      var alive := Save();
      if !alive { return Gone; }
      err := WorkOnCI();
    }

    // The round's work, once it is on record: the failure logs, the budget, the fixer.
    method WorkOnCI() returns (err: Err)
      requires Live() && (card.forged || ciStarted < st.ciRounds + 3 * stale)
      modifies this`now, this`st, this`fixBarSteps, this`ciStarted, this`copilotStarted, this`pushed, this`heard, card
      ensures Live() && card.forged == old(card.forged) && now >= old(now) && fixBarSteps >= old(fixBarSteps)
      ensures st == old(st).(status := st.status) && copilotStarted == old(copilotStarted)
      ensures old(ciStarted) <= ciStarted <= old(ciStarted) + 1
      ensures err == Nil ==> ciStarted == old(ciStarted) + 1
      ensures err != Nil ==> FixEnd(err) && err != Parked(CapSpent)
      ensures fixed.Some? ==> err == Nil
    {
      Elapse();
      var funded := Funded();
      if !funded {
        err := Park(BudgetSpent);
        return;
      }
      var committed;
      committed, err := SpendFix(true);
    }

    method CopilotFixRound(findings: seq<Finding>) returns (committed: bool, err: Err)
      requires Live()
      modifies this`now, this`st, this`fixBarSteps, this`ciStarted, this`copilotStarted, this`pushed, this`heard, card
      ensures Live()
      ensures old(st.copilotRounds) >= CAP ==> err == Parked(CapSpent) || err == Gone
      ensures old(st.copilotRounds) >= CAP ==> copilotStarted == old(copilotStarted) && st.copilotRounds == old(st.copilotRounds)
      ensures err == Nil ==> old(st.copilotRounds) < CAP && RoundSpent(false)
      ensures err == Nil && committed ==> pushed && heard.posted.None?
      ensures err == Nil && !committed ==> pushed == old(pushed) && heard == old(heard)
      ensures err != Nil ==> RoundEnded(false) && FixEnd(err)
      ensures err == Parked(CapSpent) ==> old(st.copilotRounds) >= CAP
      ensures fixed.Some? && old(st.copilotRounds) < CAP ==> err == Nil && committed
    {
      var lines := Text();
      st := st.(copilotDetail := lines);
      if st.copilotRounds >= CAP {
        err := Park(CapSpent);
        return false, err;
      }
      var status := Text();
      st := st.(copilotRounds := st.copilotRounds + 1, status := status);
      var alive := Save();
      if !alive { return false, Gone; }
      committed, err := SpendFix(false);
    }

    // ---- One Copilot review -----------------------------------------------------------------

    method SaveRound(round: nat, novel: seq<Comment>, findings: seq<Finding>, unreadable: bool) returns (err: Err)
      requires Live()
      modifies card
      ensures Live() && (err == Nil || err == Gone) && (fixed.Some? ==> err == Nil)
      ensures old(card.forged) ==> card.forged
      ensures Plain(findings) ==> card.forged == old(card.forged)
      ensures card.rounds == old(card.rounds) + [Round(round, novel, findings, unreadable)]
    {
      card.NoteRound(round, novel, findings, unreadable);
      var alive := Alive();
      err := if alive then Nil else Gone;
    }

    // What the last triage's reply leaves standing.
    ghost function Stands(): seq<Finding>
      requires asked != []
      reads this`asked
    {
      var t := asked[|asked| - 1];
      Standing(t.reply, t.novel, unreadable, unjudged)
    }

    /**
     * triageCopilot: one call about the new comments, whose reply - with unjudged
     * comments at face value - is what stands and what the card records.
     */
    method TriageCopilot(novel: seq<Comment>) returns (findings: seq<Finding>, err: Err)
      requires Live()
      modifies this`now, this`st, this`asked, card
      ensures Live() && now >= old(now) && (old(card.forged) ==> card.forged)
      ensures st == old(st).(status := st.status) && (err == Nil ==> st == old(st))
      ensures err == Nil ==> AskedAbout(old(asked), asked, novel, fixed) && findings == Stands()
      ensures err == Nil ==>
                var round := Round(st.copilotRounds + 1, novel, findings, asked[|asked| - 1].reply.Unreadable? && novel == []);
                card.rounds == old(card.rounds) + [round]
      ensures err != Nil ==> FixEnd(err)
      ensures fixed.Some? ==> err == Nil
    {
      findings := [];
      var funded := Funded();
      if !funded {
        err := Park(BudgetSpent);
        return;
      }
      var reply, error := AskTriage(novel);
      if error != NoError {
        err := ParkOnResource(error);
        return;
      }
      findings, err := TakeReply(reply, novel);
    }

    method TakeReply(reply: Answer, novel: seq<Comment>) returns (findings: seq<Finding>, err: Err)
      requires Live() && asked != [] && asked[|asked| - 1] == Triaging(novel, reply)
      modifies card
      ensures Live() && (old(card.forged) ==> card.forged) && (err == Nil || err == Gone)
      ensures findings == Stands()
      ensures card.rounds == old(card.rounds) + [Round(st.copilotRounds + 1, novel, findings, reply.Unreadable? && novel == [])]
      ensures fixed.Some? ==> err == Nil
    {
      findings := Standing(reply, novel, unreadable, unjudged);
      err := SaveRound(st.copilotRounds + 1, novel, findings, reply.Unreadable? && novel == []);
    }

    // What a cycle leaves of the state: only Copilot rounds spent, all of them counted.
    twostate predicate CycleKept()
      reads this, card
    {
      && Live() && now >= old(now) && (old(card.forged) ==> card.forged)
      && st.merged == old(st.merged) && st.ciRounds == old(st.ciRounds) && ciStarted == old(ciStarted)
      && 0 <= copilotStarted - old(copilotStarted) <= st.copilotRounds - old(st.copilotRounds)
      && (st.copilotRounds > old(st.copilotRounds) ==> st.copilotRounds <= CAP)
      && (old(st.satisfied) ==> st.satisfied) && looked.looks >= old(looked.looks)
    }

    // The fix loop of a cycle: rounds until one commits.
    method FixUntilCommitted(stillOpen: seq<Finding>) returns (err: Err)
      requires Live()
      modifies this`now, this`st, this`fixBarSteps, this`ciStarted, this`copilotStarted, this`pushed, this`heard, card
      ensures CycleKept() && st.satisfied == old(st.satisfied) && (err != Nil ==> FixEnd(err))
      ensures err == Nil ==> pushed && heard.posted.None? && st.copilotRounds > old(st.copilotRounds)
      ensures fixed.Some? && old(st.copilotRounds) < CAP ==> err == Nil
    {
      var committed := false;
      while true
        invariant CycleKept() && st.satisfied == old(st.satisfied)
        invariant fixed.Some? ==> st.copilotRounds == old(st.copilotRounds)
        decreases Left(st.copilotRounds)
      {
        label Round:
        committed, err := CopilotFixRound(stillOpen);
        if err != Nil { return; }
        if committed { break; }
      }
    }

    // The findings of the triage of this review, as its reply left them.
    ghost function Weighed(comments: seq<Comment>, triaged: Seen): seq<Finding>
      reads this`asked
    {
      if Asks(comments, triaged) && asked != [] then Stands() else []
    }

    // The triage was not asked, or its reply has one entry per comment, or none.
    ghost predicate Full(comments: seq<Comment>, triaged: Seen)
      reads this`asked
    {
      Asks(comments, triaged) && asked != [] ==> asked[|asked| - 1].Full()
    }

    lemma FullJudges(comments: seq<Comment>, triaged: Seen)
      requires Asks(comments, triaged) ==> asked != [] && asked[|asked| - 1].novel == Unseen(comments, triaged)
      ensures Full(comments, triaged) ==> AllJudged(Unseen(comments, triaged), Weighed(comments, triaged))
    {
      if Asks(comments, triaged) && Full(comments, triaged) {
        var t := asked[|asked| - 1];
        FullAnswerJudgesAll(t.reply, t.novel, unreadable, unjudged);
      }
    }

    // The triage was asked once, about the new comments, exactly when there was cause to.
    twostate predicate AskedOnce(comments: seq<Comment>, triaged: Seen)
      reads this`asked
    {
      if Asks(comments, triaged) then AskedAbout(old(asked), asked, Unseen(comments, triaged), fixed)
      else asked == old(asked)
    }

    // What the comments come to: the findings behind the verdicts, and those still open.
    method JudgeReview(triaged: Seen, comments: seq<Comment>)
      returns (stillOpen: seq<Finding>, seen: Seen, err: Err)
      requires Live()
      modifies this`now, this`st, this`asked, card
      ensures Live() && now >= old(now) && (old(card.forged) ==> card.forged)
      ensures st == old(st).(status := st.status) && (err == Nil ==> st == old(st))
      ensures err == Nil ==> AskedOnce(comments, triaged)
      ensures err == Nil ==> seen == Recalled(comments, triaged, Weighed(comments, triaged))
      ensures err == Nil ==> (stillOpen == [] <==> NothingOpen(comments, triaged, Weighed(comments, triaged)))
      ensures err == Nil && stillOpen == [] ==> Dismissal(comments, triaged, Weighed(comments, triaged), Full(comments, triaged))
      ensures err != Nil ==> FixEnd(err)
      ensures fixed.Some? ==> err == Nil
    {
      stillOpen, seen := [], triaged;
      if comments != [] && OnlyRepeats(comments, triaged) {
        RepeatsDismissed(comments, triaged);
        return [], triaged, Nil;
      }
      var novel := UnseenComments(comments, triaged);
      var reopened := RepeatedValidComments(comments, triaged);
      var findings;
      findings, err := JudgeNew(comments, triaged, novel, reopened != []);
      if err != Nil { return; }
      stillOpen, seen := Settle(triaged, comments, novel, reopened, findings, Full(comments, triaged));
    }

    method JudgeNew(ghost comments: seq<Comment>, ghost triaged: Seen, novel: seq<Comment>, reopened: bool)
      returns (findings: seq<Finding>, err: Err)
      requires Live() && novel == Unseen(comments, triaged) && (Asks(comments, triaged) <==> novel != [] || !reopened)
      modifies this`now, this`st, this`asked, card
      ensures Live() && now >= old(now) && (old(card.forged) ==> card.forged)
      ensures st == old(st).(status := st.status) && (err == Nil ==> st == old(st))
      ensures err == Nil ==> AskedOnce(comments, triaged) && findings == Weighed(comments, triaged)
      ensures err == Nil && Full(comments, triaged) ==> AllJudged(novel, findings)
      ensures err != Nil ==> FixEnd(err)
      ensures fixed.Some? ==> err == Nil
    {
      findings, err := [], Nil;
      // Nothing new to judge beside comments still open: no triage is asked.
      if novel == [] && reopened { return; }
      findings, err := TriageCopilot(novel);
      if err != Nil { return; }
      FullJudges(comments, triaged);
    }

    method Settle(triaged: Seen, comments: seq<Comment>, novel: seq<Comment>, reopened: seq<Comment>, findings: seq<Finding>, ghost full: bool)
      returns (stillOpen: seq<Finding>, seen: Seen)
      requires full ==> AllJudged(novel, findings)
      requires novel == Unseen(comments, triaged) && reopened == StillOpen(comments, triaged)
      ensures seen == Recalled(comments, triaged, findings)
      ensures stillOpen == [] <==> NothingOpen(comments, triaged, findings)
      ensures stillOpen == [] ==> Dismissal(comments, triaged, findings, full)
    {
      var verdicts := CopilotCommentVerdicts(novel, findings);
      seen := NoteVerdicts(novel, verdicts, triaged);
      stillOpen := OpenFindings(reopened, findings);
      if stillOpen == [] { SatisfiedDismisses(comments, triaged, findings, full); }
    }

    method OpenFindings(reopened: seq<Comment>, findings: seq<Finding>) returns (stillOpen: seq<Finding>)
      ensures stillOpen == [] <==> reopened == [] && ValidOnly(findings) == []
      ensures forall f :: f in stillOpen ==> f.valid
    {
      stillOpen := CommentsAsFindings(reopened, "");
      var valid := ValidCopilotFindings(findings);
      stillOpen := stillOpen + valid;
    }

    // The re-request behind a pushed fix. Refused for good, it ends the gate with the
    // pushed head unread - and with no CI pass of its own.
    method Rerequest() returns (outcome: Cycle, err: Err)
      requires Live()
      modifies this`now, this`st, this`heard, card
      ensures Live() && now >= old(now) && card.forged == old(card.forged)
      ensures st == old(st).(copilotDetail := st.copilotDetail) && (err == Nil || err == Gone)
      ensures err == Nil ==> heard.posted.Some? && (outcome == Satisfied <==> heard.refused)
      ensures err == Nil && outcome == Satisfied ==> IsUnavailable(st.copilotDetail)
      ensures fixed.Some? ==> err == Nil && heard.refused == Refusal(fixed.value.post)
    {
      var reason, request, alive := RequestReview();
      assert Live();
      outcome := if request == Unavailable then Satisfied else if request == Unconfirmed then AwaitGrace else AwaitReview;
      if !alive { return outcome, Gone; }
      if request == ReviewerPresent || request == ConfirmCheckFailed { return outcome, Nil; }
      err := Remark(if request == Unconfirmed then "" else reason);
    }

    method Satisfy()
      requires Live()
      modifies this`st
      ensures Live() && st == old(st).(copilotDetail := st.copilotDetail, satisfied := true)
    {
      var line := Text();
      st := st.(copilotDetail := line, satisfied := true);
    }

    // How a cycle that ended well ended: with nothing open and the gate satisfied, or
    // behind a pushed fix and a re-request - done with the gate exactly when that was refused.
    twostate predicate Cycled(outcome: Cycle)
      reads this`st, this`pushed, this`looked, this`heard
    {
      if st.satisfied then
        && outcome == Satisfied && st.copilotRounds == old(st.copilotRounds)
        && pushed == old(pushed) && heard == old(heard)
      else
        && pushed && st.copilotRounds > old(st.copilotRounds)
        && heard.posted.Some? && (outcome == Satisfied <==> heard.refused)
        && (outcome == Satisfied ==> IsUnavailable(st.copilotDetail))
    }

    /**
     * copilotReviewCycle. The triage is asked once about the new comments, if there is
     * cause to; the gate is satisfied exactly when no repeated comment is still open and
     * nothing the triage's reply leaves standing is valid - and then all comments are on
     * record as INVALID exactly when that reply judged each new one. Otherwise a counted
     * round was spent and pushed, and the cycle is done with the gate exactly when the
     * re-request was refused for good.
     */
    method ReviewCycle(triaged: Seen, review: Review) returns (outcome: Cycle, err: Err, seen: Seen)
      requires Live() && !st.satisfied
      modifies this`now, this`st, this`fixBarSteps, this`ciStarted, this`copilotStarted, this`pushed, this`heard, this`asked, card
      ensures CycleKept()
      ensures err == Nil ==> AskedOnce(review.comments, triaged) && Cycled(outcome)
      ensures err == Nil ==> (st.satisfied <==> NothingOpen(review.comments, triaged, Weighed(review.comments, triaged)))
      ensures err == Nil ==> seen == Recalled(review.comments, triaged, Weighed(review.comments, triaged))
      ensures err == Nil && st.satisfied ==>
                Dismissal(review.comments, triaged, Weighed(review.comments, triaged), Full(review.comments, triaged))
      ensures err != Nil ==> FixEnd(err) && !st.satisfied
      ensures fixed.Some? && old(st.copilotRounds) < CAP ==> err == Nil && (st.satisfied || heard.refused == Refusal(fixed.value.post))
    {
      var stillOpen;
      outcome := AwaitReview;
      stillOpen, seen, err := JudgeReview(triaged, review.comments);
      if err != Nil { return; }
      outcome, err := AnswerReview(stillOpen);
    }

    // The calls of the triage since, and the verdicts known after them.
    twostate predicate Followed(triaged: Seen, seen: Seen)
      reads this`asked
    {
      && |old(asked)| <= |asked| && asked[..|old(asked)|] == old(asked)
      && seen == TriagedAfter(triaged, asked[|old(asked)|..], unreadable, unjudged)
    }

    // The review of the head in hand is addressed by the calls of the triage from there on,
    // on top of the verdicts known before them.
    ghost predicate TracedReview(known: Seen, from: nat)
      reads this`looked, this`heard, this`asked
    {
      from <= |asked| && OnHead().Some? && Addressed(OnHead().value.comments, known, asked[from..], unreadable, unjudged)
    }

    // The latest review is addressed by the calls of the triage since the card's rounds were
    // last read, on top of what they read as.
    ghost predicate LatestAddressed()
      reads this`looked, this`asked, this`onCard
    {
      && looked.latest.Some? && onCard.at <= |asked|
      && Addressed(looked.latest.value.comments, onCard.seen, asked[onCard.at..], unreadable, unjudged)
    }

    // The cycle on the review in hand, as what it adds to the calls of the triage.
    method WeighReview(triaged: Seen, review: Review) returns (outcome: Cycle, err: Err, seen: Seen)
      requires Live() && !st.satisfied && OnHead() == Some(review)
      modifies this`now, this`st, this`fixBarSteps, this`ciStarted, this`copilotStarted, this`pushed, this`heard, this`asked, card
      ensures CycleKept()
      ensures err == Nil ==> Cycled(outcome) && Followed(triaged, seen) && (st.satisfied ==> TracedReview(triaged, |old(asked)|))
      ensures err != Nil ==> FixEnd(err) && !st.satisfied
      ensures err == Nil ==> AskedOnce(review.comments, triaged)
      ensures err == Nil ==> (st.satisfied <==> NothingOpen(review.comments, triaged, Weighed(review.comments, triaged)))
      ensures fixed.Some? && old(st.copilotRounds) < CAP ==> err == Nil && (st.satisfied || heard.refused == Refusal(fixed.value.post))
    {
      outcome, err, seen := ReviewCycle(triaged, review);
      if err == Nil { CycleAdds(review.comments, triaged, asked[|old(asked)|..], unreadable, unjudged); }
    }

    // Nothing open satisfies the gate; else a fix is pushed and the review asked for again.
    method AnswerReview(stillOpen: seq<Finding>) returns (outcome: Cycle, err: Err)
      requires Live() && !st.satisfied
      modifies this`now, this`st, this`fixBarSteps, this`ciStarted, this`copilotStarted, this`pushed, this`heard, card
      ensures CycleKept()
      ensures err == Nil ==> Cycled(outcome) && (st.satisfied <==> stillOpen == [])
      ensures err != Nil ==> FixEnd(err) && !st.satisfied
      ensures fixed.Some? && old(st.copilotRounds) < CAP ==>
                err == Nil && (st.satisfied || heard.refused == Refusal(fixed.value.post))
    {
      if stillOpen == [] {
        Satisfy();
        return Satisfied, Nil;
      }
      outcome := AwaitReview;
      err := FixUntilCommitted(stillOpen);
      if err != Nil { return; }
      outcome, err := Rerequest();
    }

    // ---- The Copilot gate -----------------------------------------------------------------------

    // What a turn of the gate starts from: a review of the head in hand, or one asked for.
    ghost predicate Ready(pending: Option<Review>)
      reads this`looked, this`heard
    {
      if pending.Some? then pending == OnHead() else heard.Sought()
    }

    // The first half of copilotGate: a review in hand, a wait ahead, or a skip.
    method OpenCopilotGate(ghost grace: nat) returns (pending: Option<Review>, done: bool, err: Err)
      requires Live() && grace <= GateDeadline(COPILOT_GRACE_WAIT)
      modifies this`now, this`st, this`looked, this`heard, card
      ensures CycleKept() && (err == Nil || err == Gone)
      ensures st == old(st).(copilotDetail := st.copilotDetail)
      ensures err == Nil && !done ==> Ready(pending)
      ensures err == Nil && done ==> Refused() || GraceOver(grace)
      ensures FixedEarly() ==> err == Nil && !done && pending == None && st == old(st)
    {
      pending := ReviewOnHead();
      if pending.Some? { return pending, false, Nil; }
      pending, done, err := SeekReviewer(grace);
    }

    method SeekReviewer(ghost grace: nat) returns (pending: Option<Review>, done: bool, err: Err)
      requires Live() && grace <= GateDeadline(COPILOT_GRACE_WAIT)
      modifies this`now, this`st, this`looked, this`heard, card
      ensures CycleKept() && (err == Nil || err == Gone)
      ensures st == old(st).(copilotDetail := st.copilotDetail)
      ensures err == Nil && !done ==> Ready(pending)
      ensures err == Nil && done ==> Refused() || GraceOver(grace)
      ensures fixed.Some? ==> err == Nil && !done && pending == None && st == old(st)
    {
      var reason, request, alive := EnsureReviewer();
      if !alive { return None, true, Gone; }
      if request == ReviewerPresent { return None, false, Nil; }
      pending, done, err := WithoutReviewer(reason, request, grace);
    }

    // No reviewer is known to be on the PR: a skip, a grace, or a wait all the same.
    method WithoutReviewer(reason: string, request: Outcome, ghost grace: nat)
      returns (pending: Option<Review>, done: bool, err: Err)
      requires Live() && (request == Unavailable ==> heard.refused && IsUnavailable(reason)) && heard.Sought() && grace <= GateDeadline(COPILOT_GRACE_WAIT)
      requires request == Unconfirmed ==> heard.posted.Some?
      modifies this`now, this`st, this`looked, this`heard, card
      ensures Live() && looked.looks >= old(looked.looks) && now >= old(now) && card.forged == old(card.forged) && (err == Nil || err == Gone)
      ensures st == old(st).(copilotDetail := st.copilotDetail)
      ensures err == Nil && !done ==> Ready(pending)
      ensures request == Unavailable ==> done
      ensures err == Nil && done ==> Refused() || GraceOver(grace)
    {
      err := Remark(reason);
      if err != Nil || request == Unavailable { return None, true, err; }
      if request != Unconfirmed { return None, false, Nil; }
      pending, done, err := GraceThenSettle(grace);
    }

    // The answers are fixed, and no check was seen yet.
    predicate FixedEarly()
      reads this`ciSawChecks
    {
      fixed.Some? && fixed.value.late.commit != "" && !ciSawChecks
    }

    // The grace is over, without a review of the head or a listed reviewer.
    ghost predicate GraceOver(grace: nat)
      reads this`looked, this`heard, this`now
    {
      heard.Sought() && OnHead() == None && now > grace && heard.listed != Some(Asked(true))
    }

    method GraceThenSettle(ghost grace: nat) returns (pending: Option<Review>, done: bool, err: Err)
      requires Live() && heard.posted.Some? && grace <= GateDeadline(COPILOT_GRACE_WAIT)
      modifies this`now, this`st, this`looked, this`heard, card
      ensures Live() && looked.looks >= old(looked.looks) && now >= old(now) && card.forged == old(card.forged) && (err == Nil || err == Gone)
      ensures st == old(st).(copilotDetail := st.copilotDetail)
      ensures err == Nil && !done ==> Ready(pending)
      ensures err == Nil && done ==> Refused() || GraceOver(grace)
      ensures err != Nil ==> done
    {
      var found, requested, unavailable, alive := AwaitCopilotGrace();
      if !alive { return None, true, Gone; }
      pending, done, err := SettleGrace(found, requested, unavailable);
      done := done || err != Nil;
      if done { pending := None; }
    }

    method TriagedSoFar() returns (seen: Seen)
      modifies this`onCard
      ensures seen == Triaged(card.body) && onCard == OnCard(seen, |asked|)
    {
      seen := CopilotTriagedComments(card.body);
      onCard := OnCard(seen, |asked|);
    }

    // One turn of the gate's loop: a wait if no review is in hand, and one review cycle.
    // The deadlines are those of the gate's entry.
    method GateTurn(triaged: Seen, pending: Option<Review>, ghost wait: nat, ghost grace: nat)
      returns (next: Option<Review>, seen: Seen, done: bool, err: Err)
      requires Live() && !st.satisfied && Ready(pending)
      requires wait <= GateDeadline(copilotWait) && grace <= GateDeadline(COPILOT_GRACE_WAIT)
      modifies this`now, this`st, this`fixBarSteps, this`ciStarted, this`copilotStarted, this`pushed, this`looked, this`heard, this`asked, card
      ensures CycleKept()
      ensures err == Nil ==> Followed(triaged, seen) && (st.satisfied ==> TracedReview(triaged, |old(asked)|)) && (done || Ready(next))
      ensures err == Nil && !done ==> !st.satisfied && st.copilotRounds > old(st.copilotRounds)
      ensures err == Nil && done && !st.satisfied ==> Refused() || NoneCame(wait, grace)
      ensures err != Nil ==> FixEnd(err) && !st.satisfied
      ensures FixedEarly() && pending.None? ==> done && err == Nil && st == old(st).(copilotDetail := "")
    {
      if pending.Some? {
        next, seen, done, err := CycleTurn(triaged, pending.value, grace);
      } else {
        next, seen, done, err := WaitTurn(triaged, wait, grace);
      }
    }

    // A turn without a review in hand: the full wait for one.
    method WaitTurn(triaged: Seen, ghost wait: nat, ghost grace: nat)
      returns (next: Option<Review>, seen: Seen, done: bool, err: Err)
      requires Live() && !st.satisfied && heard.Sought() && wait <= GateDeadline(copilotWait) && grace <= GateDeadline(COPILOT_GRACE_WAIT)
      modifies this`now, this`st, this`fixBarSteps, this`ciStarted, this`copilotStarted, this`pushed, this`looked, this`heard, this`asked, card
      ensures CycleKept()
      ensures err == Nil ==> Followed(triaged, seen) && (st.satisfied ==> TracedReview(triaged, |old(asked)|)) && (done || Ready(next))
      ensures err == Nil && !done ==> !st.satisfied && st.copilotRounds > old(st.copilotRounds)
      ensures err == Nil && done && !st.satisfied ==> Refused() || NoneCame(wait, grace)
      ensures err != Nil ==> FixEnd(err) && !st.satisfied
      ensures FixedEarly() ==> done && err == Nil && st == old(st).(copilotDetail := "")
    {
      var review, alive := WaitForReview(wait, grace);
      next, seen, done, err := AfterWait(triaged, review, alive, wait, grace);
    }

    method WaitForReview(ghost wait: nat, ghost grace: nat) returns (review: Option<Review>, alive: bool)
      requires Live() && heard.Sought() && wait <= GateDeadline(copilotWait) && grace <= GateDeadline(COPILOT_GRACE_WAIT)
      modifies this`now, this`looked, this`heard
      ensures CycleKept() && grace <= GateDeadline(COPILOT_GRACE_WAIT)
      ensures if review.Some? then OnHead() == review else alive ==> NoneCame(wait, grace)
      ensures FixedEarly() ==> alive && review.None?
    {
      review, alive := AwaitCopilotReview();
    }

    method AfterWait(triaged: Seen, review: Option<Review>, alive: bool, ghost wait: nat, ghost grace: nat)
      returns (next: Option<Review>, seen: Seen, done: bool, err: Err)
      requires Live() && !st.satisfied && grace <= GateDeadline(COPILOT_GRACE_WAIT)
      requires if review.Some? then OnHead() == review else alive ==> NoneCame(wait, grace)
      modifies this`now, this`st, this`fixBarSteps, this`ciStarted, this`copilotStarted, this`pushed, this`looked, this`heard, this`asked, card
      ensures CycleKept()
      ensures err == Nil ==> Followed(triaged, seen) && (st.satisfied ==> TracedReview(triaged, |old(asked)|)) && (done || Ready(next))
      ensures err == Nil && !done ==> !st.satisfied && st.copilotRounds > old(st.copilotRounds)
      ensures err == Nil && done && !st.satisfied ==> Refused() || NoneCame(wait, grace)
      ensures err != Nil ==> FixEnd(err) && !st.satisfied
      ensures fixed.Some? && alive && review.None? ==> done && err == Nil && st == old(st).(copilotDetail := "")
    {
      if review.Some? {
        next, seen, done, err := CycleTurn(triaged, review.value, grace);
      } else {
        next, seen, done := None, triaged, true;
        err := PassUnreviewed(triaged, alive);
      }
    }

    // The wait brought no review: a line on the card, if the process is still there.
    method PassUnreviewed(triaged: Seen, alive: bool) returns (err: Err)
      requires Live()
      modifies this`st, card
      ensures CycleKept() && card.forged == old(card.forged) && (err == Nil || err == Gone) && (err == Nil ==> alive)
      ensures st == old(st).(copilotDetail := st.copilotDetail)
      ensures Followed(triaged, triaged)
      ensures fixed.Some? && alive ==> err == Nil && st.copilotDetail == ""
    {
      NothingFollows(asked);
      if !alive { return Gone; }
      err := Remark("");
    }

    static lemma NothingFollows(log: seq<Triaging>)
      ensures log[|log|..] == [] && log[..|log|] == log
    {
    }

    method CycleTurn(triaged: Seen, review: Review, ghost grace: nat)
      returns (next: Option<Review>, seen: Seen, done: bool, err: Err)
      requires Live() && !st.satisfied && OnHead() == Some(review) && grace <= GateDeadline(COPILOT_GRACE_WAIT)
      modifies this`now, this`st, this`fixBarSteps, this`ciStarted, this`copilotStarted, this`pushed, this`looked, this`heard, this`asked, card
      ensures CycleKept()
      ensures err == Nil ==> Followed(triaged, seen) && (st.satisfied ==> TracedReview(triaged, |old(asked)|)) && (done || Ready(next))
      ensures err == Nil && !done ==> !st.satisfied && st.copilotRounds > old(st.copilotRounds)
      ensures err == Nil && done && !st.satisfied ==> Refused() || GraceOver(grace)
      ensures err != Nil ==> FixEnd(err) && !st.satisfied
    {
      var outcome;
      next, done := None, true;
      outcome, err, seen := WeighReview(triaged, review);
      if err != Nil || outcome == Satisfied { return; }
      if outcome == AwaitGrace {
        next, done, err := GraceThenSettle(grace);
      } else {
        done := false;
      }
    }

    // The verdicts known are what the triage calls since the card was read make of those it
    // read as.
    ghost predicate Traced(triaged: Seen)
      reads this`asked, this`onCard
    {
      onCard.at <= |asked| && triaged == TriagedAfter(onCard.seen, asked[onCard.at..], unreadable, unjudged)
    }

    // A review of the head in hand, addressed by those calls.
    ghost predicate InHand()
      reads this`looked, this`heard, this`asked, this`onCard
    {
      OnHead().Some? && LatestAddressed()
    }

    // A turn, as it adds to the turns before it.
    method NextTurn(triaged: Seen, pending: Option<Review>, ghost wait: nat, ghost grace: nat)
      returns (next: Option<Review>, seen: Seen, done: bool, err: Err)
      requires Live() && !st.satisfied && Ready(pending) && Traced(triaged)
      requires wait <= GateDeadline(copilotWait) && grace <= GateDeadline(COPILOT_GRACE_WAIT)
      modifies this`now, this`st, this`fixBarSteps, this`ciStarted, this`copilotStarted, this`pushed, this`looked, this`heard, this`asked, card
      ensures CycleKept()
      ensures err == Nil ==> Traced(seen) && (done || Ready(next)) && (st.satisfied ==> InHand())
      ensures err == Nil && !done ==> !st.satisfied && st.copilotRounds > old(st.copilotRounds)
      ensures err == Nil && done && !st.satisfied ==> Refused() || NoneCame(wait, grace)
      ensures err != Nil ==> FixEnd(err) && !st.satisfied
      ensures FixedEarly() && pending.None? ==> done && err == Nil && st == old(st).(copilotDetail := "")
    {
      next, seen, done, err := GateTurn(triaged, pending, wait, grace);
      if err == Nil {
        ghost var x, y := old(asked)[onCard.at..], asked[|old(asked)|..];
        DropSplit(asked, old(asked), onCard.at);
        TriagedOn(onCard.seen, x, y, unreadable, unjudged);
        if st.satisfied { AddressedOn(OnHead().value.comments, onCard.seen, x, y, unreadable, unjudged); }
      }
    }

    /**
     * copilotGate. It ends: each further review costs a counted round, and each wait is
     * bounded by the clock. It comes to be satisfied only with a review of the head in
     * hand, addressed by the triage calls made since on top of the verdicts on record. It
     * never parks for want of a review: it then passes unsatisfied - refused for good, or
     * past the deadline with none come - and parks on what a fix could not do alone.
     */
    method CopilotGate() returns (err: Err)
      requires Live()
      modifies this`onCard
      modifies this`now, this`st, this`fixBarSteps, this`ciStarted, this`copilotStarted, this`pushed, this`looked, this`heard, this`asked, card
      ensures CycleKept()
      ensures old(st.satisfied) ==> err == Nil && st == old(st) && pushed == old(pushed) && asked == old(asked)
      ensures !old(st.satisfied) ==> onCard == OnCard(Triaged(old(card.body)), |old(asked)|)
      ensures err == Nil && st.satisfied && !old(st.satisfied) ==> InHand()
      ensures err == Nil && !st.satisfied ==>
                Refused() || NoneCame(old(GateDeadline(copilotWait)), old(GateDeadline(COPILOT_GRACE_WAIT)))
      ensures err != Nil ==> FixEnd(err) && !st.satisfied
      ensures FixedEarly() && !old(st.satisfied) ==> err == Nil && st == old(st).(copilotDetail := "")
    {
      if st.satisfied { return Nil; }
      var triaged := TriagedSoFar();
      NothingFollows(asked);
      err := ReviewGate(triaged, GateDeadline(copilotWait), GateDeadline(COPILOT_GRACE_WAIT));
    }

    method ReviewGate(triaged: Seen, ghost wait: nat, ghost grace: nat) returns (err: Err)
      requires Live() && !st.satisfied && Traced(triaged)
      requires wait <= GateDeadline(copilotWait) && grace <= GateDeadline(COPILOT_GRACE_WAIT)
      modifies this`now, this`st, this`fixBarSteps, this`ciStarted, this`copilotStarted, this`pushed, this`looked, this`heard, this`asked, card
      ensures CycleKept()
      ensures err == Nil && st.satisfied ==> InHand()
      ensures err == Nil && !st.satisfied ==> Refused() || NoneCame(wait, grace)
      ensures err != Nil ==> FixEnd(err) && !st.satisfied
      ensures FixedEarly() ==> err == Nil && st == old(st).(copilotDetail := "")
    {
      var pending, done;
      pending, done, err := OpenCopilotGate(grace);
      if err != Nil || done { return; }
      err := FirstTurn(triaged, pending, wait, grace);
    }

    // The loop's first turn, and the rest of it.
    method FirstTurn(triaged: Seen, pending: Option<Review>, ghost wait: nat, ghost grace: nat) returns (err: Err)
      requires Live() && !st.satisfied && Ready(pending) && Traced(triaged)
      requires wait <= GateDeadline(copilotWait) && grace <= GateDeadline(COPILOT_GRACE_WAIT)
      modifies this`now, this`st, this`fixBarSteps, this`ciStarted, this`copilotStarted, this`pushed, this`looked, this`heard, this`asked, card
      ensures CycleKept()
      ensures err == Nil && st.satisfied ==> InHand()
      ensures err == Nil && !st.satisfied ==> Refused() || NoneCame(wait, grace)
      ensures err != Nil ==> FixEnd(err) && !st.satisfied
      ensures FixedEarly() && pending.None? ==> err == Nil && st == old(st).(copilotDetail := "")
    {
      var next, seen, done;
      next, seen, done, err := NextTurn(triaged, pending, wait, grace);
      if err == Nil && !done { err := ReviewUntilDone(seen, next, wait, grace); }
    }

    // The loop of the gate: turn after turn.
    method ReviewUntilDone(recorded: Seen, first: Option<Review>, ghost wait: nat, ghost grace: nat)
      returns (err: Err)
      requires Live() && !st.satisfied && Ready(first) && Traced(recorded)
      requires wait <= GateDeadline(copilotWait) && grace <= GateDeadline(COPILOT_GRACE_WAIT)
      modifies this`now, this`st, this`fixBarSteps, this`ciStarted, this`copilotStarted, this`pushed, this`looked, this`heard, this`asked, card
      ensures CycleKept()
      ensures err == Nil && st.satisfied ==> InHand()
      ensures err == Nil && !st.satisfied ==> Refused() || NoneCame(wait, grace)
      ensures err != Nil ==> FixEnd(err) && !st.satisfied
    {
      var triaged, pending, done := recorded, first, false;
      err := Nil;
      while err == Nil && !done
        invariant CycleKept()
        invariant wait <= GateDeadline(copilotWait) && grace <= GateDeadline(COPILOT_GRACE_WAIT)
        invariant err == Nil ==> Traced(triaged) && (done || Ready(pending))
        invariant err == Nil && st.satisfied ==> done && InHand()
        invariant err == Nil && done && !st.satisfied ==> Refused() || NoneCame(wait, grace)
        invariant err != Nil ==> FixEnd(err) && !st.satisfied
        decreases Left(st.copilotRounds), if err == Nil && !done then 1 else 0
      {
        pending, triaged, done, err := NextTurn(triaged, pending, wait, grace);
      }
    }

    // How the late check ended: with no fix pushed, or behind a pushed fix of a counted
    // round - and then as if none had been, exactly when the re-request was refused.
    twostate predicate Probed(again: bool)
      reads this`st, this`pushed, this`looked, this`heard
    {
      if st.copilotRounds == old(st.copilotRounds) then
        && !again && pushed == old(pushed) && (st.satisfied || OnHead() == None)
      else
        && pushed && !st.satisfied && (again <==> !heard.refused)
        && (heard.refused ==> IsUnavailable(st.copilotDetail))
    }

    /**
     * copilotLateCheck: it looks at the head's review once, satisfies the gate only with that
     * review addressed on top of what the card then reads as, and else ends as Probed says.
     */
    method LateCheck() returns (again: bool, err: Err)
      requires Live() && !st.satisfied
      modifies this`now, this`st, this`fixBarSteps, this`ciStarted, this`copilotStarted, this`pushed, this`looked, this`heard, this`onCard, this`asked, card
      ensures CycleKept()
      ensures err == Nil ==> Probed(again) && (st.copilotRounds == old(st.copilotRounds) ==> looked.looks > old(looked.looks))
      ensures err == Nil && st.satisfied ==> InHand() && onCard.at == |old(asked)|
      ensures err != Nil ==> FixEnd(err) && (st.satisfied ==> card.mark == Present(st))
      ensures SlipsLate() && old(st.copilotRounds) < CAP ==> err == Nil && !again && pushed
    {
      var review := LookOnce();
      again, err := LateLook(review);
    }

    method LookOnce() returns (review: Option<Review>)
      requires Live()
      modifies this`now, this`looked, this`heard
      ensures CycleKept() && review == OnHead() && looked.looks > old(looked.looks)
      ensures SlipsLate() ==> review == Some(fixed.value.late)
    {
      review := ReviewOnHead();
    }

    method LateLook(review: Option<Review>) returns (again: bool, err: Err)
      requires Live() && !st.satisfied && review == OnHead()
      modifies this`now, this`st, this`fixBarSteps, this`ciStarted, this`copilotStarted, this`pushed, this`heard, this`onCard, this`asked, card
      ensures CycleKept()
      ensures err == Nil ==> Probed(again) && (st.copilotRounds == old(st.copilotRounds) ==> heard == old(heard))
      ensures err == Nil && st.satisfied ==> InHand() && onCard.at == |old(asked)|
      ensures err != Nil ==> FixEnd(err) && (st.satisfied ==> card.mark == Present(st))
      ensures fixed.Some? && old(st.copilotRounds) < CAP && Slips(fixed.value) && review == Some(fixed.value.late) ==>
                err == Nil && !again && pushed
    {
      if review.None? { return false, Nil; }
      var outcome;
      outcome, err := LateCycle(review.value);
      again := outcome != Satisfied;
    }

    method LateCycle(review: Review) returns (outcome: Cycle, err: Err)
      requires Live() && !st.satisfied && OnHead() == Some(review)
      modifies this`now, this`st, this`fixBarSteps, this`ciStarted, this`copilotStarted, this`pushed, this`heard, this`onCard, this`asked, card
      ensures CycleKept()
      ensures err == Nil ==> Cycled(outcome) && onCard.at == |old(asked)|
      ensures err == Nil && st.satisfied ==> InHand()
      ensures err != Nil ==> FixEnd(err) && (st.satisfied ==> card.mark == Present(st))
      ensures fixed.Some? && old(st.copilotRounds) < CAP && Slips(fixed.value) && review == fixed.value.late ==>
                err == Nil && !st.satisfied && heard.refused
    {
      var triaged := TriagedSoFar();
      assert Live();
      outcome, err := SettleAndSave(triaged, review);
    }

    method SettleAndSave(triaged: Seen, review: Review) returns (outcome: Cycle, err: Err)
      requires Live() && !st.satisfied && OnHead() == Some(review)
      modifies this`now, this`st, this`fixBarSteps, this`ciStarted, this`copilotStarted, this`pushed, this`heard, this`asked, card
      ensures CycleKept()
      ensures err == Nil ==> Cycled(outcome) && (st.satisfied ==> TracedReview(triaged, |old(asked)|)) && card.mark == Present(st)
      ensures err != Nil ==> FixEnd(err) && (st.satisfied ==> card.mark == Present(st))
      ensures fixed.Some? && old(st.copilotRounds) < CAP && Slips(fixed.value) && review == fixed.value.late ==>
                err == Nil && !st.satisfied && heard.refused
    {
      outcome, err := SettleLate(triaged, review);
      if err == Nil { err := Keep(); }
    }

    method SettleLate(triaged: Seen, review: Review) returns (outcome: Cycle, err: Err)
      requires Live() && !st.satisfied && OnHead() == Some(review)
      modifies this`now, this`st, this`fixBarSteps, this`ciStarted, this`copilotStarted, this`pushed, this`heard, this`asked, card
      ensures CycleKept()
      ensures err == Nil ==> Cycled(outcome) && (st.satisfied ==> TracedReview(triaged, |old(asked)|))
      ensures err != Nil ==> FixEnd(err) && !st.satisfied
      ensures fixed.Some? && old(st.copilotRounds) < CAP && Slips(fixed.value) && review == fixed.value.late ==>
                err == Nil && !st.satisfied && heard.refused
    {
      var seen;
      outcome, err, seen := WeighReview(triaged, review);
      if err == Nil && fixed.Some? && Slips(fixed.value) && review == fixed.value.late {
        ValidStays(fixed.value, asked[|asked| - 1], triaged, unreadable, unjudged);
      }
    }

    // The fixed answers let a fix slip past CI, and a check was seen already.
    predicate SlipsLate()
      reads this`ciSawChecks
    {
      fixed.Some? && Slips(fixed.value) && ciSawChecks
    }

    // ---- The CI gate -----------------------------------------------------------------------------

    method CIPark(why: Why) returns (err: Err)
      requires Live()
      modifies this`st, card
      ensures Live() && card.forged == old(card.forged) && (err == Parked(why) || err == Gone)
      ensures st == old(st).(status := st.status, detail := st.detail)
    {
      var detail := Text();
      st := st.(detail := detail);
      err := Park(why);
    }

    // One poll, classified: what is shown is what the poll answered, and the first check
    // ever on an answer settles that the PR has CI.
    method ReadPoll(count: nat, start: nat) returns (sight: Sight)
      requires Safe() && start <= now && (ciSawChecks <==> polls.ever)
      modifies this`now, this`ciSawChecks, this`ciObservedSettle, this`polls, this`pushed
      ensures now >= old(now) && (ciSawChecks <==> polls.ever) && !pushed
      ensures polls.ever <==> old(polls.ever) || polls.checks != []
      ensures sight.Hopeless? <==> polls.error == Permanent
      ensures sight.AllPassed? <==> polls.Green()
      ensures sight.SettledRed? <==> polls.error != Permanent && SettledRedOf(polls.checks)
      ensures sight.SettledRed? ==> forall c :: c in sight.failed <==> c in polls.checks && Failing(c)
      ensures sight.Nothing? <==> polls.error == Fine && polls.checks == []
      ensures fixed.Some? ==> polls.error == Fine && polls.checks == fixed.value.checks
    {
      var checks, error := Checks();
      if checks != [] { ciSawChecks := true; }
      var b := ClassifyChecks(checks);
      ObserveSettle(count > 1 && checks != [] && b.pending == 0, start);
      if error == Permanent { return Hopeless; }
      if b.failed != [] {
        assert b.failed[0] in b.failed;
        return if b.pending == 0 then SettledRed(b.failed) else Unsettled;
      }
      if checks == [] { return if error == Fine then Nothing else Failed; }
      return if b.pending == 0 && b.passing > 0 then AllPassed else Unsettled;
    }

    // No check has appeared: true when none is coming, by probe or past the grace.
    method NoChecksComing(probe: bool, start: nat) returns (none: bool)
      requires Safe() && start <= now
      modifies this`now, this`polls
      ensures now >= old(now) && polls == old(polls).(none := polls.none)
      ensures none <==> (probe && polls.none) || now - start >= NO_CHECKS_GRACE
    {
      if probe {
        none := NoCIConfigured();
        if none { return; }
      }
      none := now - start >= NO_CHECKS_GRACE;
    }

    // What the CI gate leaves of the state: only CI rounds spent, all of them counted.
    twostate predicate PollKept()
      reads this, card
    {
      && Live() && now >= old(now) && card.forged == old(card.forged)
      && st.merged == old(st.merged) && st.copilotRounds == old(st.copilotRounds)
      && copilotStarted == old(copilotStarted) && st.satisfied == old(st.satisfied) && st.copilotDetail == old(st.copilotDetail)
      && 0 <= ciStarted - old(ciStarted) <= st.ciRounds - old(st.ciRounds)
    }

    // The last poll answered no check, none ever was, and no CI round is on record.
    ghost predicate NoCI()
      reads this`polls, this`st
    {
      !polls.ever && polls.checks == [] && polls.error == Fine && st.ciRounds == 0
    }

    // What lets the CI gate pass: the last poll settled all green, or no CI at all.
    ghost predicate Passed()
      reads this`polls, this`st
    {
      polls.Green() || NoCI()
    }

    method PassCI()
      requires Live()
      modifies this`st
      ensures Live() && st == old(st).(detail := "")
    {
      st := st.(detail := "");
    }

    method ObserveSettle(settled: bool, since: nat)
      requires since <= now
      modifies this`ciObservedSettle
    {
      if ciObservedSettle == 0 && settled { ciObservedSettle := now - since; }
    }

    // The least wait a fix round must have left: one coder run, and once a CI cycle was
    // watched, that cycle too.
    function Reserve(): nat
      reads this`ciObservedSettle
    {
      if ciObservedSettle > 0 && ciObservedSettle + CODER_ALLOWANCE > FIX_ROUND_RESERVE
      then ciObservedSettle + CODER_ALLOWANCE else FIX_ROUND_RESERVE
    }

    // What is kept back is never less than the fixed reserve, nor than CI was seen to take
    // and the coder's share on top of it.
    lemma ReserveIsTheGreater()
      ensures Reserve() >= FIX_ROUND_RESERVE
      ensures ciObservedSettle > 0 ==> Reserve() >= ciObservedSettle + CODER_ALLOWANCE
      ensures Reserve() == FIX_ROUND_RESERVE || (ciObservedSettle > 0 && Reserve() == ciObservedSettle + CODER_ALLOWANCE)
    {
    }

    // A settled red poll: a fix round when there is time left for one.
    method RedPoll(failed: seq<Check>, deadline: nat) returns (err: Err)
      requires Live()
      modifies this`now, this`st, this`fixBarSteps, this`ciStarted, this`copilotStarted, this`pushed, this`heard, card
      ensures PollKept() && (err == Nil || err == Parked(NoTimeForFix) || FixEnd(err))
      ensures err == Nil ==> Left(st.ciRounds) < Left(old(st.ciRounds))
      ensures old(now) + Reserve() > deadline ==> err == Parked(NoTimeForFix) || err == Gone
      ensures old(now) + Reserve() > deadline ==> ciStarted == old(ciStarted) && st.ciRounds == old(st.ciRounds)
      ensures err == Parked(NoTimeForFix) ==> old(now) + Reserve() > deadline
      ensures fixed.Some? && old(now) + Reserve() <= deadline && old(st.ciRounds) < CAP ==> err == Nil
    {
      var reserve := FIX_ROUND_RESERVE;
      if ciObservedSettle > 0 && ciObservedSettle + CODER_ALLOWANCE > reserve {
        reserve := ciObservedSettle + CODER_ALLOWANCE;
      }
      if now + reserve > deadline {
        err := CIPark(NoTimeForFix);
        return;
      }
      err := FixAndWait(failed);
    }

    method FixAndWait(failed: seq<Check>) returns (err: Err)
      requires Live()
      modifies this`now, this`st, this`fixBarSteps, this`ciStarted, this`copilotStarted, this`pushed, this`heard, card
      ensures PollKept() && (err == Nil || FixEnd(err))
      ensures fixed.Some? && old(st.ciRounds) < CAP ==> err == Nil
      ensures err == Nil ==> Left(st.ciRounds) < Left(old(st.ciRounds))
    {
      err := CIFixRound(failed);
      if err != Nil { return; }
      var alive := Sleep(poll);
      if !alive { err := Gone; }
    }

    // A poll with no check on it, none having been seen: pass, or wait on.
    method EmptyPoll(probed: bool, start: nat) returns (passed: bool)
      requires Live() && start <= now && NoCI()
      modifies this`now, this`st, this`polls
      ensures Live() && now >= old(now) && NoCI() && polls == old(polls).(none := polls.none)
      ensures passed ==> (polls.none || now - start >= NO_CHECKS_GRACE) && st == old(st).(detail := "")
      ensures !passed ==> st == old(st)
    {
      passed := NoChecksComing(!probed, start);
      if passed { PassCI(); }
    }

    // The end of a turn that neither passed nor fixed: the deadline's park, or a sleep.
    method WaitOn(deadline: nat) returns (err: Err)
      requires Live()
      modifies this`now, this`st, card
      ensures Live() && card.forged == old(card.forged) && now >= old(now)
      ensures st == old(st).(status := st.status, detail := st.detail)
      ensures err == Nil ==> st == old(st) && old(now) <= deadline && now > old(now)
      ensures err == Nil || err == Gone || (err == Parked(WaitOver) && now > deadline)
    {
      if now > deadline {
        err := CIPark(WaitOver);
        return;
      }
      var alive := Sleep(poll);
      err := if alive then Nil else Gone;
    }

    // What a park of the CI gate says is so.
    ghost predicate Explains(err: Err, deadline: nat)
      reads this`polls, this`now, this`ciObservedSettle
    {
      && (err == Parked(CIUnreadable) ==> polls.error == Permanent)
      && (err == Parked(NoTimeForFix) ==> SettledRedOf(polls.checks) && now + Reserve() > deadline)
      && (err == Parked(WaitOver) ==> now > deadline)
      && (err == Nil || err in {Parked(CIUnreadable), Parked(NoTimeForFix), Parked(WaitOver)} || FixEnd(err))
    }

    // Why the gate may pass: a green last poll; or no CI at all, and a probe that said so
    // or the grace waited out since the gate was entered.
    ghost predicate MayPass(start: nat)
      reads this`polls, this`st, this`now
    {
      polls.Green() || (NoCI() && (polls.none || now - start >= NO_CHECKS_GRACE))
    }

    // What one poll makes the gate do: pass, end, or go on - after a fix round, or after
    // a sleep that began before the deadline.
    method CITurn(count: nat, probed: bool, saw: bool, start: nat, deadline: nat)
      returns (passed: bool, probed': bool, saw': bool, err: Err)
      requires Live() && start <= now && (saw <==> st.ciRounds > 0 || ciSawChecks)
      modifies this`now, this`st, this`fixBarSteps, this`ciStarted, this`copilotStarted, this`pushed, this`heard, card
      modifies this`ciSawChecks, this`ciObservedSettle, this`polls
      ensures PollKept() && (saw ==> saw') && (err == Nil ==> (saw' <==> st.ciRounds > 0 || ciSawChecks))
      ensures err == Nil && passed ==> MayPass(start) && !pushed && (saw ==> polls.Green())
      ensures err == Nil && !passed ==>
                || Left(st.ciRounds) < Left(old(st.ciRounds))
                || (st.ciRounds == old(st.ciRounds) && old(now) <= deadline && now > old(now))
      ensures Explains(err, deadline)
      ensures FixedGreen() ==> err == Nil && passed && st == old(st).(detail := "") && ciSawChecks
    {
      var sight := ReadPoll(count, start);
      passed, probed', err := ActOn(sight, probed, saw || ciSawChecks, start, deadline);
      saw' := saw || ciSawChecks;
    }

    // The answers are fixed, and all checks are green on every poll.
    predicate FixedGreen() {
      fixed.Some? && AllGreen(fixed.value.checks)
    }

    // The gate's answer to what a poll showed.
    method ActOn(sight: Sight, probed: bool, saw: bool, start: nat, deadline: nat)
      returns (passed: bool, probed': bool, err: Err)
      requires Live() && start <= now && (saw <==> st.ciRounds > 0 || ciSawChecks) && !pushed
      requires (sight.Hopeless? ==> polls.error == Permanent) && (sight.SettledRed? ==> SettledRedOf(polls.checks))
      requires (sight.AllPassed? <==> polls.Green()) && (sight.Nothing? <==> polls.error == Fine && polls.checks == [])
      modifies this`now, this`st, this`fixBarSteps, this`ciStarted, this`copilotStarted, this`pushed, this`heard, card, this`polls
      ensures PollKept() && polls == old(polls).(none := polls.none)
      ensures err == Nil && !saw ==> st.ciRounds == 0 || sight.SettledRed?
      ensures err == Nil && passed ==> MayPass(start) && !pushed && (saw ==> polls.Green())
      ensures err == Nil && !passed ==>
                || Left(st.ciRounds) < Left(old(st.ciRounds))
                || (st.ciRounds == old(st.ciRounds) && old(now) <= deadline && now > old(now))
      ensures Explains(err, deadline)
      ensures sight.Hopeless? ==> err == Parked(CIUnreadable) || err == Gone
      ensures sight.AllPassed? ==> err == Nil && passed && st == old(st).(detail := "")
    {
      passed, probed', err := false, probed, Nil;
      match sight {
        case Hopeless =>
          err := CIPark(CIUnreadable);
          return;
        case Nothing =>
          if !saw {
            probed' := true;
            passed := EmptyPoll(probed, start);
            if passed { return; }
          }
        case SettledRed(failed) =>
          err := RedPoll(failed, deadline);
          return;
        case AllPassed =>
          PassCI();
          passed := true;
          return;
        case _ =>
      }
      err := WaitOn(deadline);
    }

    /**
     * ciGate. It ends: a pass through the loop spends a fix round or at least one poll
     * interval before the deadline. It passes only on a last poll that answered all green,
     * or on no CI at all - the probe of that poll having proved it, or the grace being
     * over - and with nothing pushed since that poll.
     */
    method CIGate() returns (err: Err)
      requires Live()
      modifies this`now, this`st, this`fixBarSteps, this`ciStarted, this`copilotStarted, this`pushed, this`heard, card
      modifies this`ciSawChecks, this`ciObservedSettle, this`polls
      ensures PollKept()
      ensures err == Nil ==> MayPass(old(now)) && !pushed
      ensures err == Nil && old(ciSawChecks || st.ciRounds > 0) ==> polls.Green()
      ensures Explains(err, old(GateDeadline(ciWait)))
      ensures FixedGreen() ==> err == Nil && st == old(st).(detail := "") && ciSawChecks
    {
      var deadline := GateDeadline(ciWait);
      var start := now;
      var sawChecks := st.ciRounds > 0 || ciSawChecks;
      ghost var sawBefore := sawChecks;
      var count, probed, passed := 0, false, false;
      err := Nil;
      while err == Nil && !passed
        invariant PollKept() && now >= start && (sawBefore ==> sawChecks)
        invariant err == Nil && !passed ==> (sawChecks <==> st.ciRounds > 0 || ciSawChecks)
        invariant err == Nil && passed ==> MayPass(start) && !pushed && (sawBefore ==> polls.Green())
        invariant Explains(err, deadline)
        invariant FixedGreen() ==> err == Nil
        invariant FixedGreen() ==> if passed then st == old(st).(detail := "") && ciSawChecks else st == old(st)
        decreases if err == Nil && !passed then 1 else 0, Left(st.ciRounds), deadline - now
      {
        count := count + 1;
        passed, probed, sawChecks, err := CITurn(count, probed, sawChecks, start, deadline);
      }
    }

    // ---- The merge and the phase --------------------------------------------------------------

    // mergeAfterGates: a recorded merge is never repeated, a refusal parks, and a dead
    // context is neither.
    method MergeAfterGates() returns (err: Err)
      requires Live()
      modifies this`now, this`st, this`mergeCalls, card
      ensures Live() && now >= old(now) && card.forged == old(card.forged)
      ensures mergeCalls == old(mergeCalls) + (if old(st.merged) then 0 else 1)
      ensures old(st.merged) ==> err == Nil && st == old(st)
      ensures err == Nil ==> st.merged && (card.mark == Present(st) || st == old(st))
      ensures st.ciRounds == old(st.ciRounds) && st.satisfied == old(st.satisfied)
      ensures st.copilotDetail == old(st.copilotDetail) && st.copilotRounds == old(st.copilotRounds)
      ensures fixed.Some? ==> err == Nil
    {
      if st.merged { return Nil; }
      var r := MergePullRequest();
      match r {
        case Cancelled =>
          err := Gone;
        case MergeRefused =>
          err := CIPark(RefusedMerge);
        case MergeDone =>
          err := RecordMerge();
      }
    }

    method RecordMerge() returns (err: Err)
      requires Live()
      modifies this`st, card
      ensures Live() && card.forged == old(card.forged) && (err == Nil || err == Gone)
      ensures err == Nil ==> st.merged && card.mark == Present(st)
      ensures st == old(st).(merged := st.merged)
      ensures fixed.Some? ==> err == Nil
    {
      var alive := Alive();
      if !alive { return Gone; }
      st := st.(merged := true);
      alive := Save();
      err := if alive then Nil else Gone;
    }

    // What the gates leave, taken together.
    twostate predicate GatesKept()
      reads this, card
    {
      && Live() && (old(card.forged) ==> card.forged) && st.merged == old(st.merged)
      && looked.looks >= old(looked.looks) && now >= old(now)
    }

    // Behind a CI pass, a fix the head was pushed by since - on a late review the gate was
    // never satisfied with, its re-request refused for good.
    ghost predicate SlippedBy()
      reads this`heard, this`st
    {
      awaitCopilot && !st.satisfied && heard.refused && IsUnavailable(st.copilotDetail) && st.copilotRounds > 0
    }

    // The enabled gates, the Copilot gate's answer written before the CI gate can be torn
    // down.
    method EnabledGates() returns (err: Err)
      requires Live()
      modifies this`now, this`st, this`fixBarSteps, this`ciStarted, this`copilotStarted, this`pushed, this`looked, this`heard, this`onCard, this`asked, card
      modifies this`ciSawChecks, this`ciObservedSettle, this`polls
      ensures GatesKept() && st.copilotRounds >= old(st.copilotRounds)
      ensures st.copilotRounds > old(st.copilotRounds) ==> st.copilotRounds <= CAP
      ensures err == Nil && awaitCI ==> Passed() && !pushed
      ensures err == Nil && st.satisfied && !old(st.satisfied) ==> LatestAddressed()
      ensures err == Nil && awaitCopilot ==> CopilotPassed(old(FirstDue()))
      ensures SlipsFrom(old(st)) && !old(ciSawChecks) ==>
                err == Nil && SlipsFrom(st) && ciSawChecks && st.copilotDetail == ""
    {
      err := CopilotIfAsked();
      if err == Nil && awaitCI { err := CIGate(); }
    }

    method CopilotIfAsked() returns (err: Err)
      requires Live()
      modifies this`now, this`st, this`fixBarSteps, this`ciStarted, this`copilotStarted, this`pushed, this`looked, this`heard, this`onCard, this`asked, card
      ensures GatesKept() && st.copilotRounds >= old(st.copilotRounds)
      ensures st.copilotRounds > old(st.copilotRounds) ==> st.copilotRounds <= CAP
      ensures err == Nil && st.satisfied && !old(st.satisfied) ==> LatestAddressed()
      ensures err == Nil && awaitCopilot ==> CopilotPassed(old(FirstDue()))
      ensures SlipsFrom(old(st)) && !ciSawChecks ==> err == Nil && SlipsFrom(st) && st.copilotDetail == ""
    {
      err := Nil;
      if awaitCopilot { err := CopilotGateAndSave(); }
    }

    method CopilotGateAndSave() returns (err: Err)
      requires Live()
      modifies this`now, this`st, this`fixBarSteps, this`ciStarted, this`copilotStarted, this`pushed, this`looked, this`heard, this`onCard, this`asked, card
      ensures CycleKept()
      ensures err == Nil || st.satisfied ==> card.mark == Present(st)
      ensures err == Nil && st.satisfied && !old(st.satisfied) ==> LatestAddressed()
      ensures err == Nil ==> CopilotPassed(old(FirstDue()))
      ensures FixedEarly() && !old(st.satisfied) ==> err == Nil && st == old(st).(copilotDetail := "")
    {
      err := CopilotGate();
      if err == Nil { err := Keep(); }
    }

    // The Copilot gate let the run on: satisfied, refused, or with a wait over.
    ghost predicate CopilotPassed(due: nat)
      reads this`st, this`now
    {
      st.satisfied || IsUnavailable(st.copilotDetail) || now > due
    }

    // The Copilot gate is done with: satisfied - before these gates, or with the latest
    // review addressed - or refused for good, or without a review of the head at a last look
    // behind the gates, with a wait for one over.
    ghost predicate CopilotSettled(was: bool, looks: nat, due: nat)
      reads this`st, this`looked, this`heard, this`asked, this`onCard, this`now
    {
      || (st.satisfied && (was || LatestAddressed()))
      || IsUnavailable(st.copilotDetail)
      || (looked.looks > looks && OnHead() == None && now > due)
    }

    // Behind a CI pass, and the head has a push behind it only as SlippedBy says.
    ghost predicate Done()
      reads this`polls, this`st, this`heard, this`pushed
    {
      Passed() && (pushed ==> SlippedBy())
    }

    // The phase is done with: each gate that is awaited.
    ghost predicate PhaseDone(looks: nat, due: nat)
      reads this`now, this`polls, this`st, this`heard, this`pushed, this`looked, this`asked, this`onCard, this`wasSatisfied
    {
      (awaitCI ==> Done()) && (awaitCopilot ==> CopilotSettled(wasSatisfied, looks, due))
    }

    /**
     * One turn of the phase's loop: the enabled gates, then the late probe. With CI
     * awaited it goes round again exactly when the late check pushed a fix and its
     * re-request was not refused; so it ends behind a pass on the very head, or with one
     * slipped by. It goes round again only with a Copilot round spent.
     */
    method GatesTurn() returns (more: bool, err: Err)
      requires Live()
      modifies this`now, this`st, this`fixBarSteps, this`ciStarted, this`copilotStarted, this`pushed, this`looked, this`heard, this`onCard, this`asked, card
      modifies this`ciSawChecks, this`ciObservedSettle, this`polls
      ensures GatesKept()
      ensures err == Nil && awaitCI ==> Passed() && (more <==> pushed && !heard.refused)
      ensures err == Nil && awaitCI && pushed && !more ==> SlippedBy()
      ensures err == Nil && more ==> Left(st.copilotRounds) < Left(old(st.copilotRounds)) && !st.satisfied
      ensures err == Nil && awaitCopilot && !more ==> CopilotSettled(old(st.satisfied), old(looked.looks), old(FirstDue()))
      ensures SlipsFrom(old(st)) && !old(ciSawChecks) ==> err == Nil && !more && pushed
    {
      err := EnabledGates();
      if err != Nil { return false, err; }
      assert !IsUnavailable("");
      if !awaitCopilot || st.satisfied { return false, Nil; }
      // A repository proven to refuse the review has none to probe for.
      if IsUnavailable(st.copilotDetail) { return false, Nil; }
      more, err := LateCheck();
    }

    // The fixed answers let a fix slip past CI in a run that awaits both gates.
    predicate SlipsFrom(from: GatesState) {
      awaitCI && awaitCopilot && fixed.Some? && Slips(fixed.value) && !from.satisfied && from.copilotRounds < CAP
    }

    method LoadState()
      requires Inv()
      modifies this`st, this`wasSatisfied
      ensures wasSatisfied == st.satisfied
      ensures Live() && (card.body == "" ==> !st.satisfied && !st.merged && st.copilotRounds == 0)
    {
      st := card.Load();
      wasSatisfied := st.satisfied;
    }

    // FindPRURL: none, a failure counting as none.
    method FindPR() returns (url: string)
      requires Safe()
      modifies this`now, this`onBranch
      ensures now >= old(now) && onBranch == Some(url)
    {
      Elapse();
      url := Text();
      onBranch := Some(url);
    }

    // The PR to gate on: the run's own, the one reported earlier, or one found on the branch.
    method PullRequest(own: string, reported: string) returns (url: string, err: Err)
      requires Inv()
      modifies this`now, this`st, this`wasSatisfied, this`onBranch, card
      ensures Inv() && FirstDue() >= old(FirstDue()) && card.forged == old(card.forged)
      ensures err == Nil && (awaitCI || awaitCopilot) && createPR ==> url != ""
      ensures own != "" ==> url == own && err == Nil
      ensures err == Nil ==> card.body == old(card.body)
      ensures own == "" && reported != "" ==> url == reported && err == Nil
      ensures own == "" && reported == "" && (awaitCI || awaitCopilot) && createPR ==> onBranch == Some(url)
    {
      url, err := if own == "" then reported else own, Nil;
      if (awaitCI || awaitCopilot) && createPR && url == "" {
        LoadState();
        url := FindPR();
        if url == "" {
          err := Park(NoPR);
        }
      }
    }

    // The phase's loop, over the state the body bears.
    method HoldGates(ghost due: nat) returns (err: Err)
      requires Inv() && due <= FirstDue()
      modifies this`now, this`st, this`wasSatisfied, this`fixBarSteps, this`ciStarted, this`copilotStarted, this`pushed, this`looked, this`heard, this`onCard, this`asked, card
      modifies this`ciSawChecks, this`ciObservedSettle, this`polls
      ensures Live() && (old(card.forged) ==> card.forged)
      ensures err == Nil ==> PhaseDone(old(looked.looks), due)
    {
      LoadState();
      err := TurnUntilDone(looked.looks, due);
      if err == Nil { err := Conclude(); }
    }

    method TurnUntilDone(ghost looks: nat, ghost due: nat) returns (err: Err)
      requires Live() && st.satisfied == wasSatisfied && looks <= looked.looks && due <= FirstDue()
      modifies this`now, this`st, this`fixBarSteps, this`ciStarted, this`copilotStarted, this`pushed, this`looked, this`heard, this`onCard, this`asked, card
      modifies this`ciSawChecks, this`ciObservedSettle, this`polls
      ensures Live() && (old(card.forged) ==> card.forged)
      ensures err == Nil ==> PhaseDone(looks, due)
    {
      var more := true;
      err := Nil;
      while more
        invariant Live() && (old(card.forged) ==> card.forged)
        invariant (more && st.satisfied ==> wasSatisfied) && looks <= looked.looks && due <= FirstDue()
        invariant !more ==> PhaseDone(looks, due)
        decreases more, Left(st.copilotRounds)
      {
        more, err := TurnOf(looks, due);
        if err != Nil { return; }
      }
    }

    // A turn, as what it settles of the phase.
    method TurnOf(ghost looks: nat, ghost due: nat) returns (more: bool, err: Err)
      requires Live() && (st.satisfied ==> wasSatisfied) && looks <= looked.looks && due <= FirstDue()
      modifies this`now, this`st, this`fixBarSteps, this`ciStarted, this`copilotStarted, this`pushed, this`looked, this`heard, this`onCard, this`asked, card
      modifies this`ciSawChecks, this`ciObservedSettle, this`polls
      ensures Live() && (old(card.forged) ==> card.forged) && looks <= looked.looks && due <= FirstDue()
      ensures err == Nil && !more ==> PhaseDone(looks, due)
      ensures err == Nil && more ==> Left(st.copilotRounds) < Left(old(st.copilotRounds)) && !st.satisfied
    {
      more, err := GatesTurn();
    }

    method Conclude() returns (err: Err)
      requires Live()
      modifies this`st, card
      ensures Live() && card.forged == old(card.forged) && (err == Nil || err == Gone)
      ensures st == old(st).(status := "passed") && card.mark == Present(st)
      ensures fixed.Some? ==> err == Nil
    {
      st := st.(status := "passed");
      err := Keep();
    }

    method GateAndMerge(ghost due: nat) returns (err: Err)
      requires Inv() && due <= FirstDue()
      modifies this`now, this`st, this`wasSatisfied, this`fixBarSteps, this`ciStarted, this`copilotStarted, this`pushed, this`looked, this`heard, this`onCard, this`asked, card
      modifies this`ciSawChecks, this`ciObservedSettle, this`polls, this`mergeCalls
      ensures Live() && (old(card.forged) ==> card.forged)
      ensures err == Nil || mergeCalls > old(mergeCalls) ==> PhaseDone(old(looked.looks), due)
      ensures err == Nil && awaitCI && mergePR ==> st.merged
      ensures mergeCalls <= old(mergeCalls) + 1
      ensures mergeCalls > old(mergeCalls) ==> awaitCI && mergePR
      ensures mergeKept && !card.forged ==> mergeCalls == old(mergeCalls)
    {
      err := HoldGates(due);
      if err == Nil { err := MergeIfAsked(old(looked.looks), due); }
    }

    // The merge leaves the gates done with.
    method MergeIfAsked(ghost looks: nat, ghost due: nat) returns (err: Err)
      requires Live() && PhaseDone(looks, due)
      modifies this`now, this`st, this`mergeCalls, card
      ensures Live() && card.forged == old(card.forged) && PhaseDone(looks, due)
      ensures err == Nil && awaitCI && mergePR ==> st.merged
      ensures mergeCalls == old(mergeCalls) + (if awaitCI && mergePR && !old(st.merged) then 1 else 0)
    {
      err := Nil;
      if awaitCI && mergePR { err := MergeAfterGates(); }
    }

    /**
     * runPRGates. With CI awaited and a PR there, the phase is done only behind a last
     * poll that lets CI pass; and the head has a push behind that poll only as SlippedBy
     * says - a late fix whose re-request was refused (LateCheck has the converse, and
     * SlipHappens a run it happens to). With the Copilot review awaited, CI or not, it is
     * done only with that gate settled: satisfied when it began or by the latest review,
     * refused, or without a review of the head at a last look. With a PR intended it is
     * never done without one. It merges at most once, only then, and never with the merge
     * on record.
     */
    method RunPRGates(own: string, reported: string) returns (url: string, err: Err)
      requires Inv()
      modifies this`onBranch, this`now, this`st, this`wasSatisfied, this`fixBarSteps, this`ciStarted, this`copilotStarted, this`pushed, this`looked, this`heard, this`onCard, this`asked, card
      modifies this`ciSawChecks, this`ciObservedSettle, this`polls, this`mergeCalls, this`atDone
      ensures Inv() && (old(card.forged) ==> card.forged)
      ensures !old(atDone) ==> (atDone <==> err == Nil)
      ensures err == Nil && createPR && (awaitCI || awaitCopilot) ==> url != ""
      ensures (own != "" ==> url == own) && (own == "" && reported != "" ==> url == reported)
      ensures own == "" && reported == "" && (awaitCI || awaitCopilot) && createPR ==> onBranch == Some(url)
      ensures (err == Nil && url != "") || mergeCalls > old(mergeCalls) ==> PhaseDone(old(looked.looks), old(FirstDue()))
      ensures mergeCalls <= old(mergeCalls) + 1
      ensures mergeCalls > old(mergeCalls) ==> awaitCI && mergePR
      ensures err == Nil && awaitCI && mergePR && url != "" ==> st.merged
      ensures mergeKept && !card.forged ==> mergeCalls == old(mergeCalls)
    {
      url, err := GatePhase(own, reported);
      if err != Nil { return; }
      assert Inv();
      err := Transition();
    }

    // All of the phase but the card's move.
    method GatePhase(own: string, reported: string) returns (url: string, err: Err)
      requires Inv()
      modifies this`onBranch, this`now, this`st, this`wasSatisfied, this`fixBarSteps, this`ciStarted, this`copilotStarted, this`pushed, this`looked, this`heard, this`onCard, this`asked, card
      modifies this`ciSawChecks, this`ciObservedSettle, this`polls, this`mergeCalls
      ensures Inv() && (old(card.forged) ==> card.forged)
      ensures err == Nil && createPR && (awaitCI || awaitCopilot) ==> url != ""
      ensures (own != "" ==> url == own) && (own == "" && reported != "" ==> url == reported)
      ensures own == "" && reported == "" && (awaitCI || awaitCopilot) && createPR ==> onBranch == Some(url)
      ensures (err == Nil && url != "") || mergeCalls > old(mergeCalls) ==> PhaseDone(old(looked.looks), old(FirstDue()))
      ensures mergeCalls <= old(mergeCalls) + 1
      ensures mergeCalls > old(mergeCalls) ==> awaitCI && mergePR
      ensures err == Nil && awaitCI && mergePR && url != "" ==> st.merged
      ensures mergeKept && !card.forged ==> mergeCalls == old(mergeCalls)
    {
      ghost var due := FirstDue();
      url, err := PullRequest(own, reported);
      if err != Nil { return; }
      if (awaitCI || awaitCopilot) && url != "" { err := GateAndMerge(due); }
    }

    // The card's move to done.
    method Transition() returns (err: Err)
      modifies this`atDone
      ensures err == Nil || err == Broken
      ensures atDone <==> old(atDone) || err == Nil
      ensures fixed.Some? ==> err == Nil
    {
      var moved := Alive();
      atDone := atDone || moved;
      err := if moved then Nil else Broken;
    }

    // A new card's run with answers that slip, step by step as RunPRGates takes them.
    method SlipThrough() returns (err: Err)
      requires Inv() && card.body == "" && !ciSawChecks && awaitCI && awaitCopilot && fixed.Some? && Slips(fixed.value)
      modifies this`now, this`st, this`wasSatisfied, this`fixBarSteps, this`ciStarted, this`copilotStarted, this`pushed, this`looked, this`heard, this`onCard, this`asked, card
      modifies this`ciSawChecks, this`ciObservedSettle, this`polls, this`mergeCalls, this`atDone
      ensures err == Nil && Passed() && pushed && st.merged && mergeCalls == old(mergeCalls) + 1
    {
      LoadState();
      var more;
      more, err := GatesTurn();
      assert !more && err == Nil;
      err := Conclude();
      err := MergeAfterGates();
      err := Transition();
    }

    // ---- Process after process --------------------------------------------------------------------

    // What the next process does not remember.
    method Forgets()
      modifies this`st, this`ciSawChecks, this`ciObservedSettle, this`fixBarSteps, this`lifeEnd
      modifies this`polls, this`looked, this`heard, this`asked, this`pushed, this`onCard, this`wasSatisfied
      ensures Counted(st) && !ciSawChecks && polls == NoPolls()
    {
      st := GatesState.GatesState(0, 0, false, false, "", "", "");
      ciSawChecks, ciObservedSettle, fixBarSteps := false, 0, 0;
      var end: int := *;
      lifeEnd := if end < 0 then None else Some(end);
      polls, looked, heard, asked, pushed := NoPolls(), NothingLooked(), NothingHeard(), [], false;
      onCard, wasSatisfied := OnCard(map[], 0), false;
    }

    // The next process: it reads the board's copy and remembers nothing else. Safe is all
    // it needs of where the last one ended.
    method Resume()
      requires Safe() && 0 < poll
      modifies this, card
      ensures Inv() && card.forged == old(card.forged)
      ensures ciStarted == old(ciStarted) && copilotStarted == old(copilotStarted) && mergeCalls == old(mergeCalls)
      ensures stale == old(stale) + (if old(card.body != card.durable) then 1 else 0)
      ensures mergeKept <==> old(mergeKept) || card.kept.Merged()
      ensures card.body == card.durable == old(card.durable)
    {
      ghost var lost := card.Reload();
      if lost { stale := stale + 1; }
      mergeKept := mergeKept || card.kept.Merged();
      Forgets();
    }

    // forgetFinishedRun: a run started afresh drops what a finished one left on the card,
    // and is counted from here.
    method FreshRun()
      requires Inv()
      modifies this, card
      ensures Inv()
      ensures ciStarted == 0 && copilotStarted == 0 && mergeCalls == 0 && stale == 0 && !mergeKept
    {
      card.StartAfresh();
      Forgets();
      ciStarted, copilotStarted, mergeCalls, stale, mergeKept := 0, 0, 0, 0, false;
      atDone := false;
    }

    // What another phase writes between two runs of the gates.
    method OtherPhase(heading: string, section: string)
      requires Inv() && heading != GatesRecord.GatesHeading()
      modifies card
      ensures Inv() && (old(card.forged) ==> card.forged)
    {
      card.RecordSection(heading, section);
    }

    // One process: another phase's section, the gates, and the end of it.
    method OneLife()
      requires Inv()
      modifies this, card
      ensures Inv() && (old(card.forged) ==> card.forged) && stale <= old(stale) + 1
      ensures old(mergeKept) ==> mergeKept && (!card.forged ==> mergeCalls == old(mergeCalls))
    {
      var heading := Text();
      var section := Text();
      if heading != GatesRecord.GatesHeading() { OtherPhase(heading, section); }
      GatesLife();
      Resume();
    }

    // The gates of one process, as what the next ones build on.
    method GatesLife()
      requires Inv()
      modifies this, card
      ensures Inv() && (old(card.forged) ==> card.forged) && stale == old(stale) && mergeKept == old(mergeKept)
      ensures mergeKept && !card.forged ==> mergeCalls == old(mergeCalls)
    {
      var own := Text();
      var reported := Text();
      var url, err := RunPRGates(own, reported);
    }

    /**
     * Any number of processes, each ending anywhere: unless text of another section
     * passed for the gates' own, no more than three fix rounds of either kind were ever
     * started for every process that ended with an unkept write, and three besides -
     * three in all when every write is kept. Once the board has the merge on record, it
     * is never asked for again.
     */
    method Lives(n: nat)
      requires Inv()
      modifies this, card
      ensures Inv()
      ensures !card.forged ==> ciStarted <= 3 * (1 + stale) && copilotStarted <= 3 * (1 + stale)
      ensures stale <= old(stale) + n
      ensures old(mergeKept) && !card.forged ==> mergeCalls == old(mergeCalls)
    {
      for i := 0 to n
        invariant Inv() && stale <= old(stale) + i && (old(card.forged) ==> card.forged)
        invariant old(mergeKept) ==> mergeKept && (!card.forged ==> mergeCalls == old(mergeCalls))
      {
        OneLife();
      }
    }

    /** The same bounds, counted since the last fresh run, over any number of fresh runs. */
    method FreshRuns(n: nat)
      requires Inv()
      modifies this, card
      ensures Inv()
      ensures n > 0 && !card.forged ==> ciStarted <= 3 * (1 + stale) && copilotStarted <= 3 * (1 + stale)
    {
      for i := 0 to n
        invariant Inv()
        invariant i > 0 && !card.forged ==> ciStarted <= 3 * (1 + stale) && copilotStarted <= 3 * (1 + stale)
      {
        FreshRun();
        var k: int := *;
        if k > 0 { Lives(k); }
      }
    }
  }

  /**
   * A run that merges a head CI never passed: all green, a late review with one valid
   * finding, a fix pushed, and a refusal of the re-request behind it.
   */
  method SlipHappens() returns (run: Run, err: Err)
    ensures err == Nil && run.awaitCI && run.Passed() && run.pushed && run.st.merged && run.mergeCalls == 1
  {
    EmptyIsUntouched();
    var body := new CardBody("");
    var f := Finding("a.go", "nil dereference", true, "reachable");
    var late := Review("c1", []);
    var answers := Answers([Check("build", "pass", "")], late, Answer.Read([f]), AskFailed(UnavailableText()));
    run := new Run(body, true, true, true, true, 10, 3600, 1200, None, Some(answers));
    SlipAnswers(answers, f);
    err := run.SlipThrough();
  }

  lemma SlipAnswers(a: Answers, f: Finding)
    requires f.valid && a.reply == Answer.Read([f]) && a.checks == [Check("build", "pass", "")]
    requires a.late == Review("c1", []) && a.post == AskFailed(UnavailableText())
    ensures Slips(a)
  {
    assert f in a.reply.findings;
    assert Contains(UnavailableText(), UnavailableText());
  }
}
