# A model of the agent's run logic, with proofs

The agent drives one card through a fixed sequence of phases in containers that may be
torn down at any moment. What it must not lose or do twice it keeps as text on the card
body. This project models the code that this rests on and proves what it keeps:

- **The section store** (`Text`, `Sections`, `SectionLaws`, `SectionHead`, `History`,
  `PromptView`): the card body as a text database of `## ` sections. The methods follow
  the line scans over text; the laws are about functions on lists of lines. A section
  starts at any line whose *trimmed* text is its heading and ends before a *column-0*
  `## ` line; the laws say exactly what that mismatch costs.
- **The PR gates** (`GatesRecord`, `GatesRecordLaws`, `Card`, `Gates`): the Copilot gate,
  the CI gate, the late probe and the merge as the poll and fix loops they are, over a
  body whose writes may be lost and a process that may end at any call. Every answer
  from outside is arbitrary (`:= *`) and kept in ghost records that only the calls
  themselves write; the gates' results are stated of these records.
- **Copilot triage** (`CommentKeys`, `Triage`, `TriageRecord`): the dedupe keys, the
  verdicts, and the record a later container reads back.
- **Scheduling** (`Topo`, `TopoLaws`, `Plan`): plan validation, the cards made of a plan,
  and the order a first and a resumed run work through them.
- **Shutdown** (`ExitReports`, `Shutdown`): the report claims and the tracker as classes,
  and the whole protocol as a transition system over any interleaving.
- **Streams** (`RunLog`, `LineWriters`): the run-header count and the two line writers,
  against a specification on the whole stream.
- **A run's bookkeeping** (`Mob`, `Ledger`, `SeatContext`, `Phases`, `Solo`): the mob
  discussion, the budget, the seat context, the phase loop, and the path of a solo
  subtask to completion.

Crashes are modelled where they can matter: a call that writes, pushes, merges, requests
or sleeps may be the process's last, with or without its effect. Every call to the
outside demands what the next process needs (`Gates.Run.Safe`, all that
`Gates.Run.Resume` asks for), a fix run also that its round is on the card already. A
run of several processes is a loop that reloads what the board kept. Ghost fields count what no process
remembers (fix rounds started, merges asked for, processes that ended with a write the
board did not keep). Where a property fails, a run with answers fixed in advance
(`fixed`) shows it failing.

Where the code differs from what its comments say, the model follows the code:

- `upsertSection` keeps the newline behind what follows and adds another, so writing twice
  equals writing once only up to trailing newlines, and exactly when no section follows
  (`SectionLaws.LastWriteWins`).
- A section whose heading is indented inside another is cut out of it by a write or a
  removal (`SectionLaws.IndentedHeadingSwallowed`); `SectionLaws.UpsertKeepsOthers` and
  `RemoveKeepsOthers` say exactly when another section is left as it was.
- A triage that omits an entry records the comment VALID and still satisfies the gate
  (`Triage.OmittedEntryPasses`); with one entry per comment it cannot.
- A refused re-request behind a pushed late fix completes the card, and merges, with a
  head CI never passed: the loop goes round again exactly when a late fix was pushed and
  its re-request not refused (`Gates.Run.GatesTurn`), and a run to its end shows the rest
  (`Gates.SlipHappens`).
- A model's own text can open a `## PR Gates` section before the recorded one, and its
  counters then count (`GatesRecordLaws.OthersCanHijack`; `HoldsThroughOthers` says exactly
  when the recorded ones survive); a detail that quotes a marker
  line sets the marker (`GatesRecordLaws.QuotedMarkerReadsAsMerged`).
- A start that fails once its run is tracked reports outside the shutdown claims, so the
  run can be reported failed twice (`Shutdown.LaunchReportedTwice`) - exactly when a
  snapshot of the tracker caught it still starting (`Shutdown.TwiceWhenCaughtStarting`).
- A board that answers one ID twice can leave an accepted plan without an order
  (`Plan.OneIdCannotWait`; exactly when, `Plan.OrderedIffOpen`).
- A checkpoint revise refused on a tree that is HEAD itself leaves HEAD refused by its
  last verdict, and the subtask completes (`Solo.RefusedHeadCompletes`);
  `Solo.Solver.Checkpoint` says exactly when, for any reviser.
- A task that answers a message sent to another holds less than the cursor of its seat
  says, exactly when something was said before it (`Mob.StrayKnowsLess`); the told entries
  are stated of tasks that did not (`Mob.Discussion.SendTurn`).

## Model

| member | source | states |
|---|---|---|
| Sections.UpsertSection | internal/orchestrator/history.go:296-352 | the text scan equals the line-level upsert, for any body, heading and section |
| Sections.RemoveSection | internal/orchestrator/history.go:357-407 | the text scan equals the line-level removal |
| Sections.ExtractSection | internal/orchestrator/history.go:415-445 | the text scan equals the line-level extraction |
| SectionLaws.ExtractAfterUpsert | internal/orchestrator/history.go:296-445 | extraction after an upsert gives the section up to its first further column-0 heading, whatever the body held |
| SectionLaws.UpsertTwice | internal/orchestrator/history.go:296-352 | a second upsert leaves what it alone would have left, up to trailing blank lines, and exactly when no section follows |
| SectionLaws.ReadBack | internal/orchestrator/history.go:296-445 | on text: what was written is read back, less trailing newlines |
| SectionLaws.LastWriteWins | internal/orchestrator/history.go:296-352 | on text: two writes equal the last up to trailing newlines, and exactly when no section follows |
| SectionLaws.UpsertKeepsOthers | internal/orchestrator/history.go:296-445 | a write of a column-0 section that opens nothing of another leaves that other as it was exactly when the section replaced leaves it be: its block ends before it, or the section does not open it, or what stands behind reads the same |
| SectionLaws.RemoveKeepsOthers | internal/orchestrator/history.go:357-445 | a removal leaves another section as it was exactly then |
| SectionLaws.RemoveForgets | internal/orchestrator/history.go:357-445 | after a removal nothing of the heading is read exactly when the rest of the body does not open it again |
| SectionLaws.IndentedHeadingSwallowed | internal/orchestrator/history.go:305-327 | the counterexample: writing a section whose heading is indented inside another cuts the other short |
| SectionHead.HeadSurvives | internal/orchestrator/history.go:296-445 | a section's first lines survive a write of another section, in any body, exactly when they stand in front of it, or the text does not open their section, or first opens it with the same lines |
| SectionHead.HeadIsWritten | internal/orchestrator/history.go:296-352 | a write puts its first lines where the reader starts |
| SectionHead.HeadIsRead | internal/orchestrator/history.go:415-445 | and the reader returns them first |
| SectionHead.HeadHijacked | internal/orchestrator/history.go:296-445 | text that opens another section, written in front of it, is what that section's reader gets |
| History.StripSections | internal/orchestrator/history.go:607-647 | the stripping loop equals its line-level function |
| History.KeptAreNotUnder | internal/orchestrator/history.go:607-647 | the strip keeps, in order, exactly the lines that stand under no line it knows with no column-0 heading between |
| History.RecordingStaysHidden | internal/orchestrator/history.go:296-352 | recording never changes what prompts see, in any body, exactly when the text holds no column-0 heading the strip does not know |
| PromptView.RecordingKeepsView | internal/orchestrator/history.go:607-647 | on text: the stripped view after a recording equals the one before, trimmed and without empty lines |
| PromptView.RoundKeepsView | internal/orchestrator/gates.go:1363-1412 | a Copilot triage round of single-line findings, recorded in any body, changes no prompt |
| PromptView.ListedIsAgent | internal/orchestrator/history.go:476-495 | a heading is the strip's exactly when it is on the once list or starts like one on the per-round list |
| PromptView.OpenersAreAgent | internal/orchestrator/history.go:476-495 | any line that opens such a section, indented or not, is one the strip knows |
| History.SectionsWithPrefix | internal/orchestrator/history.go:528-546 | the loop returns the selected lines, each newline-terminated |
| History.RemoveSectionsWithPrefix | internal/orchestrator/history.go:500-522 | the loop returns the unselected lines, the body itself when nothing was selected |
| History.SelectedAreUnder | internal/orchestrator/history.go:500-546 | a read by prefix finds, in order, exactly the lines under a column-0 heading it selects; a removal leaves, in order, exactly the others |
| History.PrefixForgotten | internal/orchestrator/history.go:500-546 | after a removal by prefix a read by prefix finds nothing |
| History.EscapeHeadingsAndFences | internal/orchestrator/history.go:94-105 | the in-place loop equals the line-wise escape |
| History.EscapeKeepsText | internal/orchestrator/history.go:84-105 | a line that starts as a heading or a fence behind its spaces comes out led by a backslash, its text kept; any other line as it was |
| History.EscapedOpensNothing | internal/orchestrator/history.go:84-105 | escaped text neither opens nor ends a section, of any heading |
| GatesRecord.RecordGates | internal/orchestrator/gates.go:2205-2233 | the builder writes the section: header, counters, markers, status, the two details |
| GatesRecord.RenderedText | internal/orchestrator/gates.go:2205-2233 | behind the header the text is the status, the Copilot detail and the CI detail, each in full when there is one |
| GatesRecordLaws.RecordedHolds | internal/orchestrator/gates.go:2205-2233 | whatever the body and the details, recording makes the body hold the progress |
| GatesRecordLaws.HeldIsRead | internal/orchestrator/gates.go:2235-2277 | a body that holds progress is read as exactly its counters and at least its markers |
| GatesRecordLaws.RoundTrip | internal/orchestrator/gates.go:2205-2261 | counters come back exactly; a marker comes back set exactly when it was set or a later line of the section spells it |
| GatesRecordLaws.HoldsThroughOthers | internal/orchestrator/gates.go:2205-2261 | the progress survives any other section's write exactly when it stands in front, or the text opens no "## PR Gates", or first opens one that records the same |
| GatesRecordLaws.OthersCanHijack | internal/orchestrator/gates.go:1383-1391 | what is held instead: text that opens "## PR Gates" in front of the recorded section |
| GatesRecordLaws.QuotedMarkerReadsAsMerged | internal/orchestrator/gates.go:2222-2260 | a detail that quotes the merge marker makes a resumed run believe in a merge |
| Card.BornIsLoaded | internal/orchestrator/gates.go:2249-2261 | loading recovers what a body bears; an untouched body reads as no progress |
| Card.OtherKeepsMark | internal/orchestrator/history.go:17-24 | a body goes on bearing what it bore through another section's write exactly then |
| Card.CardBody.Record | internal/orchestrator/history.go:17-24 | the run's copy bears the new progress; the board's copy bears it too, or still what it bore |
| Card.CardBody.RecordRound | internal/orchestrator/gates.go:1363-1412 | a triage round forges the gates' record exactly when it does not spare it; a round of single-line findings always does |
| Card.CardBody.Reload | internal/orchestrator/resume.go:39-50 | the next process starts from the board's copy, with the same counters when the last write was kept |
| Card.CardBody.Forget | internal/orchestrator/resume.go:183-197 | a fresh run drops both kinds of section from its copy, and from the board's when the write lands |
| CommentKeys.FlattenIsFlat | internal/orchestrator/gates.go:1694-1696 | flattening leaves words and single spaces |
| CommentKeys.FlattenKeepsWords | internal/orchestrator/gates.go:1694-1696 | flattening keeps every word, in order, and adds none |
| CommentKeys.FlatPrefix | internal/orchestrator/gates.go:1682-1706 | a prefix of flat text is flattened to itself exactly when it does not end in a space |
| CommentKeys.LineParses | internal/orchestrator/gates.go:53-58 | the recorded line parses to its verdict, its path up to the first ": ", and the rest |
| CommentKeys.KeyReadsBack | internal/orchestrator/gates.go:1599-1696 | the key read back from the card is the key recorded, for a path that can be split and a digest not ending in a space |
| CommentKeys.KeyLost | internal/orchestrator/gates.go:1599-1696 | and is another key for every other comment |
| Triage.UnseenComments | internal/orchestrator/gates.go:1627-1639 | exactly the comments without a verdict on record, in order |
| Triage.UnseenSifts | internal/orchestrator/gates.go:1627-1639 | these are all of them, each place once and in order |
| Triage.RepeatedValidComments | internal/orchestrator/gates.go:1644-1654 | exactly the comments on record as VALID, in order |
| Triage.StillOpenSifts | internal/orchestrator/gates.go:1644-1654 | these are all of them, each place once and in order |
| Triage.CopilotCommentVerdicts | internal/orchestrator/gates.go:1422-1479 | a comment is INVALID only if a finding judges it and none that does is valid |
| Triage.CommentsAsFindings | internal/orchestrator/gates.go:1509-1522 | unjudged comments all stand as valid findings |
| Triage.ValidCopilotFindings | internal/orchestrator/gates.go:1526-1536 | only valid findings fund a fix, and none only if none is valid |
| Triage.ValidSifts | internal/orchestrator/gates.go:1526-1536 | every valid finding is kept, each place once and in order |
| Triage.SatisfiedMeansDismissed | internal/orchestrator/gates.go:768-837 | a round with nothing left to fix has every comment on record as INVALID exactly when each verdict kept of it is backed by a finding |
| Triage.FullAnswerJudgesAll | internal/orchestrator/gates.go:1216-1283 | an answer with one entry per comment, or none that can be read, judges every comment |
| Triage.OmittedEntryPasses | internal/orchestrator/gates.go:1471-1479 | an omitted entry leaves a comment VALID on record and nothing open |
| TriageRecord.RecordCopilotRound | internal/orchestrator/gates.go:1363-1412 | the builder writes the round's lines, and upserts them under the heading of its number |
| TriageRecord.RoundsApart | internal/orchestrator/gates.go:1366-1369 | two rounds of different numbers have different headings, and no line opens both sections |
| TriageRecord.RoundTells | internal/orchestrator/gates.go:1373-1381 | behind its heading a round tells its findings, or that there was none and why |
| TriageRecord.FindingStands | internal/orchestrator/gates.go:1383-1396 | each finding's line, and its reason's, stand in the round in the findings' order |
| TriageRecord.CopilotTriagedComments | internal/orchestrator/gates.go:1599-1621 | the reader folds the comment lines of every round into a record |
| TriageRecord.RoundIsReadBack | internal/orchestrator/gates.go:1363-1621 | after a round is written the body reads as the rounds before it, the round's own verdicts, the rounds after it |
| TriageRecord.NewRoundIsReadBack | internal/orchestrator/gates.go:1363-1621 | a new round adds its verdicts to all those on record |
| TriageRecord.RoundsAddUp | internal/orchestrator/gates.go:1363-1621 | any number of rounds of different numbers, written in a row to a body with none of them, read back as what was on record with every round's verdicts noted on it in turn |
| TriageRecord.RoundOpensNoGates | internal/orchestrator/gates.go:1363-1412 | a round of single-line findings never passes for the gates' section |
| Gates.ClassifyChecks | internal/orchestrator/gates.go:1731-1746 | failed, pending and passing partition the checks; an unknown bucket is pending |
| Gates.ContainsMeans | internal/orchestrator/gates.go:936-938 | the refusal is told by its text standing anywhere in the answer |
| Gates.Run.DeadlineIsTheEarlier | internal/orchestrator/gates.go:2310-2318 | a wait is over in its own time, or with the process when that comes first |
| Gates.Run.ReserveIsTheGreater | internal/orchestrator/gates.go:1899-1902 | the reserve is the greater of the fixed one and, once CI was seen to settle, the time it took with the coder's share |
| Gates.Run.RequestReview | internal/orchestrator/gates.go:969-1038 | each outcome is the one the recorded answers of the request and the listing stand for: unavailable exactly on the proven refusal, with its text |
| Gates.Run.AwaitCopilotReview | internal/orchestrator/gates.go:1046-1093 | the wait ends with the latest review when it is of the head read after it, and without one only past its deadline |
| Gates.Run.AwaitCopilotGrace | internal/orchestrator/gates.go:1137-1195 | the window ends with a review of the head as read, a listed reviewer, the recorded refusal, or with nothing past its deadline |
| Gates.Run.SettleGrace | internal/orchestrator/gates.go:1111-1130 | the gate is skipped exactly on a refusal or when neither a review nor a request turned up |
| Gates.Run.CIFixRound | internal/orchestrator/gates.go:1983-2058 | a round at the cap starts nothing, and only there it parks as spent; any other is counted and on the card before its fix run is called, which demands it |
| Gates.Run.CopilotFixRound | internal/orchestrator/gates.go:1291-1343 | the same, and a commit it lands is a push behind the last poll |
| Gates.Run.GateNoChangeRetry | internal/orchestrator/gates.go:2065-2075 | granted once, below the cap, on a bar no one raised |
| Gates.Run.TriageCopilot | internal/orchestrator/gates.go:1216-1283 | one call about the new comments, and what stands is what its recorded reply leaves standing, recorded on the card as this round |
| Gates.Run.JudgeReview | internal/orchestrator/gates.go:768-837 | the triage is asked once, and only with cause; the verdicts noted are those of its reply, and nothing is open exactly when no repeated comment and no finding of it is valid |
| Gates.Run.ReviewCycle | internal/orchestrator/gates.go:768-903 | satisfied exactly when nothing is open, and then all comments are INVALID exactly when the reply judged every new one, as one entry per comment does; otherwise a counted round was spent and pushed and a review asked for again, and the gate is done exactly when that was refused |
| Gates.Run.CopilotGate | internal/orchestrator/gates.go:373-488 | it ends and spends only counted rounds; it comes to be satisfied only with a review of the head in hand that the triage calls since, on top of the verdicts the card reads as, leave nothing open of; it passes unsatisfied only on a refusal the card tells, or - a review asked for or its reviewer listed - with none come by the deadline; it parks only on what a fix could not do |
| Gates.Run.CopilotGateAndSave | internal/orchestrator/gates.go:306-322 | a Copilot gate passed or satisfied is on the card when it is left |
| Gates.Run.LateCheck | internal/orchestrator/gates.go:498-517 | it reads the head's review; satisfied only with that review addressed; without a round spent nothing is pushed; with one, a fix is pushed and the gates run again exactly when the re-request was not refused |
| Gates.Run.ReadPoll | internal/orchestrator/gates.go:1810-1851 | what is shown is what the poll answered: all green, settled red, nothing, hopeless, each exactly when it did; and the memory of the first check seen |
| Gates.Run.RedPoll | internal/orchestrator/gates.go:1868-1912 | a fix round that ends the gate or spends a counted round; exactly with less wait left than the reserve it parks for want of time and starts nothing |
| Gates.Run.CIGate | internal/orchestrator/gates.go:1796-1945 | it ends, passes only on a last poll answered all green, or with no check ever answered, no round on record and a probe or the grace behind it, and with nothing pushed since; a park says what is so: unreadable checks, red ones with too little time, or the wait over |
| Gates.Run.MergeAfterGates | internal/orchestrator/gates.go:2157-2184 | a merge on record is not repeated; otherwise one call |
| Gates.Run.GatesTurn | internal/orchestrator/gates.go:303-348 | behind a CI pass the loop goes round again exactly when a late fix was pushed and its re-request not refused, each time with a Copilot round spent; where it ends, an awaited Copilot gate is satisfied, refused, or without a review of the head at a last look past a wait for one |
| Gates.Run.RunPRGates | internal/orchestrator/gates.go:243-366 | the card is moved to done exactly when it answers no error; and then, and before any merge, each gate that is awaited is settled: CI behind a last poll that lets it pass, with a push behind it only when a late fix's re-request was refused; Copilot satisfied before the phase or by the latest review addressed, refused, or without a review of the head at a last look past a wait for one; never done without the PR it was to gate on, the run's own, the reported one or the one the branch has; at most one merge, none with a merge kept on record |
| Gates.SlipHappens | internal/orchestrator/gates.go:870-877 | a run, from an empty card to done, that merges a head CI never passed |
| Gates.Run.Resume | internal/orchestrator/resume.go:39-197 | the next process needs no more than every call to the outside found, and keeps the bounds: one more stale process exactly when the last write was not kept |
| Gates.Run.Lives | internal/orchestrator/gates.go:1294-1301 | over any number of processes at most three fix rounds of each kind, three more for each process that ended with a write the board did not keep, while no section's text replaces the record |
| Gates.Run.FreshRuns | internal/orchestrator/resume.go:183-197 | the same bounds, counted since the last fresh run, over any number of those |
| Topo.TopoOrder | internal/orchestrator/execute.go:1489-1549 | the subtasks in the greedy lowest-index order carried to its end, and an error exactly when that leaves one out |
| TopoLaws.TheList | internal/orchestrator/execute.go:1483-1549 | of the list that comes back: it is the subtasks rearranged; with distinct IDs each stands behind the dependencies it has in the set, and no other such list puts an earlier subtask first where they differ; none comes back exactly when a chain of dependencies closes |
| Topo.BuildGraph | internal/orchestrator/execute.go:1490-1507 | indegrees and dependents count the in-set dependencies, repetitions included |
| Topo.Release | internal/orchestrator/execute.go:1536-1541 | each waiting occurrence is one dependency less; the ready list stays complete |
| TopoLaws.OneGreedyEnd | internal/orchestrator/execute.go:1521-1541 | that order is the only one the greedy choice comes to |
| TopoLaws.CompleteIffAcyclic | internal/orchestrator/execute.go:1483-1549 | an order comes back exactly when no chain of dependencies closes, self-dependencies included; it is a permutation with dependencies first |
| TopoLaws.LeastSchedule | internal/orchestrator/execute.go:1521-1534 | any other schedule has a higher index at the first place they differ |
| TopoLaws.EdgesOf | internal/orchestrator/execute.go:1490-1507 | with distinct IDs the edges are exactly the dependencies inside the set |
| Plan.ParsePlan | internal/orchestrator/plan.go:110-187 | accepts exactly the plans with valid tiers, distinct titles and earlier-only references |
| Plan.CreateSubtasks | internal/orchestrator/plan.go:1415-1489 | each card carries the real IDs of the cards its entry pointed at |
| Plan.CreatedIsBackward | internal/orchestrator/plan.go:1406-1457 | with distinct IDs the cards wait for earlier ones only |
| Plan.AcceptedPointsBack | internal/orchestrator/plan.go:127-178 | an accepted plan's entries and follow-ups wait for earlier ones of their kind only |
| Plan.SchedulePlan | internal/orchestrator/execute.go:1489-1549 | scheduling the cards of a plan that points back, as every accepted one does, never fails and gives plan order |
| Plan.PlanAndSchedule | internal/orchestrator/plan.go:1406-1489 | from a plan's text to its schedule: what is accepted has its cards made, and they come in plan order when their IDs are distinct, in some order exactly when no chain of them closes |
| Plan.OrderedIffOpen | internal/orchestrator/plan.go:1406-1457 | whatever IDs the board answers, the cards have an order exactly when no chain closes of cards waiting for the last made with an ID |
| Plan.OneIdCannotWait | internal/orchestrator/plan.go:1412-1414 | one ID answered for two cards, one waiting for the other: no order |
| Plan.SortedIsCreation | internal/orchestrator/resume.go:165-171 | sorting increasing IDs gives creation order |
| Plan.ResumeSchedule | internal/orchestrator/resume.go:165-171 | a resumed run's edge-free, sorted list is scheduled with every original dependency first |
| ExitReports.Reports.Acquire | internal/cli/serve.go:507-522 | the claim goes to the first asker, and is noted only during shutdown |
| ExitReports.Reports.Report | internal/cli/serve.go:507-528 | sends exactly when this call took the claim, and closes it |
| ExitReports.ReportCloses | internal/cli/serve.go:507-528 | a report that has returned leaves its claim closed and every other as it was |
| ExitReports.Tracker.AddIfUnderLimit | internal/executor/tracker.go:60-76 | admitted exactly when the key is free and the tracker below its limit |
| ExitReports.Tracker.Remove | internal/executor/tracker.go:90-99 | the run and everything kept under its key go |
| ExitReports.Tracker.SetAwaiting | internal/executor/tracker.go:131-141 | only for a tracked run |
| ExitReports.Tracker.Touch | internal/executor/tracker.go:156-166 | only for a tracked run |
| ExitReports.Tracker.SetReason | internal/executor/tracker.go:180-190 | only for a tracked run |
| Shutdown.StepOk | internal/cli/serve.go:314-528 | every step of either side keeps the invariant |
| Shutdown.ReportedAtMostOnce | internal/cli/serve.go:507-528 | in every interleaving callback and sweep report a run at most once, and its claim is closed exactly when its one report has returned |
| Shutdown.SweptHaveOneOwner | internal/cli/serve.go:427-479 | a run the sweep settled has one owner: sent by the sweep, or by its callback |
| Shutdown.ParkedIsNeverSwept | internal/cli/serve.go:398-415 | a run whose wait ended before the sweep is never reported by the sweep |
| Shutdown.TwiceWhenCaughtStarting | internal/webhook/handler.go:508-532 | counting launch failures a run is reported twice exactly when the tracker's list or the sweep caught it starting, its failure was reported and the sweep got past its send; never more often |
| Shutdown.LaunchReportedTwice | internal/executor/docker.go:401-419 | and an interleaving in which it is |
| RunLog.CountRunHeaders | internal/filelog/filelog.go:260-292 | for every way of cutting the file, the number of lines that start with the run header, of all of it exactly when no read failed |
| RunLog.KeepCarry | internal/filelog/filelog.go:277-280 | the carry is the last bytes of what was read, moved in place |
| RunLog.MatchesInWindow | internal/filelog/filelog.go:272-280 | a window of carry and chunk adds exactly the chunk's matches |
| RunLog.MatchesAreLines | internal/filelog/filelog.go:251-259 | matches of newline and header are lines that start with it |
| RunLog.CardLog.Begin | internal/filelog/filelog.go:98-132 | the footer of a superseded run, then the header unless the file would not open |
| RunLog.CardLog.Write | internal/filelog/filelog.go:137-166 | the line lands in the log for an open run only |
| RunLog.CardLog.NextAttempt | internal/filelog/filelog.go:225-249 | one plus the headers begun, for any interleaving, when no read failed and no output line looks like a header; what was read counts otherwise, and a log that would not open is a first attempt |
| LineWriters.ChunksCompose | internal/attempt/attempt.go:57-92 | two chunks are worth their concatenation |
| LineWriters.StampWriter.Write | internal/attempt/attempt.go:57-92 | one stamped item per completed line and the tail held; on a sink error exactly the lines the returned count covers |
| LineWriters.LineWriter.Write | internal/executor/docker.go:863-902 | each completed line leaves cut to the bound, then stripped of trailing CRs |
| LineWriters.ShapeKeeps | internal/executor/docker.go:863-902 | a line leaves whole when it fits, as its first characters when not, without the CRs at its end and no others |
| LineWriters.LineWriter.AppendBounded | internal/executor/docker.go:885-893 | the buffer is the cut of all that was appended |
| LineWriters.LineWriter.Flush | internal/executor/docker.go:905-909 | the tail leaves when there is one |
| LineWriters.WriteAll | internal/executor/docker.go:863-881 | any cutting of a stream ends as the whole stream would |
| Mob.RenderDelta | internal/mob/transcript.go:23-54 | the text tells the others' entries from the cursor on: each one's author and content stand in it one behind the other, and the instruction behind them |
| Mob.ShowsTells | internal/mob/transcript.go:31-54 | of any entries: author and content of each at increasing, disjoint places of the text, the instruction at its end |
| Mob.JoinBlankAt | internal/mob/transcript.go:31-42 | the lines stand in the joined text from its start to its end, two newlines apart |
| Mob.OthersSift | internal/mob/transcript.go:23-42 | the entries by anyone but the author, each once and in order |
| Mob.DeltaCompletes | internal/mob/engine.go:174-184 | what a task holds and the delta together are all the others said |
| Mob.StrayKnowsLess | internal/mob/moderator.go:160-165 | a task that answers a message sent to another holds all the others said exactly when nothing was said before it |
| Mob.Discussion.SendTurn | internal/mob/moderator.go:125-171 | what each answer leaves of the task, of what it holds and of the cost, and the call on record |
| Mob.Discussion.Dispatch | internal/mob/engine.go:63-137 | one recorded call for each live seat; a reached task has been sent, in texts that tell it each entry, all that stood before the round, once and in order; the transcript grows by the responders' utterances in seat order, the total by every successful turn's cost |
| Mob.Discussion.Discuss | internal/mob/engine.go:44-234 | no quorum exactly when fewer than two of the first round's recorded calls came back with more than a blank; any other transcript holds what two seats said in that round; round after round, each with the human's messages before it and a classification behind it, until the first one that ends it, the cap or the spent budget, then one synthesis; the cost is all that was reported spent |
| Ledger.FloorIsGreatest | internal/orchestrator/budget.go:59-66 | a card's floor is its greatest synced total |
| Ledger.OrderIndependent | internal/orchestrator/budget.go:50-77 | the effective total does not depend on the order of the calls |
| Ledger.NeverFalls | internal/orchestrator/budget.go:50-77 | with no negative spend it never goes down |
| Ledger.Ledger.EffectiveTotal | internal/orchestrator/budget.go:70-77 | the greater of seed plus spends and the sum of the cards' greatest totals: no less than either, and one of them |
| Ledger.Ledger.Check | internal/orchestrator/budget.go:82-91 | exceeded exactly when a ceiling is set and reached |
| SeatContext.TrimSeatContext | internal/orchestrator/mob.go:303-328 | the in-place passes equal the specification, a leading system message sliced off and left as it was |
| SeatContext.TrimEnds | internal/orchestrator/mob.go:284-328 | within the bound, or no reasoning left and every tool output short; nothing else changes, and no output goes while reasoning stays |
| SeatContext.TrimNoMore | internal/orchestrator/mob.go:303-328 | a message is cut only when, with all before it cut and the rest as they were, the total is still over; a conversation within the bound is left as it is |
| SeatContext.ReplayCostsNoOutput | internal/orchestrator/replay.go:127-142 | the content kept with reasoning is the content kept without |
| Phases.Card.Execute | internal/orchestrator/orchestrator.go:751-847 | one process: from the persisted phase, from execute when that is judge, each phase written and then entered, in order, finished only with all of them; none of the late ones entered with the card out of review |
| Phases.Card.SetPhase | internal/orchestrator/orchestrator.go:787-793 | a persisted phase has every earlier one behind it |
| Phases.Card.Lives | internal/orchestrator/orchestrator.go:741-847 | over any number of processes: a persisted phase means all earlier ones succeeded, and the only step back is judge to execute |
| Solo.Solver.RunGate | internal/orchestrator/execute.go:327-421 | a verdict is a recorded run on this very tree, or the tool's recorded pass on this very commit and tree |
| Solo.Solver.PreCommitVerify | internal/orchestrator/execute.go:235-320 | the work goes through only behind a last verdict on this tree that is no failure, or behind the answer that there is no command; it parks on a failure only behind one fix pass and a second failing run |
| Solo.Solver.Checkpoint | internal/orchestrator/checkpoint.go:81-241 | HEAD ends refused exactly when the run behind the reviser refused its content, or that content had failed before and was not run again; without commits of the reviser's own, exactly when the run refused a tree that is HEAD's or an older tool pass let a failed tree through |
| Solo.Solver.ExecuteClaimed | internal/orchestrator/execute.go:435-602 | nil exactly when the task was completed; a completion has work behind it - a commit of this call, HEAD read and moved, or an earlier run's work found verified - with its own commits pushed; empty exactly when there was nothing to commit and none of these; at most one outcome row, none after completion was asked for, a win only ahead of it; without a revise HEAD's last verdict is there and no failure, or there is no command; behind one it is refused exactly as the checkpoint says |
| Solo.RefusedHeadCompletes | internal/orchestrator/checkpoint.go:202-224 | a completed subtask whose HEAD the verify command refused last |
| Solo.Solver.SalvageCapped | internal/orchestrator/execute.go:1004-1158 | completed only on committed work the verify passed, pushed and reported as a win |

## Left out

- Every gh, git, Docker, MCP, A2A and model call: an arbitrary answer stands for it.
- Review-thread replies and resolutions (`copilotThreadWriter`): best-effort writes no gate decision reads.
- The wording of card lines, statuses and details: any text, with the gh reason kept inside it where the code quotes it.
- `gatePoller`, `gateNote`, emitters, logs and metrics.
- Prompt texts, model selection, fix sizing, verify resolution and the review loop: their outcomes are arbitrary.
- Which reported outcome rows the ledger takes: `reportSoloOutcome` drops a failure off a walked-down pick on the way.
- Best-of-N candidates and `salvageCapped`: only the solo path of a subtask is modelled.
- Edits of the card body by people or other programs between two processes.
- UTF-8: text is a sequence of characters, and a rune a character.
- JSON parsing and encoding: which lines are one JSON object, and their re-encoding, are arbitrary; the extraction of JSON from prose is left out.
- Floating point: costs are reals.
- The kill and token-revocation effects of the shutdown sweep: they change neither claims nor the tracker.
- Two cards whose sanitized names share one log file, and two project and card pairs that join to one tracker key.
- Liveness: that an exit callback or a settle eventually runs.
- Mob.Discussion.SendTurn: the cut of an over-long utterance; the answer's text stands for what is left of it.
- RunLog.CardLog.Write: each append is taken to land whole.
- Solo.Solver.RunGate: the runs the coder's verify tool did not pass; they certify nothing.
- Topo.TopoOrder: the error's text and counts are not modelled.
