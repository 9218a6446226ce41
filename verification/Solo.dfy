/**
 * The owned span of a solo subtask: coder run, verify gate, commit, checkpoint, push,
 * report and complete, and the rescue of a run that hit its turn cap. Trees are told
 * apart by their content; a coder, a fixer or a reviser may leave any content, and may
 * commit on its own.
 */
module Solo {
  import opened Wrappers

  datatype Verdict = Passed | Failed | Inconclusive
  datatype Row = Row(win: bool, verifyPass: bool)
  datatype RunError = NoError | MaxTurns | OtherError
  datatype VerifyError = Fine | Toolchain | Unresolved
  // What the gate came to: an error, nothing to run, or a verdict.
  datatype Gate = GateError | NotRun | Ran(verdict: Verdict)
  datatype Exit = Completed | VerifyParked | EmptySubtask | TurnCap | Other

  // The models that work in the tree; the coder and the reviser hold the verify tool.
  datatype Worker = Coder | Fixer | Reviser

  // One run of the verify command, on a content of the tree.
  datatype Run = Run(content: nat, verdict: Verdict)

  // What the reviser found and left: HEAD's content before and after it, the tree's after
  // it, and what was known then - the last verdict on each content, and the runs so far.
  datatype Revise = Revise(from: nat, head: nat, tree: nat, known: map<nat, Verdict>, runs: nat)

  // What there is of the subtask's own work since its coder was started: how the last
  // commit was answered, whether any was made, and whether an earlier run's work was found.
  datatype Tried = NoTry | CommitFailed | NothingToCommit | Committed
  datatype Work = Work(tried: Tried, own: bool, earlier: bool)

  predicate FailedIn(known: map<nat, Verdict>, content: nat) {
    content in known && known[content] == Failed
  }

  class Solver {
    // HEAD's commit and content, and the content of the working tree.
    var commit: nat
    var head: nat
    var tree: nat
    // The commit and content the coder's own verify tool last passed on.
    var toolPass: Option<(nat, nat)>
    var verified: bool
    var coderFailed: bool
    // A verify command, once resolved, is the run's for good.
    var planKnown: bool
    const pushes: bool

    // Follow one run to its end: no call fails, the command passes and then, on the same
    // tree, fails, and the reviser leaves everything as it was.
    const fixed: bool

    // Kept by the calls to the outside: the runs of the verify command, the last verdict
    // on each content - a run's, or a pass of the coder's own tool - the contents that
    // ever passed, what the reviser left, whether the coder ran into its turn cap, and
    // whether the last answer since the coder's run was that there is no verify command.
    var runs: seq<Run>
    ghost var judged: map<nat, Verdict>
    ghost var passed: set<nat>
    ghost var revise: Option<Revise>
    ghost var capped: bool
    ghost var noCommand: bool
    // Kept by CommitAll, EarlierWorkVerified and ReadHead: the work there is, and every
    // answer to a read of HEAD's commit.
    ghost var work: Work
    ghost var heads: seq<Option<nat>>
    // The commit the last push took to the remote, and the fix passes made.
    ghost var remote: Option<nat>
    ghost var fixes: nat
    // The outcome rows reported, whether the task was completed, and how many rows there
    // were when completion was asked for.
    ghost var rows: seq<Row>
    ghost var completed: bool
    ghost var askedAt: Option<nat>

    constructor (pushes: bool, fixed: bool)
      ensures Valid() && rows == [] && !completed && askedAt == None && revise == None && runs == [] && this.fixed == fixed
    {
      commit, head, tree, toolPass := 0, 0, 0, None;
      verified, coderFailed, planKnown := false, false, false;
      this.pushes, this.fixed := pushes, fixed;
      runs, judged, passed, revise := [], map[], {}, None;
      rows, completed, askedAt, capped, noCommand := [], false, None, false, false;
      work, heads := Work(NoTry, false, false), [];
      remote, fixes := None, 0;
    }

    ghost predicate Refused(content: nat)
      reads this`judged
    {
      FailedIn(judged, content)
    }

    // No verdict without a command, and the tool's recorded pass is one.
    ghost predicate Valid()
      reads this`judged, this`planKnown, this`toolPass, this`passed
    {
      && (planKnown || judged == map[])
      && (toolPass.Some? ==> toolPass.value.1 in passed)
    }

    // The recorded pass is the last verdict on its content.
    ghost predicate Fresh()
      reads this`judged, this`toolPass
    {
      toolPass.Some? ==> toolPass.value.1 in judged && judged[toolPass.value.1] == Passed
    }

    // ---- Oracles ---------------------------------------------------------------------

    method AnyNat() returns (n: nat)
    {
      var i: int := *;
      n := if i < 0 then 0 else i;
    }

    // What a worker's verify tool leaves: nothing new, or a pass on some content, which
    // takes the tool and a command for it.
    twostate predicate ToolRan(who: Worker)
      reads this`toolPass, this`judged, this`passed, this`planKnown
    {
      || ((toolPass == old(toolPass) || toolPass == None) && judged == old(judged) && passed == old(passed))
      || (planKnown && who != Fixer && toolPass.Some?
          && judged == old(judged)[toolPass.value.1 := Passed] && passed == old(passed) + {toolPass.value.1})
    }

    method ToolRun(who: Worker)
      modifies this`toolPass, this`judged, this`passed
      ensures ToolRan(who)
    {
      if who == Fixer || !planKnown { return; }
      var kind: int := *;
      if kind == 0 {
        toolPass := None;
      } else if kind == 1 {
        var at := AnyNat();
        var content := AnyNat();
        toolPass := Some((at, content));
        judged, passed := judged[content := Passed], passed + {content};
      }
    }

    // A model at work in the tree: any edits, and any commits of its own.
    method ModelRun(who: Worker) returns (err: RunError)
      modifies this`commit, this`head, this`tree, this`toolPass, this`judged, this`passed, this`revise, this`capped
      modifies this`noCommand, this`work, this`fixes
      ensures noCommand == (who != Coder && old(noCommand)) && fixes == old(fixes) + (if who == Fixer then 1 else 0)
      ensures work == if who == Coder then Work(NoTry, false, false) else old(work)
      ensures ToolRan(who) && (capped <==> if who == Coder then err == MaxTurns else old(capped))
      ensures revise == if who == Reviser then Some(Revise(old(head), head, tree, judged, |runs|)) else old(revise)
      ensures fixed ==> err == NoError && commit == old(commit) && head == old(head) && judged == old(judged)
      ensures fixed ==> tree == (if who == Coder then head + 1 else old(tree)) && toolPass == old(toolPass)
    {
      ghost var from := head;
      err := *;
      if fixed {
        err, tree := NoError, if who == Coder then head + 1 else tree;
      } else {
        commit := AnyNat();
        head := AnyNat();
        tree := AnyNat();
        ToolRun(who);
      }
      if who == Fixer { fixes := fixes + 1; }
      if who == Coder { capped, noCommand, work := err == MaxTurns, false, Work(NoTry, false, false); }
      if who == Reviser { revise := Some(Revise(from, head, tree, judged, |runs|)); }
    }

    method Chance() returns (yes: bool)
      ensures fixed ==> yes
    {
      yes := *;
      yes := yes || fixed;
    }

    // CommitWithMessage: nothing to commit exactly when the tree is HEAD's content.
    method CommitAll() returns (committed: bool, failed: bool)
      modifies this`commit, this`head, this`work
      ensures work.tried == if failed then CommitFailed else if committed then Committed else NothingToCommit
      ensures work.own == (old(work.own) || committed) && work.earlier == old(work.earlier)
      ensures failed ==> !committed && head == old(head)
      ensures !failed ==> head == tree && (committed <==> old(head) != tree)
      ensures fixed ==> !failed
    {
      failed := *;
      failed := failed && !fixed;
      if failed {
        work := work.(tried := CommitFailed);
        return false, true;
      }
      if head == tree {
        work := work.(tried := NothingToCommit);
        return false, false;
      }
      commit := commit + 1;
      head := tree;
      work := work.(tried := Committed, own := true);
      return true, false;
    }

    // HEAD's commit, when it can be read.
    method ReadHead() returns (h: Option<nat>)
      modifies this`heads
      ensures heads == old(heads) + [h] && (h == None || h == Some(commit))
    {
      var readable: bool := *;
      h := if readable then Some(commit) else None;
      heads := heads + [h];
    }

    // headUnmoved: a failed read leaves the judgement to the commit alone.
    method HeadUnmoved(before: Option<nat>) returns (unmoved: bool)
      modifies this`heads
      ensures old(heads) <= heads
      ensures before.None? ==> unmoved && heads == old(heads)
      ensures before.Some? ==> |heads| == |old(heads)| + 1 && (unmoved <==> heads[|old(heads)|] == None || heads[|old(heads)|] == before)
    {
      if before.None? { return true; }
      var now := ReadHead();
      unmoved := now.None? || now == before;
    }

    method RunVerify() returns (err: VerifyError, v: Verdict)
      requires planKnown
      modifies this`runs, this`judged, this`passed
      ensures err == Fine ==> runs == old(runs) + [Run(tree, v)] && judged == old(judged)[tree := v]
      ensures err == Fine ==> passed == old(passed) + (if v == Passed then {tree} else {})
      ensures err != Fine ==> runs == old(runs) && judged == old(judged) && passed == old(passed) && v == Inconclusive
      ensures fixed ==> err == Fine && v == if old(runs) == [] then Passed else Failed
    {
      err := *;
      v := *;
      if fixed { err, v := Fine, if runs == [] then Passed else Failed; }
      if err == Fine {
        runs, judged := runs + [Run(tree, v)], judged[tree := v];
        if v == Passed { passed := passed + {tree}; }
      } else {
        v := Inconclusive;
      }
    }

    // ensureVerify: whether there is a command to run.
    method Resolve() returns (err: VerifyError, any: bool)
      modifies this`planKnown, this`noCommand
      ensures noCommand <==> err == Fine && !any
      ensures old(planKnown) ==> err == Fine && any
      ensures planKnown == (old(planKnown) || (err == Fine && any))
      ensures fixed ==> err == Fine && any
    {
      noCommand := false;
      if planKnown { return Fine, true; }
      err, any := *, *;
      if fixed { err, any := Fine, true; }
      noCommand := err == Fine && !any;
      planKnown := err == Fine && any;
    }

    // A verdict of the gate: the command ran on this tree, or the recorded pass of the
    // coder's tool is of this very commit and tree.
    twostate predicate Gated(v: Verdict)
      reads this`commit, this`tree, this`toolPass, this`runs, this`judged, this`passed
    {
      || (runs == old(runs) + [Run(tree, v)] && judged == old(judged)[tree := v]
          && passed == old(passed) + (if v == Passed then {tree} else {}))
      || (runs == old(runs) && judged == old(judged) && passed == old(passed)
          && v == Passed && toolPass == Some((commit, tree)) && tree in passed)
    }

    // runGate: the coder's own pass when it measured this very tree, else the command.
    method RunGate() returns (g: Gate)
      requires Valid()
      modifies this`runs, this`judged, this`passed, this`planKnown, this`noCommand
      ensures Valid() && (old(planKnown) ==> planKnown)
      ensures g.Ran? ==> planKnown && Gated(g.verdict)
      ensures g == NotRun ==> noCommand && judged == map[]
      ensures !g.Ran? ==> runs == old(runs) && judged == old(judged) && passed == old(passed)
      ensures fixed && toolPass == None ==> g == Ran(if old(runs) == [] then Passed else Failed) && |runs| == |old(runs)| + 1
    {
      var err, any := Resolve();
      if err != Fine { return GateError; }
      if !any { return NotRun; }
      var readable: bool := *;
      if readable && toolPass == Some((commit, tree)) { return Ran(Passed); }
      var rerr, v := RunVerify();
      if rerr != Fine { return GateError; }
      g := Ran(v);
    }

    // reportSoloOutcome, called: a failure off a walked-down pick is dropped on the way,
    // and the ledger may not take the rest.
    method Report(win: bool, verifyPass: bool)
      modifies this`rows
      ensures rows == old(rows) + [Row(win, verifyPass)]
    {
      rows := rows + [Row(win, verifyPass)];
    }

    method CompleteTask() returns (ok: bool)
      modifies this`completed, this`askedAt
      ensures completed == (old(completed) || ok) && askedAt == Some(|rows|)
      ensures fixed ==> ok
    {
      ok := Chance();
      completed := completed || ok;
      askedAt := Some(|rows|);
    }

    method Push() returns (ok: bool)
      modifies this`remote
      ensures ok && pushes ==> remote == Some(commit)
      ensures fixed ==> ok
    {
      if !pushes { return true; }
      ok := Chance();
      if ok { remote := Some(commit); }
    }

    // ---- The gate before the commit ------------------------------------------------------

    /**
     * preCommitVerify; Completed stands for nil. It lets the work through behind a last
     * verdict on this very tree that is no failure, or with no verdict at all; a failure
     * gets one fix pass and one re-run.
     */
    method PreCommitVerify() returns (exit: Exit, env: bool)
      requires Valid() && Fresh()
      modifies this`planKnown, this`commit, this`head, this`tree, this`toolPass, this`verified, this`coderFailed
      modifies this`runs, this`judged, this`passed, this`revise, this`capped, this`noCommand, this`work, this`fixes
      ensures Valid() && (exit == Completed || exit == VerifyParked || exit == Other)
      ensures revise == old(revise) && capped == old(capped) && work == old(work)
      ensures exit == Completed ==>
                || (tree in judged && !Refused(tree))
                || (noCommand && judged == map[] && tree == old(tree) && head == old(head) && !coderFailed)
      ensures exit == Completed && verified ==> tree in passed && tree in judged && judged[tree] == Passed
      ensures exit == VerifyParked ==> Refused(tree) && runs != [] && runs[|runs| - 1] == Run(tree, Failed)
      ensures exit == VerifyParked ==> |runs| == |old(runs)| + 2 && runs[|old(runs)|].verdict == Failed
      ensures fixes <= old(fixes) + 1 && (exit == VerifyParked ==> fixes == old(fixes) + 1) && (coderFailed <==> fixes > old(fixes))
      ensures fixed && old(runs) == [] && old(toolPass) == None ==>
                exit == Completed && |runs| == 1 && tree == old(tree) && head == old(head) && toolPass == None && !coderFailed
    {
      verified, coderFailed, env := false, false, false;
      var g := RunGate();
      match g {
        case GateError =>
          return Other, false;
        case NotRun =>
          return Completed, false;
        case Ran(v) =>
          if v != Failed {
            verified := v == Passed;
            return Completed, false;
          }
      }
      var funded: bool := *;
      if !funded { return Other, false; }
      exit, env := FixAndRerun();
    }

    // The one fix pass behind a red gate, and the re-run that decides.
    method FixAndRerun() returns (exit: Exit, env: bool)
      requires Valid() && planKnown
      modifies this`commit, this`head, this`tree, this`toolPass, this`verified, this`coderFailed
      modifies this`runs, this`judged, this`passed, this`revise, this`capped, this`noCommand, this`work, this`fixes
      ensures Valid() && coderFailed && (exit == Completed || exit == VerifyParked || exit == Other)
      ensures revise == old(revise) && capped == old(capped) && work == old(work) && noCommand == old(noCommand)
      ensures exit == Completed ==> tree in judged && !Refused(tree)
      ensures exit == Completed && verified && !old(verified) ==> tree in passed && judged[tree] == Passed
      ensures exit == VerifyParked ==> Refused(tree) && runs == old(runs) + [Run(tree, Failed)]
      ensures fixes == old(fixes) + 1
    {
      env, coderFailed := false, true;
      var ferr := ModelRun(Fixer);
      // A cap is no verdict on the tree the fix left: the re-run decides.
      if ferr == OtherError { return Other, false; }
      var rerr, v := RunVerify();
      if rerr != Fine { return Other, false; }
      if v == Failed {
        env := *;
        return VerifyParked, env;
      }
      verified := v == Passed;
      exit := Completed;
    }

    // ---- The checkpoint's revise ----------------------------------------------------------

    // HardReset("HEAD"), best-effort.
    method Discard()
      modifies this`tree
      ensures tree == head || tree == old(tree)
    {
      var ok: bool := *;
      if ok { tree := head; }
    }

    method CommitRevise(pass: bool)
      modifies this`commit, this`head, this`verified, this`work
      ensures old(work.own) ==> work.own
      ensures head == tree || (head == old(head) && verified == old(verified))
      ensures verified == (if head != old(head) then pass else old(verified))
    {
      var committed, failed := CommitAll();
      if failed || !committed { return; }
      verified := pass;
    }

    // The gate ran the command behind the reviser and it refused the content at HEAD; or
    // it did not run on that content, which had failed before the reviser left it there.
    ghost predicate ReviseRefused()
      reads this`head, this`runs, this`revise
    {
      revise.Some? &&
      var r := revise.value;
      if |runs| > r.runs && runs[r.runs].content == head then runs[r.runs].verdict == Failed
      else FailedIn(r.known, head)
    }

    // The two ways a reviser without commits of its own comes to it: a revise that left
    // the tree as HEAD is, before a verdict that turned; or a tree that had failed, and
    // which an older pass of the tool, of the same commit and tree, let through.
    ghost predicate TreeRefused()
      reads this`head, this`runs, this`revise
    {
      revise.Some? &&
      var r := revise.value;
      || (r.tree == r.head && |runs| > r.runs && runs[r.runs] == Run(r.head, Failed))
      || (|runs| == r.runs && head == r.tree && FailedIn(r.known, r.tree))
    }

    /**
     * mobCheckpoint's revise: HEAD ends with a content its last verdict refused exactly as
     * ReviseRefused says, and, when the reviser leaves HEAD where it was, TreeRefused.
     */
    method Checkpoint()
      requires Valid() && !Refused(head) && revise == None
      requires verified ==> head in passed
      modifies this`commit, this`head, this`tree, this`toolPass, this`verified, this`runs, this`judged, this`passed
      modifies this`revise, this`planKnown, this`capped, this`noCommand, this`work, this`fixes
      ensures old(work.own) ==> work.own
      ensures revise == None ==> head == old(head) && judged == old(judged) && noCommand == old(noCommand)
      ensures Valid() && (old(planKnown) ==> planKnown)
      ensures Refused(head) <==> ReviseRefused()
      ensures capped == old(capped) && (revise.Some? ==> revise.value.from == old(head))
      ensures revise.Some? && revise.value.head == old(head) ==> (Refused(head) <==> TreeRefused())
      ensures (revise.Some? ==> revise.value.head == old(head)) && verified ==> head in passed
      ensures fixed && |old(runs)| == 1 && old(toolPass) == None && old(tree) == old(head) ==> Refused(head)
    {
      var wanted := Chance();
      if !wanted { return; }
      var err := ModelRun(Reviser);
      if err != NoError {
        Discard();
      } else {
        ReviseVerify();
      }
    }

    // checkpointReviseVerify and what follows it: the revise is kept unless it was refused,
    // or could not be judged.
    method ReviseVerify()
      requires Valid() && revise.Some? && revise.value.known == judged && revise.value.runs == |runs|
      requires revise.value.head == head && revise.value.tree == tree && (verified ==> revise.value.from in passed)
      requires !Refused(head) || head != revise.value.from
      modifies this`commit, this`head, this`tree, this`verified, this`runs, this`judged, this`passed, this`planKnown
      modifies this`noCommand, this`work
      ensures old(work.own) ==> work.own
      ensures Valid() && (old(planKnown) ==> planKnown)
      ensures Refused(head) <==> ReviseRefused()
      ensures old(head) == revise.value.from ==> (Refused(head) <==> TreeRefused())
      ensures old(head) == revise.value.from && verified ==> head in passed
      ensures fixed && |old(runs)| == 1 && toolPass == None && old(tree) == old(head) ==> Refused(head)
    {
      var g := RunGate();
      match g {
        case GateError =>
          Discard();
        case NotRun =>
          CommitRevise(false);
        case Ran(v) =>
          if v != Failed {
            CommitRevise(v == Passed);
          } else {
            Discard();
          }
      }
    }

    // ---- The two ways to completion -----------------------------------------------------

    // What one call may do to the board: at most one row, never one after completion was
    // asked for, and a win only ahead of asking for it.
    twostate predicate OneReport()
      reads this`rows, this`completed, this`askedAt
    {
      && old(rows) <= rows && |rows| <= |old(rows)| + 1
      && (askedAt.Some? ==> askedAt.value == |rows|)
      && (completed ==> askedAt.Some?)
      && (|rows| > |old(rows)| && rows[|old(rows)|].win ==> askedAt.Some?)
      && (askedAt.Some? ==> |rows| > |old(rows)|)
    }

    // HEAD's last verdict is there and no failure, or there is no command to give one.
    ghost predicate Certified()
      reads this`head, this`judged, this`noCommand
    {
      noCommand || (head in judged && judged[head] != Failed)
    }

    // A reviser that ran left HEAD's content where it found it.
    ghost predicate Stayed()
      reads this`revise
    {
      revise.Some? ==> revise.value.head == revise.value.from
    }

    /**
     * executeClaimedWith, holding the claim: nil exactly when the task was completed. A
     * completed task's HEAD has a last verdict that is no failure, unless there is no
     * command for one, but for what a revise left: then it is refused as ReviseRefused
     * says - RefusedHeadCompletes shows one.
     */
    method ExecuteClaimed() returns (exit: Exit)
      requires Valid() && !completed && askedAt == None && revise == None
      modifies this
      ensures Valid() && OneReport() && (exit == Completed <==> completed)
      ensures completed ==> (Refused(head) <==> ReviseRefused())
      ensures completed && Stayed() ==> (Refused(head) <==> TreeRefused())
      ensures completed && capped ==> head in judged && judged[head] == Passed && revise == None
      ensures completed && |rows| > |old(rows)| && rows[|old(rows)|].win && rows[|old(rows)|].verifyPass && Stayed() ==> head in passed
      ensures |rows| > |old(rows)| && rows[|old(rows)|].win ==> capped || !coderFailed
      ensures completed && revise == None ==> Certified()
      ensures completed && !capped ==> WorkThere(|old(heads)|)
      ensures completed && work.own && pushes ==> remote == Some(commit)
      ensures exit == EmptySubtask ==> rows == old(rows) + [Row(false, false)]
      ensures exit == EmptySubtask <==> !capped && work.tried == NothingToCommit && !WorkThere(|old(heads)|)
      ensures fixed && old(runs) == [] ==> completed && Refused(head)
    {
      toolPass := None;
      var before := ReadHead();
      var err := ModelRun(Coder);
      if err != NoError {
        if err == MaxTurns {
          exit := SalvageCapped();
        } else {
          exit := Other;
        }
        return;
      }
      exit := GateAndCommit(before);
    }

    // A commit of this subtask's own, or HEAD read before the coder and behind the gate with
    // another commit, or an earlier run's work.
    ghost predicate WorkThere(from: nat)
      reads this`work, this`heads
    {
      work.own || work.earlier || HeadMoved(from)
    }

    ghost predicate HeadMoved(from: nat)
      reads this`heads
    {
      |heads| > from + 1 && heads[from].Some? && heads[from + 1].Some? && heads[from] != heads[from + 1]
    }

    // The span behind the coder's run: the gate, the commit, and what follows it.
    method GateAndCommit(before: Option<nat>) returns (exit: Exit)
      requires Valid() && Fresh() && !completed && askedAt == None && revise == None
      requires work == Work(NoTry, false, false) && heads != [] && heads[|heads| - 1] == before
      modifies this
      ensures Valid() && OneReport() && (exit == Completed <==> completed) && capped == old(capped)
      ensures completed ==> (Refused(head) <==> ReviseRefused())
      ensures completed && Stayed() ==> (Refused(head) <==> TreeRefused())
      ensures completed && |rows| > |old(rows)| && rows[|old(rows)|].win && rows[|old(rows)|].verifyPass && Stayed() ==> head in passed
      ensures |rows| > |old(rows)| && rows[|old(rows)|].win ==> !coderFailed
      ensures completed && revise == None ==> Certified()
      ensures completed ==> WorkThere(|old(heads)| - 1)
      ensures completed && work.own && pushes ==> remote == Some(commit)
      ensures exit == EmptySubtask ==> rows == old(rows) + [Row(false, false)]
      ensures exit == EmptySubtask <==> work.tried == NothingToCommit && !WorkThere(|old(heads)| - 1)
      ensures fixed && old(runs) == [] && old(toolPass) == None && old(tree) != old(head) ==> completed && Refused(head)
    {
      var env;
      exit, env := PreCommitVerify();
      if exit != Completed {
        if exit == VerifyParked && !env { Report(false, false); }
        return;
      }
      exit := CommitAndConclude(before);
    }

    // Nothing to commit ends the subtask as empty, unless the coder committed on its own
    // or an earlier run's work is there.
    method CommitAndConclude(before: Option<nat>) returns (exit: Exit)
      requires Valid() && !completed && askedAt == None && revise == None
      requires work == Work(NoTry, false, false) && heads != [] && heads[|heads| - 1] == before
      requires !Refused(tree) && (verified ==> tree in passed) && (noCommand || (tree in judged && judged[tree] != Failed))
      modifies this
      ensures Valid() && OneReport() && (exit == Completed <==> completed) && capped == old(capped)
      ensures completed ==> (Refused(head) <==> ReviseRefused())
      ensures completed && Stayed() ==> (Refused(head) <==> TreeRefused())
      ensures completed && |rows| > |old(rows)| && rows[|old(rows)|].win && rows[|old(rows)|].verifyPass && Stayed() ==> head in passed
      ensures |rows| > |old(rows)| && rows[|old(rows)|].win ==> !coderFailed
      ensures completed && revise == None ==> Certified()
      ensures completed ==> WorkThere(|old(heads)| - 1)
      ensures completed && work.own && pushes ==> remote == Some(commit)
      ensures exit == EmptySubtask ==> rows == old(rows) + [Row(false, false)]
      ensures exit == EmptySubtask <==> work.tried == NothingToCommit && !WorkThere(|old(heads)| - 1)
      ensures fixed && |old(runs)| == 1 && old(toolPass) == None && old(tree) != old(head) ==> completed && Refused(head)
    {
      var committed, failed := CommitAll();
      if failed { return Other; }
      var unmoved := false;
      if !committed { unmoved := HeadUnmoved(before); }
      if unmoved {
        var earlier := EarlierWorkVerified(before);
        if !earlier {
          Report(false, false);
          return EmptySubtask;
        }
      }
      exit := Conclude(committed);
    }

    // The span behind the commit: checkpoint, push, report, complete, in this order.
    method Conclude(committed: bool) returns (exit: Exit)
      requires Valid() && !completed && askedAt == None && revise == None
      requires !Refused(head) && (verified ==> head in passed)
      modifies this
      ensures Valid() && OneReport() && (exit == Completed <==> completed) && capped == old(capped)
      ensures completed ==> (Refused(head) <==> ReviseRefused())
      ensures completed && Stayed() ==> (Refused(head) <==> TreeRefused())
      ensures completed && |rows| > |old(rows)| && rows[|old(rows)|].win && rows[|old(rows)|].verifyPass && Stayed() ==> head in passed
      ensures |rows| > |old(rows)| && rows[|old(rows)|].win ==> !coderFailed
      ensures old(Certified()) && revise == None ==> Certified()
      ensures (old(work.own) ==> work.own) && (committed || work == old(work)) && heads == old(heads) && exit != EmptySubtask
      ensures completed && committed && pushes ==> remote == Some(commit)
      ensures fixed && committed && |old(runs)| == 1 && old(toolPass) == None && old(tree) == old(head) ==> completed && Refused(head)
    {
      var eligible := Chance();
      if committed && eligible { Checkpoint(); }
      if committed {
        var pushed := Push();
        if !pushed { return Other; }
      }
      exit := ReportAndComplete();
    }

    method ReportAndComplete() returns (exit: Exit)
      requires !completed && askedAt == None
      modifies this`rows, this`completed, this`askedAt
      ensures OneReport() && (exit == if completed then Completed else Other) && (fixed ==> completed)
      ensures rows == old(rows) + [if coderFailed then Row(false, false) else Row(true, verified)]
    {
      if coderFailed { Report(false, false); } else { Report(true, verified); }
      var ok := CompleteTask();
      exit := if ok then Completed else Other;
    }

    // earlierWorkVerified: HEAD descends from an earlier start, and the gate passed on it.
    method EarlierWorkVerified(before: Option<nat>) returns (yes: bool)
      modifies this`work
      ensures yes ==> verified && before.Some?
      ensures work == old(work).(earlier := yes)
    {
      yes := *;
      yes := yes && verified && before.Some?;
      work := work.(earlier := yes);
    }

    /**
     * salvageSoloCapped, for a run that hit its cap: completed only on committed work the
     * authoritative verify passed. Anything else parks under the cap, or under the
     * toolchain error that supersedes it.
     */
    method SalvageCapped() returns (exit: Exit)
      requires Valid() && !completed && askedAt == None
      modifies this`noCommand, this`work
      modifies this`commit, this`head, this`runs, this`judged, this`passed, this`planKnown, this`rows, this`completed, this`askedAt, this`remote
      ensures Valid() && OneReport() && (exit == Completed <==> completed)
      ensures completed ==> head == tree && head in judged && judged[head] == Passed && head in passed
      ensures completed && pushes ==> remote == Some(commit)
      ensures completed ==> rows == old(rows) + [Row(true, true)]
      ensures exit == Completed || exit == TurnCap || exit == Other
    {
      exit := TurnCap;
      var committed, failed := CommitAll();
      if failed || !committed {
        Report(false, false);
        return;
      }
      var err, any := Resolve();
      if err == Toolchain { return Other; }
      if err != Fine || !any {
        Report(false, false);
        return;
      }
      var rerr, v := RunVerify();
      if rerr == Toolchain { return Other; }
      if rerr != Fine || v != Passed {
        var exhausted: bool := *;
        if v != Inconclusive && !exhausted { Report(false, false); }
        return;
      }
      exit := CompleteSalvaged();
    }

    method CompleteSalvaged() returns (exit: Exit)
      requires !completed && askedAt == None
      modifies this`rows, this`completed, this`askedAt, this`remote
      ensures OneReport() && exit == if completed then Completed else TurnCap
      ensures completed ==> rows == old(rows) + [Row(true, true)] && (pushes ==> remote == Some(commit))
    {
      exit := TurnCap;
      var pushed := Push();
      if !pushed { return; }
      Report(true, true);
      var ok := CompleteTask();
      if ok { exit := Completed; }
    }
  }

  /**
   * A completed subtask whose HEAD the verify command refused last: the coder's work
   * passed and was committed, the reviser changed nothing, and the second run failed.
   */
  method RefusedHeadCompletes() returns (s: Solver, exit: Exit)
    ensures exit == Completed && s.completed && s.Refused(s.head)
  {
    s := new Solver(true, true);
    exit := s.ExecuteClaimed();
  }
}
