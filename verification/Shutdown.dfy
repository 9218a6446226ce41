/**
 * The shutdown protocol over any interleaving: launches, exits and their callbacks
 * beside the thread that begins the shutdown, snapshots the tracker and sweeps it.
 * Every critical section, every send and every close is a step of its own.
 */
module Shutdown {
  import opened ExitReports

  // Where a run's own side stands. Dropped is out of the tracker with its exit callback
  // still to come; Unstarted a launch that failed once it was tracked.
  datatype Phase =
    | Waiting | Refused | Starting | Live | Dropped
    | Reporting | Sent | Done(own: bool)
    | Unstarted | Told

  // Where the sweep stands with a run it holds.
  datatype Settle = NotHeld | Pending | Sending | SweepSent | Yielded | Settled(own: bool)

  datatype Stage = Serving | Draining | Listed | Sweeping

  datatype Run = Run(key: string, phase: Phase, listed: bool, settle: Settle,
                     byCallback: nat, bySweep: nat, byLaunch: nat)

  datatype State = State(runs: seq<Run>, tracker: map<string, nat>, max: nat, stage: Stage, claims: Claims<nat>) {
    predicate Shutdown() { stage != Serving }
  }

  datatype Act =
    | Admit | Refuse | Start | StartFails | TellFailed | Exit
    | CallbackClaims | CallbackSends | CallbackCloses
    | SettleClaims | SettleSends | SettleCloses | SettleSees | SettleGivesUp

  datatype Step = Of(i: nat, act: Act) | BeginShutdown | List | Sweep

  // ---- The steps ---------------------------------------------------------------------------

  function Set(s: State, i: nat, r: Run): State
    requires i < |s.runs|
  {
    s.(runs := s.runs[i := r])
  }

  predicate CanAct(s: State, i: nat, act: Act) {
    i < |s.runs| && var r := s.runs[i];
    match act
    case Admit => r.phase == Waiting && r.key !in s.tracker && |s.tracker| < s.max
    case Refuse => r.phase == Waiting
    case Start => r.phase == Starting
    case StartFails => r.phase == Starting
    case TellFailed => r.phase == Unstarted
    case Exit => r.phase == Live
    case CallbackClaims => r.phase == Dropped
    case CallbackSends => r.phase == Reporting
    case CallbackCloses => r.phase == Sent
    case SettleClaims => r.settle == Pending
    case SettleSends => r.settle == Sending
    case SettleCloses => r.settle == SweepSent
    case SettleSees => r.settle == Yielded && i in s.claims && s.claims[i] == Closed
    case SettleGivesUp => r.settle == Yielded
  }

  function Acted(s: State, i: nat, act: Act): State
    requires CanAct(s, i, act)
  {
    var r := s.runs[i];
    match act
    case Admit => Set(s, i, r.(phase := Starting)).(tracker := s.tracker[r.key := i])
    case Refuse => Set(s, i, r.(phase := Refused))
    case Start => Set(s, i, r.(phase := Live))
    case StartFails => Set(s, i, r.(phase := Unstarted)).(tracker := s.tracker - {r.key})
    case TellFailed => Set(s, i, r.(phase := Told, byLaunch := r.byLaunch + 1))
    case Exit => Set(s, i, r.(phase := Dropped)).(tracker := s.tracker - {r.key})
    case CallbackClaims =>
      Set(s, i, r.(phase := if i in s.claims then Done(false) else Reporting))
        .(claims := ClaimsAfter(s.claims, s.Shutdown(), i))
    case CallbackSends => Set(s, i, r.(phase := Sent, byCallback := r.byCallback + 1))
    case CallbackCloses => Set(s, i, r.(phase := Done(true))).(claims := Closing(s.claims, i))
    case SettleClaims =>
      Set(s, i, r.(settle := if i in s.claims then Yielded else Sending))
        .(claims := ClaimsAfter(s.claims, s.Shutdown(), i))
    case SettleSends => Set(s, i, r.(settle := SweepSent, bySweep := r.bySweep + 1))
    case SettleCloses => Set(s, i, r.(settle := Settled(true))).(claims := Closing(s.claims, i))
    case SettleSees => Set(s, i, r.(settle := Settled(false)))
    case SettleGivesUp => Set(s, i, r.(settle := Settled(false)))
  }

  predicate InTracker(s: State, i: nat) {
    i < |s.runs| && s.runs[i].key in s.tracker && s.tracker[s.runs[i].key] == i
  }

  predicate Can(s: State, step: Step) {
    match step
    case Of(i, act) => CanAct(s, i, act)
    case BeginShutdown => s.stage == Serving
    case List => s.stage == Draining
    case Sweep => s.stage == Listed
  }

  function Next(s: State, step: Step): State
    requires Can(s, step)
  {
    match step
    case Of(i, act) => Acted(s, i, act)
    case BeginShutdown => s.(stage := Draining)
    case List =>
      s.(stage := Listed,
         runs := seq(|s.runs|, i requires 0 <= i < |s.runs| => s.runs[i].(listed := InTracker(s, i))))
    case Sweep =>
      s.(stage := Sweeping,
         runs := seq(|s.runs|, i requires 0 <= i < |s.runs| =>
           if s.runs[i].listed || InTracker(s, i) then s.runs[i].(settle := Pending) else s.runs[i]))
  }

  // ---- What every step keeps ---------------------------------------------------------------

  predicate OnTrack(p: Phase) { p == Starting || p == Live }
  predicate CallbackOwns(r: Run) { r.phase == Reporting || r.phase == Sent || r.phase == Done(true) }
  predicate SweepOwns(r: Run) { r.settle == Sending || r.settle == SweepSent || r.settle == Settled(true) }
  predicate SweepDefers(r: Run) { r.settle == Yielded || r.settle == Settled(false) }

  // The sends, read off where each side stands.
  predicate Counted(r: Run) {
    && r.byCallback == (if r.phase == Sent || r.phase == Done(true) then 1 else 0)
    && r.bySweep == (if r.settle == SweepSent || r.settle == Settled(true) then 1 else 0)
    && r.byLaunch == (if r.phase == Told then 1 else 0)
  }

  predicate Owned(r: Run, stage: Stage, claimed: bool) {
    && (stage == Serving ==> !claimed && !r.listed)
    && (stage == Draining ==> !r.listed)
    && (r.settle != NotHeld ==> stage == Sweeping)
    && (r.listed || r.settle != NotHeld ==> r.phase != Waiting && r.phase != Refused)
    // A claim has exactly one owner, and an unclaimed report of a callback is one that
    // was taken before the shutdown, of a run the sweep never holds.
    && (claimed ==> CallbackOwns(r) != SweepOwns(r))
    && (!claimed && CallbackOwns(r) ==> !r.listed && r.settle == NotHeld)
    && (SweepOwns(r) ==> claimed)
    && (SweepDefers(r) ==> claimed && CallbackOwns(r))
    && (r.phase == Done(false) ==> claimed && SweepOwns(r))
  }

  // One of the two sides has sent the report and is through.
  predicate Returned(r: Run) {
    r.phase == Done(true) || r.settle == Settled(true)
  }

  predicate ClosedOnce(r: Run, closed: bool) {
    closed <==> Returned(r)
  }

  predicate RunOk(s: State, i: nat)
    requires i < |s.runs|
  {
    var r := s.runs[i];
    && Counted(r) && Owned(r, s.stage, i in s.claims)
    && (i in s.claims ==> ClosedOnce(r, s.claims[i] == Closed))
    && (InTracker(s, i) <==> OnTrack(r.phase))
  }

  predicate Inv(s: State) {
    && |s.tracker| <= s.max
    && KeysMatch(s.tracker, s.runs)
    && forall i :: 0 <= i < |s.runs| ==> RunOk(s, i)
  }

  predicate Initial(s: State) {
    && s.tracker == map[] && s.stage == Serving && s.claims == map[]
    && forall i :: 0 <= i < |s.runs| ==> s.runs[i] == Run(s.runs[i].key, Waiting, false, NotHeld, 0, 0, 0)
  }

  lemma InitialOk(s: State)
    requires Initial(s)
    ensures Inv(s)
  {
    forall i | 0 <= i < |s.runs| ensures RunOk(s, i) { assert s.runs[i].phase == Waiting; }
  }

  lemma ActorOk(s: State, i: nat, act: Act)
    requires Inv(s) && CanAct(s, i, act)
    ensures RunOk(Acted(s, i, act), i)
  {
    assert RunOk(s, i);
    if act in {Admit, Refuse, Start, StartFails, TellFailed, Exit} {
      LaunchOk(s, i, act);
    } else {
      ReportOk(s, i, act);
    }
  }

  lemma LaunchOk(s: State, i: nat, act: Act)
    requires CanAct(s, i, act) && RunOk(s, i)
    requires act in {Admit, Refuse, Start, StartFails, TellFailed, Exit}
    ensures RunOk(Acted(s, i, act), i)
  {
  }

  // The acts of the two reporting sides leave the tracker alone.
  lemma ReportOk(s: State, i: nat, act: Act)
    requires CanAct(s, i, act) && RunOk(s, i)
    requires act !in {Admit, Refuse, Start, StartFails, TellFailed, Exit}
    ensures RunOk(Acted(s, i, act), i)
  {
    var t := Acted(s, i, act);
    assert t.tracker == s.tracker && t.runs[i].key == s.runs[i].key;
    assert InTracker(t, i) <==> InTracker(s, i);
  }

  // A step of one run leaves what holds of every other.
  lemma BystanderOk(s: State, i: nat, act: Act, j: nat)
    requires Inv(s) && CanAct(s, i, act) && j < |s.runs| && j != i
    ensures RunOk(Acted(s, i, act), j)
  {
    assert RunOk(s, j) && RunOk(s, i);
    var t := Acted(s, i, act);
    assert t.runs[j] == s.runs[j];
    if s.runs[j].key == s.runs[i].key {
      assert InTracker(s, i) ==> !InTracker(s, j);
    }
  }

  predicate KeysMatch(tracker: map<string, nat>, runs: seq<Run>) {
    forall k :: k in tracker ==> tracker[k] < |runs| && runs[tracker[k]].key == k
  }

  lemma KeysSet(tracker: map<string, nat>, runs: seq<Run>, i: nat, r: Run)
    requires KeysMatch(tracker, runs) && i < |runs| && r.key == runs[i].key
    ensures KeysMatch(tracker, runs[i := r])
  {
  }

  lemma KeysPut(tracker: map<string, nat>, runs: seq<Run>, i: nat)
    requires KeysMatch(tracker, runs) && i < |runs|
    ensures KeysMatch(tracker[runs[i].key := i], runs)
  {
  }

  lemma KeysDrop(tracker: map<string, nat>, runs: seq<Run>, k: string)
    requires KeysMatch(tracker, runs)
    ensures KeysMatch(tracker - {k}, runs) && |tracker - {k}| <= |tracker|
  {
    Tracker.SmallerMap(tracker, k);
  }

  lemma TrackerOk(s: State, i: nat, act: Act)
    requires Inv(s) && CanAct(s, i, act)
    ensures var t := Acted(s, i, act); |t.tracker| <= t.max && KeysMatch(t.tracker, t.runs)
  {
    var t := Acted(s, i, act);
    var r := t.runs[i];
    KeysDrop(s.tracker, s.runs, r.key);
    KeysPut(s.tracker, s.runs, i);
    KeysSet(t.tracker, s.runs, i, r);
  }

  lemma StepOk(s: State, step: Step)
    requires Inv(s) && Can(s, step)
    ensures Inv(Next(s, step))
  {
    match step
    case Of(i, act) =>
      var t := Acted(s, i, act);
      TrackerOk(s, i, act);
      forall j | 0 <= j < |t.runs| ensures RunOk(t, j) {
        if j == i { ActorOk(s, i, act); } else { BystanderOk(s, i, act, j); }
      }
    case _ =>
      var t := Next(s, step);
      forall j | 0 <= j < |t.runs| ensures RunOk(t, j) {
        assert RunOk(s, j);
        assert InTracker(t, j) <==> InTracker(s, j);
      }
  }

  // ---- Whole executions ----------------------------------------------------------------------

  predicate Legal(s: State, steps: seq<Step>)
    decreases |steps|
  {
    steps == [] || (Can(s, steps[0]) && Legal(Next(s, steps[0]), steps[1..]))
  }

  function After(s: State, steps: seq<Step>): State
    requires Legal(s, steps)
    decreases |steps|
  {
    if steps == [] then s else After(Next(s, steps[0]), steps[1..])
  }

  lemma {:induction false} InvAlways(s: State, steps: seq<Step>)
    requires Inv(s) && Legal(s, steps)
    ensures Inv(After(s, steps)) && |After(s, steps).runs| == |s.runs|
    decreases |steps|
  {
    if steps != [] {
      StepOk(s, steps[0]);
      InvAlways(Next(s, steps[0]), steps[1..]);
    }
  }

  /**
   * In every interleaving the callback and the sweep together send a run's terminal
   * report at most once, and a claim is closed exactly when its one report has returned.
   */
  lemma ReportedAtMostOnce(s: State, steps: seq<Step>, i: nat)
    requires Initial(s) && Legal(s, steps) && i < |s.runs|
    ensures var t := After(s, steps);
            && |t.runs| == |s.runs| && t.runs[i].byCallback + t.runs[i].bySweep <= 1
            && (i in t.claims ==> (t.claims[i] == Closed <==> Returned(t.runs[i])))
            && (i in t.claims && t.claims[i] == Closed ==> t.runs[i].byCallback + t.runs[i].bySweep == 1)
  {
    InitialOk(s);
    InvAlways(s, steps);
    assert RunOk(After(s, steps), i);
  }

  /**
   * A run the sweep has dealt with is claimed by exactly one side: sent once by the
   * sweep, or left to a callback that has sent it - or, where settle gave up at its
   * deadline, is still to send it.
   */
  lemma SweptHaveOneOwner(s: State, steps: seq<Step>, i: nat)
    requires Initial(s) && Legal(s, steps) && i < |s.runs| && |After(s, steps).runs| == |s.runs|
    requires After(s, steps).runs[i].settle.Settled?
    ensures var t := After(s, steps); var r := t.runs[i];
            && i in t.claims && CallbackOwns(r) != SweepOwns(r)
            && (r.settle.own ==> r.bySweep == 1 && r.byCallback == 0)
            && (!r.settle.own ==> r.bySweep == 0 && (r.byCallback == 1 || r.phase == Reporting))
            && (!r.settle.own && t.claims[i] == Closed ==> r.byCallback == 1)
  {
    InitialOk(s);
    InvAlways(s, steps);
    assert RunOk(After(s, steps), i);
  }

  // awaitPark's test: the run has yet to exit, or its callback to take the report.
  predicate Parking(s: State, i: nat) {
    InTracker(s, i) || i !in s.claims
  }

  lemma {:induction false} CallbackKeeps(s: State, steps: seq<Step>, i: nat)
    requires Inv(s) && Legal(s, steps) && i < |s.runs| && i in s.claims && CallbackOwns(s.runs[i])
    ensures |After(s, steps).runs| == |s.runs| && After(s, steps).runs[i].bySweep == 0
    decreases |steps|
  {
    assert RunOk(s, i);
    if steps != [] {
      StepOk(s, steps[0]);
      CallbackKeeps(Next(s, steps[0]), steps[1..], i);
    }
  }

  /**
   * A run whose wait ended before the sweep took its list is never reported failed by
   * the sweep, whatever happens afterwards.
   */
  lemma ParkedIsNeverSwept(s: State, before: seq<Step>, later: seq<Step>, i: nat)
    requires Initial(s) && Legal(s, before) && i < |s.runs|
    requires var t := After(s, before); |t.runs| == |s.runs| && t.stage == Listed && !Parking(t, i) && Legal(t, later)
    ensures |After(After(s, before), later).runs| == |s.runs| && After(After(s, before), later).runs[i].bySweep == 0
  {
    InitialOk(s);
    InvAlways(s, before);
    var t := After(s, before);
    assert RunOk(t, i);
    CallbackKeeps(t, later, i);
  }

  // A snapshot of the tracker is taken while the run's start is still under way.
  predicate CaughtBy(s: State, step: Step, i: nat)
    requires i < |s.runs|
  {
    (step == List || step == Sweep) && s.runs[i].phase == Starting
  }

  predicate CaughtStarting(s: State, steps: seq<Step>, i: nat)
    requires Legal(s, steps) && i < |s.runs|
    decreases |steps|
  {
    steps != [] && (CaughtBy(s, steps[0], i) || CaughtStarting(Next(s, steps[0]), steps[1..], i))
  }

  // Of a run whose start has not succeeded: the sweep is to deal with it, or has, exactly
  // when a snapshot caught it starting.
  predicate Caught(s: State, i: nat, caught: bool)
    requires i < |s.runs|
  {
    var r := s.runs[i];
    && (r.phase == Waiting ==> !caught)
    && (r.phase in {Starting, Unstarted, Told} ==> (caught <==> r.listed || r.settle != NotHeld))
    && (s.stage == Sweeping && r.listed ==> r.settle != NotHeld)
  }

  lemma CaughtStep(s: State, step: Step, i: nat, caught: bool)
    requires Inv(s) && Can(s, step) && i < |s.runs| && Caught(s, i, caught)
    ensures i < |Next(s, step).runs| && Caught(Next(s, step), i, caught || CaughtBy(s, step, i))
  {
    assert RunOk(s, i);
    if step.Of? && step.i == i { CaughtAct(s, i, step.act, caught); }
  }

  lemma CaughtAct(s: State, i: nat, act: Act, caught: bool)
    requires CanAct(s, i, act) && RunOk(s, i) && Caught(s, i, caught)
    ensures Caught(Acted(s, i, act), i, caught)
  {
  }

  lemma {:induction false} CaughtAlways(s: State, steps: seq<Step>, i: nat, caught: bool)
    requires Inv(s) && Legal(s, steps) && i < |s.runs| && Caught(s, i, caught)
    ensures i < |After(s, steps).runs| && Caught(After(s, steps), i, caught || CaughtStarting(s, steps, i))
    decreases |steps|
  {
    if steps != [] {
      StepOk(s, steps[0]);
      CaughtStep(s, steps[0], i, caught);
      CaughtAlways(Next(s, steps[0]), steps[1..], i, caught || CaughtBy(s, steps[0], i));
    }
  }

  /**
   * Launch failures report outside the claims. Counting them too, a run is reported twice
   * exactly when the tracker's list or the sweep caught it still starting, its start then
   * failed and was reported, and the sweep got past its send; at most once in every other
   * run of the protocol, and never more than twice.
   */
  lemma TwiceWhenCaughtStarting(s: State, steps: seq<Step>, i: nat)
    requires Initial(s) && Legal(s, steps) && i < |s.runs|
    ensures i < |After(s, steps).runs|
    ensures var r := After(s, steps).runs[i]; var total := r.byCallback + r.bySweep + r.byLaunch;
            && total <= 2
            && (total == 2 <==> CaughtStarting(s, steps, i) && r.phase == Told && (r.settle == SweepSent || r.settle.Settled?))
  {
    InitialOk(s);
    InvAlways(s, steps);
    assert s.runs[i].phase == Waiting;
    CaughtAlways(s, steps, i, false);
    assert RunOk(After(s, steps), i);
  }

  // The steps before the failed start, and those after it.
  function Snapshot(): seq<Step> { [Of(0, Admit), BeginShutdown, List] }
  function FailedStart(): seq<Step> { [Of(0, StartFails), Of(0, TellFailed)] }
  function SweepIt(): seq<Step> { [Sweep, Of(0, SettleClaims), Of(0, SettleSends)] }

  lemma Prepended(s: State, step: Step, rest: seq<Step>)
    requires Can(s, step) && Legal(Next(s, step), rest)
    ensures Legal(s, [step] + rest) && After(s, [step] + rest) == After(Next(s, step), rest)
  {
    assert ([step] + rest)[1..] == rest;
  }

  predicate One(s: State, phase: Phase, stage: Stage) {
    |s.runs| == 1 && s.runs[0].phase == phase && s.stage == stage && s.claims == map[] && s.runs[0].bySweep == 0
  }

  lemma SnapshotTaken(s: State)
    requires Initial(s) && |s.runs| == 1 && s.max > 0
    ensures Legal(s, Snapshot())
    ensures var t := After(s, Snapshot()); One(t, Starting, Listed) && t.runs[0].listed && t.runs[0].byLaunch == 0
  {
    var s1 := Next(s, Of(0, Admit));
    var s2 := Next(s1, BeginShutdown);
    var s3 := Next(s2, List);
    assert After(s3, []) == s3;
    Prepended(s2, List, []);
    Prepended(s1, BeginShutdown, [List]);
    Prepended(s, Of(0, Admit), [BeginShutdown, List]);
  }

  lemma StartFailed(s: State)
    requires One(s, Starting, Listed) && s.runs[0].listed && s.runs[0].byLaunch == 0
    ensures Legal(s, FailedStart())
    ensures var t := After(s, FailedStart()); One(t, Told, Listed) && t.runs[0].listed && t.runs[0].byLaunch == 1
  {
    var s1 := Next(s, Of(0, StartFails));
    var s2 := Next(s1, Of(0, TellFailed));
    assert After(s2, []) == s2;
    Prepended(s1, Of(0, TellFailed), []);
    Prepended(s, Of(0, StartFails), [Of(0, TellFailed)]);
  }

  lemma SweptToo(s: State)
    requires One(s, Told, Listed) && s.runs[0].listed && s.runs[0].byLaunch == 1
    ensures Legal(s, SweepIt())
    ensures var t := After(s, SweepIt()); |t.runs| == 1 && t.runs[0].byLaunch == 1 && t.runs[0].bySweep == 1
  {
    var s1 := Next(s, Sweep);
    var s2 := Next(s1, Of(0, SettleClaims));
    var s3 := Next(s2, Of(0, SettleSends));
    assert After(s3, []) == s3;
    Prepended(s2, Of(0, SettleSends), []);
    Prepended(s1, Of(0, SettleClaims), [Of(0, SettleSends)]);
    Prepended(s, Sweep, [Of(0, SettleClaims), Of(0, SettleSends)]);
  }

  /**
   * And it happens: a start that fails between the snapshot and the sweep is reported
   * failed by both.
   */
  lemma LaunchReportedTwice(s: State)
    requires Initial(s) && |s.runs| == 1 && s.max > 0
    ensures Legal(s, Snapshot()) && Legal(After(s, Snapshot()), FailedStart())
    ensures var t := After(After(s, Snapshot()), FailedStart());
            && Legal(t, SweepIt())
            && var u := After(t, SweepIt()); |u.runs| == 1 && u.runs[0].byLaunch == 1 && u.runs[0].bySweep == 1
  {
    SnapshotTaken(s);
    StartFailed(After(s, Snapshot()));
    SweptToo(After(After(s, Snapshot()), FailedStart()));
  }
}
