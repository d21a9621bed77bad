/** The controller and the runner together, over their two pipes, when no pipe fails. */
module ComposedProtocol {
  import opened Common
  import opened Controller
  import WriteReadVerdict

  datatype Message = StepLine | FinishLine

  datatype Event = RunStarted | StepObserved(index: nat, classification: string) | RunFinished | RunError

  /** The live runner: reading its next line after `stepIndex` steps, or closed with an exit code. */
  datatype Live = Reading(stepIndex: nat) | Closed(stepIndex: nat, exit: int)

  datatype Composed = Composed(controller: State, live: Live, toRunner: seq<Message>, toController: seq<Event>)

  const START := Composed(INITIAL, Reading(0), [], [RunStarted])

  /* The runner's steps. */

  /** A step is executed and observed; a driver failure also ends the run. */
  function Executed(a: Composed, classification: string): Composed
    requires a.toRunner != []
  {
    var index := a.live.stepIndex + 1;
    var told := a.(toRunner := a.toRunner[1..]);
    if classification == "driver_failure" then
      told.(live := Closed(index, 2),
            toController := a.toController + [StepObserved(index, classification), RunFinished])
    else told.(live := Reading(index), toController := a.toController + [StepObserved(index, classification)])
  }

  ghost predicate RunnerExecutes(a: Composed, b: Composed, classification: string) {
    a.live.Reading? && a.toRunner != [] && a.toRunner[0].StepLine? && a.live.stepIndex < MAX_STEPS
    && b == Executed(a, classification)
  }

  /** The step limit refuses a further step and ends the run. */
  ghost predicate RunnerRefuses(a: Composed, b: Composed) {
    && a.live.Reading? && a.toRunner != [] && a.toRunner[0].StepLine? && a.live.stepIndex >= MAX_STEPS
    && b == a.(toRunner := a.toRunner[1..], live := Closed(a.live.stepIndex, 2),
        toController := a.toController + [RunError, RunFinished])
  }

  ghost predicate RunnerFinishes(a: Composed, b: Composed) {
    && a.live.Reading? && a.toRunner != [] && a.toRunner[0].FinishLine?
    && b == a.(toRunner := a.toRunner[1..], live := Closed(a.live.stepIndex, 0),
        toController := a.toController + [RunFinished])
  }

  ghost predicate RunnerSteps(a: Composed, b: Composed) {
    (exists classification :: RunnerExecutes(a, b, classification)) || RunnerRefuses(a, b) || RunnerFinishes(a, b)
  }

  /* The controller's moves. */

  predicate IsFault(move: Move) {
    match move
    case Start(StartFails(_, _, _)) => true
    case Deliver(DispatchFails(_)) => true
    case Stop(StopFails(_)) => true
    case _ => false
  }

  /** The event that a move takes from the runner's output, if any. */
  function Takes(a: Composed, move: Move): Option<Event> {
    match move
    case Start(Starts(_)) => Some(RunStarted)
    case Await(ObservationSeen(classification, _)) =>
      Some(StepObserved(|a.controller.classifications| + 1, classification))
    case Await(FinishSeen(_)) => Some(RunFinished)
    case Stop(StopSeen(_)) => Some(RunFinished)
    case _ => None
  }

  /** The line that a move writes to the runner's input, if any. */
  function Sends(a: Composed, move: Move): seq<Message>
    requires Enabled(a.controller, move)
  {
    match move
    case Deliver(DispatchSent) => [if a.controller.loc.choice.isFinish then FinishLine else StepLine]
    case Stop(StopSent) => [FinishLine]
    case End(AbortDelivered(delivered)) => if delivered then [FinishLine] else []
    case _ => []
  }

  /** Exit codes that the controller learns are the runner's. */
  predicate ExitsRight(live: Live, move: Move) {
    match move
    case Await(FinishSeen(exit)) => live.Closed? && live.exit == exit
    case Stop(StopSeen(exit)) => live.Closed? && live.exit == exit
    case RunnerDies(exit) => live.Closed? && live.exit == exit
    case _ => true
  }

  predicate CanMove(a: Composed, move: Move) {
    && Enabled(a.controller, move) && !IsFault(move) && ExitsRight(a.live, move)
    && (Takes(a, move).Some? ==> a.toController != [] && a.toController[0] == Takes(a, move).value)
  }

  ghost function Moved(setup: Setup, a: Composed, move: Move): Composed
    requires CanMove(a, move)
  {
    Composed(Do(setup, a.controller, move), a.live, a.toRunner + Sends(a, move),
             if Takes(a, move).Some? then a.toController[1..] else a.toController)
  }

  ghost predicate ControllerMoves(setup: Setup, a: Composed, b: Composed, move: Move) {
    CanMove(a, move) && b == Moved(setup, a, move)
  }

  ghost predicate Next(setup: Setup, a: Composed, b: Composed) {
    RunnerSteps(a, b) || exists move :: ControllerMoves(setup, a, b, move)
  }

  ghost predicate IsRun(setup: Setup, run: seq<Composed>) {
    && run != [] && run[0] == START
    && forall i :: 0 <= i < |run| - 1 ==> Next(setup, run[i], run[i + 1])
  }

  /* The invariant. */

  /** Nothing is under way and the runner has executed as many steps as were acknowledged. */
  predicate Quiet(a: Composed) {
    a.toRunner == [] && a.toController == [] && a.live == Reading(|a.controller.classifications|)
  }

  /** The runner has closed with this code and its last event is still to be read. */
  predicate FinishedWith(a: Composed, exit: int) {
    a.toRunner == [] && a.toController == [RunFinished] && a.live == Closed(|a.controller.classifications|, exit)
  }

  /** A finish is under way, or done. */
  predicate Finishing(a: Composed) {
    || (a.toRunner == [FinishLine] && a.toController == [] && a.live == Reading(|a.controller.classifications|))
    || FinishedWith(a, 0)
  }

  /** A step is under way, or its observation is. */
  predicate Stepping(a: Composed) {
    var index := |a.controller.classifications| + 1;
    || (a.toRunner == [StepLine] && a.toController == [] && a.live == Reading(index - 1))
    || (a.toRunner == [] && |a.toController| == 1 && a.toController[0].StepObserved? && a.toController[0].index == index
        && a.toController[0].classification != "driver_failure" && a.live == Reading(index))
    || (a.toRunner == [] && a.toController == [StepObserved(index, "driver_failure"), RunFinished]
        && a.live == Closed(index, 2))
  }

  predicate DriverFailed(a: Composed) {
    var seen := a.controller.classifications;
    seen != [] && seen[|seen| - 1] == "driver_failure"
  }

  /** After an acknowledgement: quiet, or ended by a driver failure. */
  predicate Settling(a: Composed) {
    if DriverFailed(a) then FinishedWith(a, 2) else Quiet(a)
  }

  /** A step line is only ever the first unread line, and below the limit. */
  predicate GuardSafe(a: Composed) {
    && (a.toRunner != [] && a.toRunner[0].StepLine? ==> a.live.stepIndex < MAX_STEPS)
    && forall i :: 0 < i < |a.toRunner| ==> a.toRunner[i].FinishLine?
  }

  predicate InStep(a: Composed) {
    var n := |a.controller.classifications|;
    match a.controller.loc
    case Starting => a == START.(controller := a.controller) && n == 0
    case Top => Quiet(a) && n < MAX_STEPS && !DriverFailed(a)
    case Chosen(_) => Quiet(a) && n < MAX_STEPS && !DriverFailed(a)
    case Writing(_) => Quiet(a) && n < MAX_STEPS && !DriverFailed(a)
    case AwaitObservation(_) => Stepping(a) && n < MAX_STEPS
    case AwaitFinished(_) => Finishing(a) && !DriverFailed(a)
    case Acked(_) => Settling(a) && n > 0
    case SendingStop => Quiet(a) && !DriverFailed(a)
    case StopWriting => Quiet(a) && !DriverFailed(a)
    case AwaitStopped => if DriverFailed(a) then FinishedWith(a, 2) else Finishing(a)
    case LoopDone => a.toRunner == [] && a.toController == [] && a.live.Closed?
    case _ => true
  }

  /** The exit code that a completed loop reports: 2 after a driver failure, else 0. */
  predicate ExitFits(a: Composed) {
    a.controller.loc.LoopDone? ==> a.controller.runnerExit == Some(if DriverFailed(a) then 2 else 0)
  }

  predicate Inv(a: Composed) {
    && InStep(a) && GuardSafe(a) && ExitFits(a)
    && (a.controller.runner.Exited? && IsLooping(a.controller.loc) ==>
      a.live.Closed? && a.live.exit == a.controller.runner.code)
  }

  predicate IsLooping(loc: Loc) {
    !loc.Raised? && !loc.Closing? && !loc.Settled? && !loc.AbortWriting? && !loc.AbortWaiting? && !loc.Reporting?
    && !loc.Done?
  }

  lemma RunnerKeepsInv(a: Composed, b: Composed)
    requires Inv(a) && RunnerSteps(a, b)
    ensures Inv(b)
  {
  }

  /** The composed state after a move, with the controller's part given. */
  function With(a: Composed, controller: State, sent: seq<Message>, took: bool): Composed {
    Composed(controller, a.live, a.toRunner + sent,
             if took && a.toController != [] then a.toController[1..] else a.toController)
  }

  lemma StartKeepsInv(a: Composed, runPaths: seq<string>)
    requires Inv(a) && a.controller.loc.Starting?
    ensures Inv(With(a, DoStart(a.controller, Starts(runPaths)), [], true))
  {
  }

  lemma DecideKeepsInv(a: Composed, move: DecideMove)
    requires Inv(a) && a.controller.loc.Top?
    ensures Inv(With(a, DoDecide(a.controller, move), [], false))
  {
  }

  lemma DeliverKeepsInv(a: Composed, move: DeliverMove)
    requires Inv(a) && CanMove(a, Deliver(move))
    ensures Inv(With(a, DoDeliver(a.controller, a.controller.loc.choice, move), Sends(a, Deliver(move)), false))
  {
  }

  lemma FinishKeepsInv(a: Composed, exit: int, met: bool)
    requires Inv(a) && a.controller.loc.AwaitFinished? && a.live.Closed? && a.live.exit == exit
    ensures Inv(With(a, AfterFinish(a.controller, a.controller.loc.choice, exit, met), [], true))
  {
  }

  lemma ObservationKeepsInv(a: Composed, classification: string, entry: WriteReadVerdict.Entry)
    requires Inv(a) && a.controller.loc.AwaitObservation?
    requires a.toController != []
        && a.toController[0] == StepObserved(|a.controller.classifications| + 1, classification)
    ensures Inv(With(a, AfterObservation(a.controller, a.controller.loc.choice, classification, entry), [], true))
  {
  }

  /** Where the run goes after an acknowledgement. */
  function JudgedLoc(seen: seq<string>): Loc
    requires seen != []
  {
    var last := seen[|seen| - 1];
    if StopsRun(last) then if last == "driver_failure" then AwaitStopped else SendingStop
    else if |seen| >= MAX_STEPS then SendingStop else Top
  }

  lemma JudgedTo(st: State, choice: Choice)
    requires st.classifications != [] && st.history != []
    ensures var next := AfterAck(st, choice);
      next.loc == JudgedLoc(st.classifications) && next.classifications == st.classifications
      && next.runner == st.runner
  {
  }

  lemma JudgedKeepsInv(a: Composed, next: State)
    requires Inv(a) && a.controller.loc.Acked? && a.controller.classifications != []
    requires next.loc == JudgedLoc(a.controller.classifications)
    requires next.classifications == a.controller.classifications && next.runner == a.controller.runner
    ensures Inv(With(a, next, [], false))
  {
  }

  lemma JudgesKeepsInv(a: Composed)
    requires Inv(a) && a.controller.loc.Acked? && a.controller.classifications != [] && a.controller.history != []
    ensures Inv(With(a, AfterAck(a.controller, a.controller.loc.choice), [], false))
  {
    JudgedTo(a.controller, a.controller.loc.choice);
    JudgedKeepsInv(a, AfterAck(a.controller, a.controller.loc.choice));
  }

  lemma StopSeenKeepsInv(a: Composed, exit: int)
    requires Inv(a) && CanMove(a, Stop(StopSeen(exit)))
    ensures Inv(With(a, DoStop(a.controller, StopSeen(exit)), [], true))
  {
  }

  lemma StopToldKeepsInv(a: Composed)
    requires Inv(a) && a.controller.loc.StopWriting?
    ensures Inv(With(a, DoStop(a.controller, StopSent), [FinishLine], false))
  {
  }

  lemma StopKeepsInv(a: Composed, move: StopMove)
    requires Inv(a) && CanMove(a, Stop(move))
    ensures Inv(With(a, DoStop(a.controller, move), Sends(a, Stop(move)), Takes(a, Stop(move)).Some?))
  {
    match move
    case StopSeen(exit) => StopSeenKeepsInv(a, exit);
    case StopSent => StopToldKeepsInv(a);
    case _ =>
  }

  /** Past the loop, only the messages matter. */
  lemma EndKeepsInv(setup: Setup, a: Composed, move: EndMove)
    requires Inv(a) && CanMove(a, End(move))
    ensures Inv(Moved(setup, a, End(move)))
  {
    var c := DoEnd(setup, a.controller, PendingOf(a.controller.loc), move);
    assert !IsLooping(c.loc);
  }

  lemma CutKeepsInv(setup: Setup, a: Composed, move: Move)
    requires Inv(a) && CanMove(a, move) && (move.CutOff? || move.RunnerDies?)
    ensures Inv(Moved(setup, a, move))
  {
    assert a.toRunner + [] == a.toRunner;
  }

  lemma MoveKeepsInv(setup: Setup, a: Composed, move: Move)
    requires Inv(a) && CanMove(a, move)
    ensures Inv(Moved(setup, a, move))
  {
    match move
    case Start(Starts(runPaths)) => StartKeepsInv(a, runPaths);
    case Decide(decide) => DecideKeepsInv(a, decide);
    case Deliver(deliver) => DeliverKeepsInv(a, deliver);
    case Await(FinishSeen(exit)) => FinishKeepsInv(a, exit, IsMetBy(setup, a.controller.history));
    case Await(ObservationSeen(classification, observation)) =>
      ObservationKeepsInv(a, classification, HistoryEntry(a.controller.loc.choice.action, observation));
    case Await(Judges) => JudgesKeepsInv(a);
    case Stop(stop) => StopKeepsInv(a, stop);
    case End(end) => EndKeepsInv(setup, a, end);
    case _ => CutKeepsInv(setup, a, move);
  }

  lemma {:induction false} RunsKeepInv(setup: Setup, run: seq<Composed>, i: nat)
    requires IsRun(setup, run) && i < |run|
    ensures Inv(run[i])
  {
    if i > 0 {
      RunsKeepInv(setup, run, i - 1);
      var a, b := run[i - 1], run[i];
      assert Next(setup, run[i - 1], run[i - 1 + 1]);
      if RunnerSteps(a, b) {
        RunnerKeepsInv(a, b);
      } else {
        var move :| ControllerMoves(setup, a, b, move);
        MoveKeepsInv(setup, a, move);
      }
    }
  }

  /* What the two sides can rely on. */

  /** After every acknowledgement, and whenever the controller chooses, both sides have counted the same steps. */
  lemma StepCountsAgree(setup: Setup, run: seq<Composed>, i: nat)
    requires IsRun(setup, run) && i < |run|
    requires var loc := run[i].controller.loc;
      loc.Acked? || loc.Top? || loc.SendingStop? || loc.AwaitFinished? || loc.AwaitStopped?
    ensures run[i].live.stepIndex == |run[i].controller.classifications|
  {
    RunsKeepInv(setup, run, i);
  }

  /** Each side finds the kind of message it waits for, numbered as it expects; the step limit is never reached. */
  lemma MessagesAreExpected(setup: Setup, run: seq<Composed>, i: nat)
    requires IsRun(setup, run) && i < |run|
    ensures var a, loc := run[i], run[i].controller.loc;
      && (loc.AwaitObservation? && a.toController != [] ==>
           a.toController[0].StepObserved? && a.toController[0].index == |a.controller.classifications| + 1)
      && ((loc.AwaitFinished? || loc.AwaitStopped?) && a.toController != [] ==> a.toController[0].RunFinished?)
      && (a.toRunner != [] && a.toRunner[0].StepLine? ==> a.live.stepIndex < MAX_STEPS)
      && (forall b :: !RunnerRefuses(a, b))
  {
    RunsKeepInv(setup, run, i);
  }

  /** A completed loop saw exit code 0, except after a driver failure. */
  lemma LoopExits(setup: Setup, run: seq<Composed>, i: nat)
    requires IsRun(setup, run) && i < |run| && run[i].controller.loc.LoopDone?
    ensures run[i].controller.runnerExit == Some(if DriverFailed(run[i]) then 2 else 0)
  {
    RunsKeepInv(setup, run, i);
  }

  /** While the controller waits, its event is there or the runner can produce it: the two never wait for each other. */
  lemma NeverDeadlocked(setup: Setup, run: seq<Composed>, i: nat) returns (b: Composed)
    requires IsRun(setup, run) && i < |run|
    requires var loc := run[i].controller.loc; loc.AwaitObservation? || loc.AwaitFinished? || loc.AwaitStopped?
    ensures Next(setup, run[i], b)
    ensures run[i].toController == [] ==> |b.toController| > 0
    ensures run[i].toController != [] ==>
      |b.toController| < |run[i].toController| && b.controller.loc != run[i].controller.loc
  {
    RunsKeepInv(setup, run, i);
    var a := run[i];
    if a.toController == [] {
      if a.toRunner[0].StepLine? {
        b := Executed(a, "observed");
        assert RunnerExecutes(a, b, "observed");
      } else {
        b := a.(toRunner := a.toRunner[1..], live := Closed(a.live.stepIndex, 0),
            toController := a.toController + [RunFinished]);
        assert RunnerFinishes(a, b);
      }
    } else {
      var move :=
        if a.controller.loc.AwaitObservation? then Await(ObservationSeen(a.toController[0].classification, Null))
        else if a.controller.loc.AwaitFinished? then Await(FinishSeen(a.live.exit))
        else Stop(StopSeen(a.live.exit));
      b := Moved(setup, a, move);
      assert ControllerMoves(setup, a, b, move);
    }
  }
}
