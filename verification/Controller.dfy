/** The controller's run: a loop of decisions over a runner that may fail, time out or be cut off anywhere. */
module Controller {
  import opened Common
  import opened DecisionLog
  import opened WriteReadVerdict
  import opened RequiredProbes
  import Redaction

  const MAX_STEPS := 8

  /** Exceptions by how the run treats them: `Other` and `Cancelled` are caught nowhere in the run itself. */
  datatype Raise = ControllerError(code: string) | Runtime(name: string) | Other | Cancelled

  datatype RunStatus = Failed | Finished | Inconclusive | Limited

  datatype Setup = Setup(requireWriteRead: bool, probes: seq<Probe>)

  datatype Report = Report(
    status: RunStatus, finishReason: string, classifications: seq<string>, errorCode: Option<string>,
    runnerExit: Option<int>, writeReadVerified: bool, unmet: seq<Probe>)

  datatype Runner = NotStarted | Running | Exited(code: int)

  /** A parsed decision of the model. */
  datatype Choice = Choice(action: map<string, Json>, isFinish: bool, hash: string)

  /** The awaits and branches of the run, in source order. */
  datatype Loc =
    | Starting
    | Top
    | Chosen(choice: Choice)
    | Writing(choice: Choice)
    | AwaitFinished(choice: Choice)
    | AwaitObservation(choice: Choice)
    | Acked(choice: Choice)
    | SendingStop
    | StopWriting
    | AwaitStopped
    | LoopDone
    | Raised(raise: Raise)
    | Closing(pending: Option<Raise>)
    | Settled(pending: Option<Raise>)
    | AbortWriting(pending: Option<Raise>)
    | AbortWaiting(pending: Option<Raise>)
    | Reporting(pending: Option<Raise>)
    | Done(outcome: Result<Report, Raise>)

  /** The run's variables; `phase` is where the log stands in its grammar. */
  datatype State = State(
    loc: Loc, log: seq<LogEvent>, phase: Phase, hasLog: bool, runPaths: seq<string>,
    classifications: seq<string>, history: seq<Entry>,
    status: RunStatus, finishReason: string, errorCode: Option<string>, runnerExit: Option<int>,
    attempt: nat, inFlight: Option<Act>, resolved: bool, runner: Runner, written: Option<Report>)
  {
    function At(loc: Loc): State {
      this.(loc := loc)
    }

    function Logged(event: LogEvent): State {
      this.(log := log + [event], phase := Advance(phase, event))
    }

    predicate Unresolved() {
      inFlight.Some? && !resolved
    }

    function ActOf(choice: Choice): Act {
      Act(if choice.isFinish then None else Some(|classifications| + 1), choice.hash)
    }
  }

  const INITIAL := State(Starting, [], Fresh(0), false, [], [], [], Failed, "controller_error", None, None, 0, None,
      true, NotStarted, None)

  ghost predicate IsMetBy(setup: Setup, history: seq<Entry>) {
    (setup.requireWriteRead ==> IsVerified(history)) && Unmet(setup.probes, history) == []
  }

  /** `_make_report`. */
  ghost function ReportOf(setup: Setup, st: State): Report {
    Report(st.status, st.finishReason, st.classifications, st.errorCode, st.runnerExit,
           IsVerified(st.history), Unmet(setup.probes, st.history))
  }

  predicate StopsRun(classification: string) {
    classification in {"driver_failure", "unexpected_failure", "unexpected_success", "ambiguous_outcome"}
  }

  function HistoryEntry(action: map<string, Json>, observation: Json): Entry {
    map["action" := Obj(action), "observation" := observation]
  }

  /** What the environment, or the code itself where it is deterministic, does next. */
  datatype Move =
    | Start(start: StartMove)
    | Decide(decide: DecideMove)
    | Deliver(deliver: DeliverMove)
    | Await(await: AwaitMove)
    | Stop(stop: StopMove)
    | End(end: EndMove)
    | CutOff(raise: Raise)
    | RunnerDies(exit: int)

  datatype StartMove = StartFails(raise: Raise, logOpen: bool, started: bool) | Starts(runPaths: seq<string>)

  datatype DecideMove = PrepareFails(raise: Raise) | DecisionFails(code: string) | Chooses(choice: Choice)

  datatype DeliverMove = DispatchRefused(code: string) | DispatchBegins | DispatchFails(code: string) | DispatchSent

  datatype AwaitMove = FinishSeen(exit: int) | ObservationSeen(classification: string, observation: Json) | Judges

  datatype StopMove = StopSkipped | StopBegins | StopFails(code: string) | StopSent | StopSeen(exit: int) | Concludes

  datatype EndMove = Handles | Settles | AbortSkipped | AbortBegins | AbortDelivered(delivered: bool)
      | AbortWaited(exited: Option<int>) | Reports(ok: bool, placed: bool)

  predicate IsAwaiting(loc: Loc) {
    loc.Writing? || loc.AwaitFinished? || loc.AwaitObservation? || loc.SendingStop? || loc.StopWriting?
    || loc.AwaitStopped? || loc.AbortWriting? || loc.AbortWaiting?
  }

  /**
   What may leave each place: anything a wait, but only a cancellation a write, whose other errors are handled on
   the spot; and an error of its own the progress line after an acknowledgement and the wait for the runner's
   standard error, which swallows a cancellation.
   */
  predicate MayLeave(st: State, raise: Raise) {
    match st.loc
    case Writing(_) => raise.Cancelled?
    case StopWriting => raise.Cancelled?
    case AbortWriting(_) => raise.Cancelled?
    case Acked(_) => raise.Runtime? || raise.Other?
    case Reporting(_) => !raise.Cancelled? && !st.runner.NotStarted?
    case _ => IsAwaiting(st.loc)
  }

  /** A wait reports the code of a runner that has already exited. */
  predicate ExitsWith(runner: Runner, code: int) {
    runner.Exited? ==> code == runner.code
  }

  predicate Enabled(st: State, move: Move) {
    match move
    case Start(StartFails(_, logOpen, started)) => st.loc.Starting? && (logOpen ==> started)
    case Start(Starts(_)) => st.loc.Starting?
    case Decide(_) => st.loc.Top?
    case Deliver(DispatchRefused(_)) => st.loc.Chosen?
    case Deliver(DispatchBegins) => st.loc.Chosen?
    case Deliver(_) => st.loc.Writing?
    case Await(FinishSeen(exit)) => st.loc.AwaitFinished? && ExitsWith(st.runner, exit)
    case Await(ObservationSeen(_, _)) => st.loc.AwaitObservation?
    case Await(Judges) => st.loc.Acked? && st.classifications != [] && st.history != []
    case Stop(StopSkipped) => st.loc.SendingStop? && st.runner.Exited?
    case Stop(StopBegins) => st.loc.SendingStop? && !st.runner.Exited?
    case Stop(StopFails(_)) => st.loc.StopWriting?
    case Stop(StopSent) => st.loc.StopWriting?
    case Stop(StopSeen(exit)) => st.loc.AwaitStopped? && ExitsWith(st.runner, exit)
    case Stop(Concludes) => st.loc.LoopDone?
    case End(Handles) => st.loc.Raised?
    case End(Settles) => st.loc.Closing?
    case End(AbortSkipped) => st.loc.Settled? && !st.runner.Running?
    case End(AbortBegins) => st.loc.Settled? && st.runner.Running?
    case End(AbortDelivered(_)) => st.loc.AbortWriting?
    case End(AbortWaited(exited)) => st.loc.AbortWaiting? && (st.runner.Exited? ==> exited == Some(st.runner.code))
    case End(Reports(ok, placed)) => st.loc.Reporting? && (ok ==> placed)
    case CutOff(raise) => MayLeave(st, raise)
    case RunnerDies(_) => st.runner.Running? && !st.loc.Done?
  }

  predicate IsClosing(loc: Loc) {
    loc.AbortWriting? || loc.AbortWaiting? || loc.Reporting?
  }

  /** Where an exception goes: out of the closing block it leaves the run, anywhere else it reaches the handlers. */
  function Interrupted(st: State, raise: Raise): State {
    st.At(if IsClosing(st.loc) then Done(Err(raise)) else Raised(raise))
  }

  /** The last entry's action is kept for the model only with the run's paths redacted. */
  function WithRedacted(history: seq<Entry>, choice: Choice, runPaths: seq<string>): (redacted: seq<Entry>)
    requires history != []
    ensures |redacted| == |history| && redacted[..|history| - 1] == history[..|history| - 1]
  {
    history[|history| - 1 := history[|history| - 1]["action" := Redaction.Redact(Obj(choice.action), runPaths)]]
  }

  /** After an acknowledgement: stop on a classification that stops, or on the last step; otherwise redact and go on. */
  function AfterAck(st: State, choice: Choice): State
    requires st.classifications != [] && st.history != []
  {
    var classification := st.classifications[|st.classifications| - 1];
    if StopsRun(classification) then
      st.(finishReason := "stopped_after_" + classification, status := Failed, errorCode := Some(classification),
          loc := if classification == "driver_failure" then AwaitStopped else SendingStop)
    else if |st.classifications| >= MAX_STEPS then
      st.(finishReason := "step_budget", status := Limited, loc := SendingStop)
    else
      st.(history := WithRedacted(st.history, choice, st.runPaths), loc := Top)
  }

  function OrElse(code: Option<string>, other: string): Option<string> {
    if code.Some? && code.value != "" then code else Some(other)
  }

  function DoStart(st: State, move: StartMove): State {
    match move
    case StartFails(raise, logOpen, started) =>
      st.(loc := Raised(raise), hasLog := logOpen, runner := if started then Running else NotStarted)
    case Starts(runPaths) => st.(loc := Top, hasLog := true, runPaths := runPaths, runner := Running)
  }

  function DoDecide(st: State, move: DecideMove): State {
    var next := st.(attempt := st.attempt + 1);
    match move
    case PrepareFails(raise) => next.At(Raised(raise))
    case DecisionFails(code) => next.At(Raised(ControllerError(code))).Logged(Decision(next.attempt, None, Some(code)))
    case Chooses(choice) => next.At(Chosen(choice)).Logged(Decision(next.attempt, Some(st.ActOf(choice)), None))
  }

  function DoDeliver(st: State, choice: Choice, move: DeliverMove): State {
    var act := st.ActOf(choice);
    match move
    case DispatchRefused(code) => st.At(Raised(ControllerError(code)))
    case DispatchBegins =>
      st.(loc := Writing(choice), inFlight := Some(act), resolved := false).Logged(Dispatch(st.attempt, act, Pending))
    case DispatchFails(code) =>
      st.(loc := Raised(ControllerError(code)), resolved := true).Logged(Dispatch(st.attempt, act, Unknown))
    case DispatchSent =>
      var sent := st.Logged(Dispatch(st.attempt, act, Sent));
      if choice.isFinish then
        sent.(loc := AwaitFinished(choice), finishReason := "model_finish", status := RunStatus.Finished)
      else sent.At(AwaitObservation(choice))
  }

  function AfterFinish(st: State, choice: Choice, exit: int, met: bool): State {
    var acked :=
      st.(runnerExit := Some(exit), runner := Exited(exit), resolved := true, inFlight := None, loc := LoopDone)
      .Logged(FinishAck(st.attempt, st.ActOf(choice)));
    if met then acked else acked.(status := Inconclusive, finishReason := "unverified_completion")
  }

  function AfterObservation(st: State, choice: Choice, classification: string, entry: Entry): State {
    st.Logged(ObservationAck(st.attempt, st.ActOf(choice), classification))
      .(classifications := st.classifications + [classification], history := st.history + [entry],
        resolved := true, inFlight := None, loc := Acked(choice))
  }

  ghost function DoAwait(setup: Setup, st: State, choice: Choice, move: AwaitMove): State
    requires move.Judges? ==> st.classifications != [] && st.history != []
  {
    match move
    case FinishSeen(exit) => AfterFinish(st, choice, exit, IsMetBy(setup, st.history))
    case ObservationSeen(classification, observation) =>
      AfterObservation(st, choice, classification, HistoryEntry(choice.action, observation))
    case Judges => AfterAck(st, choice)
  }

  function DoStop(st: State, move: StopMove): State {
    match move
    case StopSkipped => st.At(AwaitStopped)
    case StopBegins => st.At(StopWriting).Logged(ControllerFinish(st.finishReason, Pending))
    case StopFails(code) => st.At(Raised(ControllerError(code))).Logged(ControllerFinish(st.finishReason, Unknown))
    case StopSent => st.At(AwaitStopped).Logged(ControllerFinish(st.finishReason, Sent))
    case StopSeen(exit) => st.(runnerExit := Some(exit), runner := Exited(exit), loc := LoopDone)
    case Concludes =>
      if st.runnerExit == Some(0) then st.At(Closing(None))
      else st.(status := Failed, errorCode := OrElse(st.errorCode, "runner_failure"), loc := Closing(None))
  }

  function DoHandle(st: State, raise: Raise): State {
    match raise
    case ControllerError(code) => st.(finishReason := code, errorCode := Some(code), loc := Closing(None))
    case Runtime(name) => st.(finishReason := "controller_runtime_error", errorCode := Some(name), loc := Closing(None))
    case _ => st.At(Closing(Some(raise)))
  }

  /** An entry of the closing block, which is written only if the log was opened. */
  function IfLogged(st: State, event: LogEvent): State {
    if st.hasLog then st.Logged(event) else st
  }

  /** An action still unresolved is logged as unknown. */
  function DoSettle(st: State, pending: Option<Raise>): State {
    if st.Unresolved() then IfLogged(st.At(Settled(pending)), Dispatch(st.attempt, st.inFlight.value, Unknown))
    else st.At(Settled(pending))
  }

  /** The report may already be in its place when writing it, or closing the log, raises. */
  function DoReport(st: State, pending: Option<Raise>, ok: bool, placed: bool, report: Report): State {
    st.(written := if st.hasLog && placed then Some(report) else None,
        loc := Done(if st.hasLog && !ok then Err(Runtime("OSError"))
                    else if pending.Some? then Err(pending.value) else Ok(report)))
  }

  ghost function DoEnd(setup: Setup, st: State, pending: Option<Raise>, move: EndMove): State {
    match move
    case Handles => if st.loc.Raised? then DoHandle(st, st.loc.raise) else st
    case Settles => DoSettle(st, pending)
    case AbortSkipped => st.At(Reporting(pending))
    case AbortBegins =>
      IfLogged(st.At(AbortWriting(pending)), AbortFinish(st.attempt, StepOf(st), st.finishReason, Pending))
    case AbortDelivered(delivered) =>
      IfLogged(st.At(AbortWaiting(pending)),
               AbortFinish(st.attempt, StepOf(st), st.finishReason, if delivered then Sent else Unknown))
    case AbortWaited(exited) =>
      st.(runner := if exited.Some? then Exited(exited.value) else st.runner, runnerExit := exited,
          loc := Reporting(pending))
    case Reports(ok, placed) => DoReport(st, pending, ok, placed, ReportOf(setup, st))
  }

  function PendingOf(loc: Loc): Option<Raise> {
    match loc
    case Closing(pending) => pending
    case Settled(pending) => pending
    case AbortWriting(pending) => pending
    case AbortWaiting(pending) => pending
    case Reporting(pending) => pending
    case _ => None
  }

  ghost function Do(setup: Setup, st: State, move: Move): State
    requires Enabled(st, move)
  {
    match move
    case Start(start) => DoStart(st, start)
    case Decide(decide) => DoDecide(st, decide)
    case Deliver(deliver) => DoDeliver(st, st.loc.choice, deliver)
    case Await(await) => DoAwait(setup, st, st.loc.choice, await)
    case Stop(stop) => DoStop(st, stop)
    case End(end) => DoEnd(setup, st, PendingOf(st.loc), end)
    case CutOff(raise) => Interrupted(st, raise)
    case RunnerDies(exit) => st.(runner := Exited(exit))
  }

  function StepOf(st: State): Option<nat> {
    if st.inFlight.Some? then st.inFlight.value.step else None
  }

  /* Runs. */

  ghost predicate Makes(setup: Setup, a: State, move: Move, b: State) {
    Enabled(a, move) && b == Do(setup, a, move)
  }

  ghost predicate Next(setup: Setup, a: State, b: State) {
    exists move :: Makes(setup, a, move, b)
  }

  ghost predicate IsRun(setup: Setup, run: seq<State>) {
    && run != [] && run[0] == INITIAL
    && forall i :: 0 <= i < |run| - 1 ==> Next(setup, run[i], run[i + 1])
  }

  /* The log is in the grammar at every moment. */

  /** The attempt in flight and its action are the ones that the log has in doubt or delivered. */
  predicate InFlightFits(st: State) {
    if st.Unresolved() then
      st.phase == InDoubt(st.attempt, st.inFlight.value) || st.phase == Delivered(st.attempt, st.inFlight.value)
    else IsResolved(st.phase)
  }

  /** No abort entry yet. */
  predicate BeforeAbort(phase: Phase) {
    !phase.Aborting? && !phase.Aborted?
  }

  predicate InFlight(st: State, choice: Choice) {
    st.inFlight == Some(st.ActOf(choice)) && !st.resolved
  }

  /** Where the log stands at each place of the loop. */
  predicate LoopFits(st: State) {
    var acks := |st.classifications|;
    match st.loc
    case Starting =>
      st.phase == Fresh(0) && st.log == [] && acks == 0 && st.attempt == 0 && !st.Unresolved() && !st.hasLog
    case Top => st.hasLog && st.phase == Fresh(acks) && st.attempt == acks && !st.Unresolved()
    case Chosen(choice) =>
      st.hasLog && st.phase == Ready(st.attempt, st.ActOf(choice)) && st.attempt == acks + 1 && !st.Unresolved()
    case Writing(choice) =>
      st.hasLog && st.phase == InDoubt(st.attempt, st.ActOf(choice)) && st.attempt == acks + 1 && InFlight(st, choice)
    case AwaitFinished(choice) =>
      st.hasLog && st.phase == Delivered(st.attempt, st.ActOf(choice)) && choice.isFinish && InFlight(st, choice)
    case AwaitObservation(choice) =>
      st.hasLog && st.phase == Delivered(st.attempt, st.ActOf(choice)) && !choice.isFinish && st.attempt == acks + 1
      && InFlight(st, choice)
    case Acked(_) =>
      st.hasLog && st.phase == Fresh(acks) && acks > 0 && st.attempt == acks && !st.Unresolved() && st.history != []
    case SendingStop => st.hasLog && st.phase == Fresh(acks) && acks > 0 && !st.Unresolved()
    case StopWriting => st.hasLog && st.phase == Stopping && !st.Unresolved()
    case AwaitStopped => st.hasLog && (st.phase == Fresh(acks) || st.phase == Stopped) && !st.Unresolved()
    case LoopDone => st.hasLog && IsResolved(st.phase) && BeforeAbort(st.phase) && !st.Unresolved()
    case _ => true
  }

  /** Where it stands once the loop has been left. */
  predicate EndFits(st: State) {
    && (!st.hasLog ==> st.phase == Fresh(0))
    && match st.loc
       case Raised(_) => InFlightFits(st) && BeforeAbort(st.phase)
       case Closing(_) => InFlightFits(st) && BeforeAbort(st.phase)
       case Settled(_) => IsResolved(st.phase) && BeforeAbort(st.phase)
       case AbortWriting(_) => IsResolved(st.phase) && (st.hasLog ==> st.phase.Aborting?)
       case AbortWaiting(_) => IsResolved(st.phase)
       case Reporting(_) => IsResolved(st.phase)
       case Done(_) => IsResolved(st.phase)
       case _ => true
  }

  predicate LogFits(st: State) {
    LoopFits(st) && EndFits(st)
  }

  lemma StartKeepsLog(st: State, move: StartMove)
    requires LogFits(st) && st.loc.Starting?
    ensures LogFits(DoStart(st, move))
  {
  }

  lemma DecideKeepsLog(st: State, move: DecideMove)
    requires LogFits(st) && st.loc.Top?
    ensures LogFits(DoDecide(st, move))
  {
  }

  lemma DeliverKeepsLog(st: State, move: DeliverMove)
    requires LogFits(st) && Enabled(st, Deliver(move))
    ensures LogFits(DoDeliver(st, st.loc.choice, move))
  {
  }

  lemma FinishKeepsLog(st: State, exit: int, met: bool)
    requires LogFits(st) && st.loc.AwaitFinished?
    ensures LogFits(AfterFinish(st, st.loc.choice, exit, met))
  {
  }

  lemma ObservationKeepsLog(st: State, classification: string, entry: Entry)
    requires LogFits(st) && st.loc.AwaitObservation?
    ensures LogFits(AfterObservation(st, st.loc.choice, classification, entry))
  {
  }

  lemma JudgesKeepsLog(st: State)
    requires LogFits(st) && st.loc.Acked? && st.classifications != []
    ensures LogFits(AfterAck(st, st.loc.choice))
  {
  }

  lemma AwaitKeepsLog(setup: Setup, st: State, move: AwaitMove)
    requires LogFits(st) && Enabled(st, Await(move))
    ensures LogFits(DoAwait(setup, st, st.loc.choice, move))
  {
    match move
    case FinishSeen(exit) => FinishKeepsLog(st, exit, IsMetBy(setup, st.history));
    case ObservationSeen(classification, observation) =>
      ObservationKeepsLog(st, classification, HistoryEntry(st.loc.choice.action, observation));
    case Judges => JudgesKeepsLog(st);
  }

  lemma StopKeepsLog(st: State, move: StopMove)
    requires LogFits(st) && Enabled(st, Stop(move))
    ensures LogFits(DoStop(st, move))
  {
  }

  lemma HandleKeepsLog(st: State)
    requires LogFits(st) && st.loc.Raised?
    ensures LogFits(DoHandle(st, st.loc.raise))
  {
  }

  lemma SettleKeepsLog(st: State)
    requires LogFits(st) && st.loc.Closing?
    ensures LogFits(DoSettle(st, st.loc.pending))
  {
  }

  lemma ReportKeepsLog(st: State, ok: bool, placed: bool, report: Report)
    requires LogFits(st) && st.loc.Reporting?
    ensures LogFits(DoReport(st, st.loc.pending, ok, placed, report))
  {
  }

  predicate IsAbortMove(move: EndMove) {
    move.AbortSkipped? || move.AbortBegins? || move.AbortDelivered? || move.AbortWaited?
  }

  lemma AbortKeepsLog(setup: Setup, st: State, move: EndMove)
    requires LogFits(st) && Enabled(st, End(move)) && IsAbortMove(move)
    ensures LogFits(DoEnd(setup, st, PendingOf(st.loc), move))
  {
  }

  lemma EndKeepsLog(setup: Setup, st: State, move: EndMove)
    requires LogFits(st) && Enabled(st, End(move))
    ensures LogFits(DoEnd(setup, st, PendingOf(st.loc), move))
  {
    match move
    case Handles => HandleKeepsLog(st);
    case Settles => SettleKeepsLog(st);
    case Reports(ok, placed) => ReportKeepsLog(st, ok, placed, ReportOf(setup, st));
    case _ => AbortKeepsLog(setup, st, move);
  }

  lemma CutOffKeepsLog(st: State, raise: Raise)
    requires LogFits(st) && Enabled(st, CutOff(raise))
    ensures LogFits(Interrupted(st, raise))
  {
  }

  lemma MoveKeepsLog(setup: Setup, st: State, move: Move)
    requires LogFits(st) && Enabled(st, move)
    ensures LogFits(Do(setup, st, move))
  {
    match move
    case Start(start) => StartKeepsLog(st, start);
    case Decide(decide) => DecideKeepsLog(st, decide);
    case Deliver(deliver) => DeliverKeepsLog(st, deliver);
    case Await(await) => AwaitKeepsLog(setup, st, await);
    case Stop(stop) => StopKeepsLog(st, stop);
    case End(end) => EndKeepsLog(setup, st, end);
    case CutOff(raise) => CutOffKeepsLog(st, raise);
    case RunnerDies(exit) =>
  }

  /* The log only grows, by at most one entry a move. */

  /** The entry that a move writes. */
  function EventOf(st: State, move: Move): Option<LogEvent>
    requires Enabled(st, move)
  {
    match move
    case Decide(DecisionFails(code)) => Some(Decision(st.attempt + 1, None, Some(code)))
    case Decide(Chooses(choice)) => Some(Decision(st.attempt + 1, Some(st.ActOf(choice)), None))
    case Deliver(DispatchBegins) => Some(Dispatch(st.attempt, st.ActOf(st.loc.choice), Pending))
    case Deliver(DispatchFails(_)) => Some(Dispatch(st.attempt, st.ActOf(st.loc.choice), Unknown))
    case Deliver(DispatchSent) => Some(Dispatch(st.attempt, st.ActOf(st.loc.choice), Sent))
    case Await(FinishSeen(_)) => Some(FinishAck(st.attempt, st.ActOf(st.loc.choice)))
    case Await(ObservationSeen(classification, _)) =>
      Some(ObservationAck(st.attempt, st.ActOf(st.loc.choice), classification))
    case Stop(StopBegins) => Some(ControllerFinish(st.finishReason, Pending))
    case Stop(StopFails(_)) => Some(ControllerFinish(st.finishReason, Unknown))
    case Stop(StopSent) => Some(ControllerFinish(st.finishReason, Sent))
    case End(Settles) =>
      if st.Unresolved() && st.hasLog then Some(Dispatch(st.attempt, st.inFlight.value, Unknown)) else None
    case End(AbortBegins) =>
      if st.hasLog then Some(AbortFinish(st.attempt, StepOf(st), st.finishReason, Pending)) else None
    case End(AbortDelivered(delivered)) =>
      if st.hasLog then Some(AbortFinish(st.attempt, StepOf(st), st.finishReason, if delivered then Sent else Unknown))
      else None
    case _ => None
  }

  predicate Grown(a: State, b: State, event: Option<LogEvent>) {
    match event
    case None => b.log == a.log && b.phase == a.phase
    case Some(e) => b.log == a.log + [e] && b.phase == Advance(a.phase, e)
  }

  lemma LoopGrows(setup: Setup, st: State, move: Move)
    requires Enabled(st, move) && !move.End? && !move.Await?
    ensures Grown(st, Do(setup, st, move), EventOf(st, move))
  {
  }

  lemma AwaitGrows(setup: Setup, st: State, move: AwaitMove)
    requires Enabled(st, Await(move))
    ensures Grown(st, DoAwait(setup, st, st.loc.choice, move), EventOf(st, Await(move)))
  {
    match move
    case FinishSeen(exit) =>
      var met := IsMetBy(setup, st.history);
      assert Grown(st, AfterFinish(st, st.loc.choice, exit, met), EventOf(st, Await(move)));
    case _ =>
  }

  lemma EndGrows(setup: Setup, st: State, move: EndMove)
    requires Enabled(st, End(move))
    ensures Grown(st, DoEnd(setup, st, PendingOf(st.loc), move), EventOf(st, End(move)))
  {
  }

  lemma MoveGrows(setup: Setup, st: State, move: Move)
    requires Enabled(st, move)
    ensures Grown(st, Do(setup, st, move), EventOf(st, move))
  {
    match move
    case End(end) => EndGrows(setup, st, end);
    case Await(await) => AwaitGrows(setup, st, await);
    case _ => LoopGrows(setup, st, move);
  }

  predicate PhaseKept(st: State) {
    st.phase == PhaseOf(st.log)
  }

  lemma GrownKeepsPhase(a: State, b: State, event: Option<LogEvent>)
    requires PhaseKept(a) && Grown(a, b, event)
    ensures PhaseKept(b)
  {
    if event.Some? {
      PhaseAppend(a.log, event.value);
    }
  }

  predicate FinishAcked(log: seq<LogEvent>) {
    exists i :: 0 <= i < |log| && log[i].FinishAck?
  }

  lemma GrownAcked(a: State, b: State, event: Option<LogEvent>)
    requires Grown(a, b, event)
    ensures FinishAcked(b.log) <==> FinishAcked(a.log) || (event.Some? && event.value.FinishAck?)
  {
    if FinishAcked(a.log) {
      var i :| 0 <= i < |a.log| && a.log[i].FinishAck?;
      assert b.log[i] == a.log[i];
    }
    if event.Some? {
      assert b.log[|a.log|] == event.value;
    }
  }

  /* What the status claims. */

  predicate Claims(st: State) {
    st.status == RunStatus.Finished && st.errorCode.None?
  }

  /** Nothing decided yet. */
  predicate Undecided(st: State) {
    st.status == Failed && st.errorCode.None? && st.runnerExit.None?
  }

  /** What status, error and exit code say at each place, given whether the finish was acknowledged and the
    * run's goals are met. */
  predicate VerdictFits(st: State, met: bool, acked: bool) {
    match st.loc
    case Starting => Undecided(st) && !acked && st.written.None?
    case Top => Undecided(st) && !acked
    case Chosen(_) => Undecided(st) && !acked
    case Writing(_) => Undecided(st) && !acked
    case AwaitObservation(_) => Undecided(st) && !acked
    case Acked(_) => Undecided(st) && !acked
    case AwaitFinished(_) => Claims(st) && st.runnerExit.None? && !acked
    case SendingStop => st.status != RunStatus.Finished && st.runnerExit.None? && !acked
    case StopWriting => st.status != RunStatus.Finished && st.runnerExit.None? && !acked
    case AwaitStopped => st.status != RunStatus.Finished && st.runnerExit.None? && !acked
    case LoopDone =>
      && st.runnerExit.Some? && st.runner == Exited(st.runnerExit.value)
      && (st.status == RunStatus.Finished <==> acked && met) && (acked ==> st.errorCode.None?)
    case Raised(_) => !acked && st.runnerExit.None?
    case Closing(pending) => ClaimFits(st, pending, met, acked)
    case Settled(pending) => ClaimFits(st, pending, met, acked)
    case AbortWriting(pending) => ClaimFits(st, pending, met, acked) && !acked
    case AbortWaiting(pending) => ClaimFits(st, pending, met, acked) && !acked
    case Reporting(pending) => ClaimFits(st, pending, met, acked)
    case Done(_) => true
  }

  /** With nothing left to raise, the claim of a finish is exactly an acknowledged finish, exit code 0 and met goals. */
  predicate ClaimFits(st: State, pending: Option<Raise>, met: bool, acked: bool) {
    && (pending.None? ==> (Claims(st) <==> acked && st.runnerExit == Some(0) && met))
    && (pending.Some? ==> !acked)
    && (acked ==> st.runner.Exited?)
  }

  lemma LoopKeepsVerdict(setup: Setup, st: State, move: Move, met: bool, acked: bool)
    requires VerdictFits(st, met, acked) && Enabled(st, move) && !move.End? && !move.Await? && !move.Stop?
    ensures VerdictFits(Do(setup, st, move), met, acked)
  {
  }

  lemma StopKeepsVerdict(st: State, move: StopMove, met: bool, acked: bool)
    requires VerdictFits(st, met, acked) && Enabled(st, Stop(move))
    ensures VerdictFits(DoStop(st, move), met, acked)
  {
  }

  lemma HandleKeepsVerdict(st: State, met: bool, acked: bool)
    requires VerdictFits(st, met, acked) && st.loc.Raised?
    ensures VerdictFits(DoHandle(st, st.loc.raise), met, acked)
  {
  }

  lemma SettleKeepsVerdict(st: State, met: bool, acked: bool)
    requires VerdictFits(st, met, acked) && st.loc.Closing?
    ensures VerdictFits(DoSettle(st, st.loc.pending), met, acked)
  {
  }

  lemma AbortKeepsVerdict(setup: Setup, st: State, move: EndMove, met: bool, acked: bool)
    requires VerdictFits(st, met, acked) && Enabled(st, End(move)) && IsAbortMove(move)
    ensures VerdictFits(DoEnd(setup, st, PendingOf(st.loc), move), met, acked)
  {
  }

  lemma EndKeepsVerdict(setup: Setup, st: State, move: EndMove, met: bool, acked: bool)
    requires VerdictFits(st, met, acked) && Enabled(st, End(move))
    ensures VerdictFits(DoEnd(setup, st, PendingOf(st.loc), move), met, acked)
  {
    match move
    case Handles => HandleKeepsVerdict(st, met, acked);
    case Settles => SettleKeepsVerdict(st, met, acked);
    case Reports(_, _) =>
    case _ => AbortKeepsVerdict(setup, st, move, met, acked);
  }

  lemma AwaitKeepsVerdict(setup: Setup, st: State, move: AwaitMove, met: bool)
    requires VerdictFits(st, IsMetBy(setup, st.history), false) && Enabled(st, Await(move))
    ensures move.FinishSeen? ==> VerdictFits(DoAwait(setup, st, st.loc.choice, move), IsMetBy(setup, st.history), true)
    ensures !move.FinishSeen? ==> VerdictFits(DoAwait(setup, st, st.loc.choice, move), met, false)
  {
    match move
    case FinishSeen(exit) => FinishKeepsVerdict(st, exit, IsMetBy(setup, st.history));
    case ObservationSeen(classification, observation) =>
      ObservationKeepsVerdict(
        st, classification, HistoryEntry(st.loc.choice.action, observation), IsMetBy(setup, st.history), met);
    case Judges => JudgesKeepsVerdict(st, IsMetBy(setup, st.history), met);
  }

  lemma FinishKeepsVerdict(st: State, exit: int, met: bool)
    requires VerdictFits(st, met, false) && st.loc.AwaitFinished?
    ensures VerdictFits(AfterFinish(st, st.loc.choice, exit, met), met, true)
  {
  }

  lemma ObservationKeepsVerdict(st: State, classification: string, entry: Entry, met: bool, next: bool)
    requires VerdictFits(st, met, false) && st.loc.AwaitObservation?
    ensures VerdictFits(AfterObservation(st, st.loc.choice, classification, entry), next, false)
  {
  }

  lemma JudgesKeepsVerdict(st: State, met: bool, next: bool)
    requires VerdictFits(st, met, false) && st.loc.Acked? && st.classifications != [] && st.history != []
    ensures VerdictFits(AfterAck(st, st.loc.choice), next, false)
  {
  }

  /** The verdict over the run's own history and log. */
  ghost predicate VerdictKept(setup: Setup, st: State) {
    VerdictFits(st, IsMetBy(setup, st.history), FinishAcked(st.log))
  }

  lemma HistoryOnlyInAwait(setup: Setup, st: State, move: Move)
    requires Enabled(st, move) && !move.Await?
    ensures Do(setup, st, move).history == st.history
    ensures EventOf(st, move).Some? ==> !EventOf(st, move).value.FinishAck?
  {
  }

  lemma MoveKeepsVerdict(setup: Setup, st: State, move: Move)
    requires VerdictKept(setup, st) && Enabled(st, move)
    ensures VerdictKept(setup, Do(setup, st, move))
  {
    var next, met, acked := Do(setup, st, move), IsMetBy(setup, st.history), FinishAcked(st.log);
    MoveGrows(setup, st, move);
    GrownAcked(st, next, EventOf(st, move));
    if !move.Await? {
      HistoryOnlyInAwait(setup, st, move);
    }
    match move
    case End(end) => EndKeepsVerdict(setup, st, end, met, acked);
    case Stop(stop) => StopKeepsVerdict(st, stop, met, acked);
    case Await(await) => AwaitKeepsVerdict(setup, st, await, IsMetBy(setup, next.history));
    case _ => LoopKeepsVerdict(setup, st, move, met, acked);
  }

  /* What is returned and what is written. */

  ghost predicate DoneFits(setup: Setup, st: State) {
    match st.loc
    case Done(Ok(report)) =>
      && report == ReportOf(setup, st) && ClaimFits(st, None, IsMetBy(setup, st.history), FinishAcked(st.log))
      && st.written == if st.hasLog then Some(report) else None
    case Done(Err(raise)) =>
      st.written.Some? ==> st.written == Some(ReportOf(setup, st)) && (FinishAcked(st.log) ==> raise.Runtime?)
    case _ => st.written.None?
  }

  lemma ReportFits(setup: Setup, st: State, ok: bool, placed: bool)
    requires VerdictKept(setup, st) && DoneFits(setup, st) && st.loc.Reporting? && (ok ==> placed)
    ensures DoneFits(setup, DoReport(st, st.loc.pending, ok, placed, ReportOf(setup, st)))
  {
    var next := DoReport(st, st.loc.pending, ok, placed, ReportOf(setup, st));
    assert next.history == st.history && next.log == st.log && ReportOf(setup, next) == ReportOf(setup, st);
  }

  /** No report yet, and nothing returned. */
  predicate IsUnreported(st: State) {
    st.written.None? && (st.loc.Done? ==> st.loc.outcome.Err?)
  }

  lemma EndUnreported(setup: Setup, st: State, move: EndMove)
    requires Enabled(st, End(move)) && !move.Reports? && IsUnreported(st)
    ensures IsUnreported(DoEnd(setup, st, PendingOf(st.loc), move))
  {
  }

  lemma AwaitUnreported(setup: Setup, st: State, move: AwaitMove)
    requires Enabled(st, Await(move)) && IsUnreported(st)
    ensures IsUnreported(DoAwait(setup, st, st.loc.choice, move))
  {
    match move
    case FinishSeen(exit) =>
      var met := IsMetBy(setup, st.history);
      assert IsUnreported(AfterFinish(st, st.loc.choice, exit, met));
    case _ =>
  }

  lemma NotYetDone(setup: Setup, st: State, move: Move)
    requires Enabled(st, move) && !(move.End? && move.end.Reports?) && IsUnreported(st)
    ensures IsUnreported(Do(setup, st, move))
  {
    match move
    case End(end) => EndUnreported(setup, st, end);
    case Await(await) => AwaitUnreported(setup, st, await);
    case _ =>
  }

  lemma MoveKeepsDone(setup: Setup, st: State, move: Move)
    requires VerdictKept(setup, st) && DoneFits(setup, st) && Enabled(st, move)
    ensures DoneFits(setup, Do(setup, st, move))
  {
    if move.End? && move.end.Reports? {
      ReportFits(setup, st, move.end.ok, move.end.placed);
    } else {
      NotYetDone(setup, st, move);
    }
  }

  ghost predicate Inv(setup: Setup, st: State) {
    LogFits(st) && PhaseKept(st) && VerdictKept(setup, st) && DoneFits(setup, st)
  }

  lemma InitialInv(setup: Setup)
    ensures Inv(setup, INITIAL)
  {
  }

  lemma MoveKeepsInv(setup: Setup, st: State, move: Move)
    requires Inv(setup, st) && Enabled(st, move)
    ensures Inv(setup, Do(setup, st, move))
  {
    MoveKeepsLog(setup, st, move);
    MoveGrows(setup, st, move);
    GrownKeepsPhase(st, Do(setup, st, move), EventOf(st, move));
    MoveKeepsVerdict(setup, st, move);
    MoveKeepsDone(setup, st, move);
  }

  lemma {:induction false} RunsKeepInv(setup: Setup, run: seq<State>, i: nat)
    requires IsRun(setup, run) && i < |run|
    ensures Inv(setup, run[i])
  {
    if i == 0 {
      InitialInv(setup);
    } else {
      RunsKeepInv(setup, run, i - 1);
      assert Next(setup, run[i - 1], run[i - 1 + 1]);
      var move :| Makes(setup, run[i - 1], move, run[i]);
      MoveKeepsInv(setup, run[i - 1], move);
    }
  }

  /**
   At every moment of every run, whatever fails or is cut off, the log follows the grammar; at
   the end, however the run ended, no action is left unresolved.
   */
  lemma LogsFollowGrammar(setup: Setup, run: seq<State>, i: nat)
    requires IsRun(setup, run) && i < |run|
    ensures !PhaseOf(run[i].log).Broken?
    ensures run[i].loc.Done? ==> IsResolved(PhaseOf(run[i].log))
  {
    RunsKeepInv(setup, run, i);
    BrokenNever(run[i]);
  }

  lemma BrokenNever(st: State)
    requires LogFits(st)
    ensures !st.phase.Broken? && (st.loc.Done? ==> IsResolved(st.phase))
  {
  }

  /** Every attempt's entries, once a run has ended: settled; and no action after an unknown one. */
  lemma AttemptsAreSettled(setup: Setup, run: seq<State>, attempt: nat, i: nat, j: nat)
    requires IsRun(setup, run) && run[|run| - 1].loc.Done?
    ensures var log := run[|run| - 1].log;
      && IsSettled(Marks(log, attempt))
      && (i < j < |log| && log[i].Dispatch? && log[i].status.Unknown? ==> !IsModelAction(log[j]))
  {
    var log := run[|run| - 1].log;
    LogsFollowGrammar(setup, run, |run| - 1);
    AtMostOneUnresolved(log, attempt, attempt);
    if i < j < |log| && log[i].Dispatch? && log[i].status.Unknown? {
      NothingAfterUnknown(log, i, j);
    }
  }

  /** A returned report claims a finish without error exactly when the runner acknowledged it, exited with 0 and
    * every goal is met. */
  lemma ReturnedReportsAreTrue(setup: Setup, run: seq<State>)
    requires IsRun(setup, run) && run[|run| - 1].loc.Done? && run[|run| - 1].loc.outcome.Ok?
    ensures var report, last := run[|run| - 1].loc.outcome.value, run[|run| - 1];
      && (report.status == RunStatus.Finished && report.errorCode.None?
          <==>
          FinishAcked(last.log) && report.runnerExit == Some(0) && report.unmet == []
          && (setup.requireWriteRead ==> report.writeReadVerified))
      && report.unmet == Unmet(setup.probes, last.history) && report.writeReadVerified == IsVerified(last.history)
      && (last.hasLog ==> last.written == Some(report))
  {
    RunsKeepInv(setup, run, |run| - 1);
  }

  /** A written claim of a finish was acknowledged if the run returned, and was not if it was cut off. */
  lemma WrittenClaims(setup: Setup, run: seq<State>)
    requires IsRun(setup, run) && run[|run| - 1].written.Some? && ClaimsFinish(run[|run| - 1].written.value)
    ensures run[|run| - 1].loc.Done?
    ensures run[|run| - 1].loc.outcome.Ok? ==> FinishAcked(run[|run| - 1].log)
    ensures var outcome := run[|run| - 1].loc.outcome;
      outcome.Err? && IsUncaught(outcome.error) ==> !FinishAcked(run[|run| - 1].log)
  {
    RunsKeepInv(setup, run, |run| - 1);
  }

  /* Which runs write a report that claims too much. */

  predicate ClaimsFinish(report: Report) {
    report.status == RunStatus.Finished && report.errorCode.None?
  }

  /** No handler of the run catches it. */
  predicate IsUncaught(raise: Raise) {
    raise.Cancelled? || raise.Other?
  }

  /** An exception that no handler catches leaves the wait for the acknowledgement of a sent finish. */
  predicate IsCut(a: State, b: State) {
    a.loc.AwaitFinished? && b.loc.Raised? && IsUncaught(b.loc.raise)
  }

  predicate CutAt(run: seq<State>, i: nat) {
    i + 1 < |run| && IsCut(run[i], run[i + 1])
  }

  ghost predicate CutBefore(run: seq<State>, k: nat) {
    exists i: nat :: i < k && CutAt(run, i)
  }

  /** What having been cut there means at each place. */
  predicate CutFits(st: State, cut: bool) {
    match st.loc
    case Raised(raise) => cut <==> Claims(st) && IsUncaught(raise)
    case Closing(pending) => cut <==> Claims(st) && pending.Some?
    case Settled(pending) => cut <==> Claims(st) && pending.Some?
    case AbortWriting(pending) => cut <==> Claims(st) && pending.Some?
    case AbortWaiting(pending) => cut <==> Claims(st) && pending.Some?
    case Reporting(pending) => cut <==> Claims(st) && pending.Some?
    case Done(Ok(_)) => !cut
    case Done(Err(_)) => st.written.Some? ==> (cut <==> Claims(st) && !FinishAcked(st.log))
    case _ => !cut
  }

  lemma LoopKeepsCut(setup: Setup, st: State, move: Move, met: bool, acked: bool, cut: bool)
    requires VerdictFits(st, met, acked) && CutFits(st, cut) && Enabled(st, move) && !move.End? && !move.Await?
    requires st.written.None?
    ensures CutFits(Do(setup, st, move), cut || IsCut(st, Do(setup, st, move)))
  {
  }

  lemma AwaitKeepsCut(setup: Setup, st: State, move: AwaitMove, cut: bool)
    requires CutFits(st, cut) && Enabled(st, Await(move))
    ensures var next := DoAwait(setup, st, st.loc.choice, move); CutFits(next, cut) && !next.loc.Raised?
  {
    match move
    case FinishSeen(exit) =>
      var next := AfterFinish(st, st.loc.choice, exit, IsMetBy(setup, st.history));
      assert next.loc == LoopDone;
    case _ =>
  }

  lemma HandleKeepsCut(st: State, cut: bool)
    requires st.loc.Raised? && CutFits(st, cut)
    ensures CutFits(DoHandle(st, st.loc.raise), cut)
  {
  }

  lemma SettleKeepsCut(st: State, cut: bool)
    requires st.loc.Closing? && CutFits(st, cut)
    ensures CutFits(DoSettle(st, st.loc.pending), cut)
  {
  }

  lemma ReportKeepsCut(st: State, ok: bool, placed: bool, report: Report, met: bool, cut: bool)
    requires st.loc.Reporting? && st.written.None? && CutFits(st, cut) && (ok ==> placed)
    requires VerdictFits(st, met, FinishAcked(st.log))
    ensures CutFits(DoReport(st, st.loc.pending, ok, placed, report), cut)
  {
  }

  lemma EndKeepsCut(setup: Setup, st: State, move: EndMove, cut: bool)
    requires VerdictKept(setup, st) && CutFits(st, cut) && st.written.None? && Enabled(st, End(move))
    ensures var next := DoEnd(setup, st, PendingOf(st.loc), move); CutFits(next, cut) && !next.loc.Raised?
  {
    match move
    case Handles => HandleKeepsCut(st, cut);
    case Settles => SettleKeepsCut(st, cut);
    case Reports(ok, placed) =>
      ReportKeepsCut(st, ok, placed, ReportOf(setup, st), IsMetBy(setup, st.history), cut);
    case _ =>
  }

  lemma MoveKeepsCut(setup: Setup, st: State, move: Move, cut: bool)
    requires VerdictKept(setup, st) && DoneFits(setup, st) && CutFits(st, cut) && Enabled(st, move)
    ensures CutFits(Do(setup, st, move), cut || IsCut(st, Do(setup, st, move)))
  {
    assert !st.loc.Done?;
    match move
    case End(end) => EndKeepsCut(setup, st, end, cut);
    case Await(await) => AwaitKeepsCut(setup, st, await, cut);
    case _ => LoopKeepsCut(setup, st, move, IsMetBy(setup, st.history), FinishAcked(st.log), cut);
  }

  lemma StepKeepsCut(setup: Setup, a: State, b: State, cut: bool)
    requires Inv(setup, a) && CutFits(a, cut) && Next(setup, a, b)
    ensures CutFits(b, cut || IsCut(a, b))
  {
    var move :| Makes(setup, a, move, b);
    MoveKeepsCut(setup, a, move, cut);
  }

  lemma CutGrows(run: seq<State>, k: nat)
    requires 0 < k < |run|
    ensures CutBefore(run, k) <==> CutBefore(run, k - 1) || IsCut(run[k - 1], run[k])
  {
    assert CutAt(run, k - 1) <==> IsCut(run[k - 1], run[k]);
  }

  lemma {:induction false} RunsFitCut(setup: Setup, run: seq<State>, k: nat)
    requires IsRun(setup, run) && k < |run|
    ensures CutFits(run[k], CutBefore(run, k))
  {
    if k > 0 {
      RunsFitCut(setup, run, k - 1);
      RunsKeepInv(setup, run, k - 1);
      CutGrows(run, k);
      assert Next(setup, run[k - 1], run[k - 1 + 1]);
      StepKeepsCut(setup, run[k - 1], run[k], CutBefore(run, k - 1));
    }
  }

  /**
   The report written to the evidence directory claims a finish without an error that was never
   acknowledged if and only if an exception that no handler catches, such as a cancellation, left
   the wait for that acknowledgement.
   */
  lemma WrittenReportsExactly(setup: Setup, run: seq<State>)
    requires IsRun(setup, run) && run[|run| - 1].written.Some?
    ensures ClaimsFinish(run[|run| - 1].written.value) && !FinishAcked(run[|run| - 1].log)
      <==> exists i: nat :: CutAt(run, i)
  {
    var last := run[|run| - 1];
    RunsKeepInv(setup, run, |run| - 1);
    RunsFitCut(setup, run, |run| - 1);
    assert (exists i: nat :: CutAt(run, i)) <==> CutBefore(run, |run| - 1);
    assert last.loc.Done? && last.written == Some(ReportOf(setup, last));
  }

  lemma RunExtends(setup: Setup, run: seq<State>, move: Move) returns (longer: seq<State>)
    requires IsRun(setup, run) && Enabled(run[|run| - 1], move)
    ensures IsRun(setup, longer) && longer == run + [Do(setup, run[|run| - 1], move)]
  {
    longer := run + [Do(setup, run[|run| - 1], move)];
    assert Makes(setup, run[|run| - 1], move, longer[|run|]);
    forall i | 0 <= i < |longer| - 1 ensures Next(setup, longer[i], longer[i + 1]) {
      if i < |run| - 1 {
        assert Next(setup, run[i], run[i + 1]);
      }
    }
  }

  /** What a report would say of the run so far, except for the exit code. */
  predicate SameStory(a: State, b: State) {
    && a.status == b.status && a.errorCode == b.errorCode && a.history == b.history
    && a.classifications == b.classifications
    && a.hasLog == b.hasLog && a.runner == b.runner
  }

  lemma Cancels(setup: Setup, run: seq<State>) returns (longer: seq<State>)
    requires IsRun(setup, run) && run[|run| - 1].loc.AwaitFinished?
    ensures IsRun(setup, longer) && run <= longer && longer[|longer| - 1].loc == Settled(Some(Cancelled))
        && SameStory(longer[|longer| - 1], run[|run| - 1])
    ensures longer[|longer| - 1].runnerExit == run[|run| - 1].runnerExit
  {
    longer := RunExtends(setup, run, CutOff(Cancelled));
    assert longer[|longer| - 1].loc == Raised(Cancelled) && SameStory(longer[|longer| - 1], run[|run| - 1]);
    longer := RunExtends(setup, longer, End(Handles));
    assert longer[|longer| - 1].loc == Closing(Some(Cancelled)) && SameStory(longer[|longer| - 1], run[|run| - 1]);
    longer := RunExtends(setup, longer, End(Settles));
  }

  lemma Aborts(setup: Setup, run: seq<State>) returns (longer: seq<State>)
    requires IsRun(setup, run) && run[|run| - 1].loc == Settled(Some(Cancelled)) && run[|run| - 1].runner.Running?
    ensures IsRun(setup, longer) && run <= longer && longer[|longer| - 1].loc == AbortWaiting(Some(Cancelled))
        && SameStory(longer[|longer| - 1], run[|run| - 1])
  {
    longer := RunExtends(setup, run, End(AbortBegins));
    assert longer[|longer| - 1].loc == AbortWriting(Some(Cancelled)) && SameStory(longer[|longer| - 1], run[|run| - 1]);
    longer := RunExtends(setup, longer, End(AbortDelivered(false)));
  }

  lemma GivesUp(setup: Setup, run: seq<State>) returns (longer: seq<State>)
    requires IsRun(setup, run) && run[|run| - 1].loc == AbortWaiting(Some(Cancelled)) && run[|run| - 1].runner.Running?
    ensures IsRun(setup, longer) && run <= longer && longer[|longer| - 1].loc == Reporting(Some(Cancelled))
    ensures SameStory(longer[|longer| - 1], run[|run| - 1]) && longer[|longer| - 1].runnerExit.None?
  {
    longer := RunExtends(setup, run, End(AbortWaited(None)));
  }

  /** From the closing block to the report, whether or not the runner still has to be aborted. */
  lemma ComesToReport(setup: Setup, run: seq<State>) returns (longer: seq<State>)
    requires IsRun(setup, run) && run[|run| - 1].loc == Settled(Some(Cancelled)) && run[|run| - 1].runnerExit.None?
    ensures IsRun(setup, longer) && run <= longer && longer[|longer| - 1].loc == Reporting(Some(Cancelled))
    ensures SameStory(longer[|longer| - 1], run[|run| - 1]) && longer[|longer| - 1].runnerExit.None?
  {
    if run[|run| - 1].runner.Running? {
      longer := Aborts(setup, run);
      longer := GivesUp(setup, longer);
    } else {
      longer := RunExtends(setup, run, End(AbortSkipped));
    }
  }

  lemma WritesReport(setup: Setup, run: seq<State>) returns (longer: seq<State>)
    requires IsRun(setup, run) && run[|run| - 1].loc == Reporting(Some(Cancelled)) && run[|run| - 1].hasLog
    ensures IsRun(setup, longer) && run <= longer && longer[|longer| - 1].loc == Done(Err(Cancelled))
    ensures longer[|longer| - 1].written == Some(ReportOf(setup, run[|run| - 1]))
  {
    longer := RunExtends(setup, run, End(Reports(true, true)));
  }

  /**
   Any run that awaits the finish it sent may be cancelled there; its written report then says
   finished without an error, whatever probes are unmet and though the runner's exit was not seen.
   */
  lemma CutOffReport(setup: Setup, run: seq<State>) returns (longer: seq<State>)
    requires IsRun(setup, run) && run[|run| - 1].loc.AwaitFinished?
    ensures IsRun(setup, longer) && run <= longer && !FinishAcked(longer[|longer| - 1].log)
    ensures var report := longer[|longer| - 1].written;
      && report.Some? && report.value.status == RunStatus.Finished && report.value.errorCode.None?
      && report.value.runnerExit.None? && report.value.unmet == Unmet(setup.probes, run[|run| - 1].history)
  {
    RunsKeepInv(setup, run, |run| - 1);
    longer := Cancels(setup, run);
    longer := ComesToReport(setup, longer);
    longer := WritesReport(setup, longer);
    WrittenClaims(setup, longer);
  }

  /** A run may send a finish as its first action, whatever the goals. */
  lemma FinishFirst(setup: Setup) returns (run: seq<State>)
    ensures IsRun(setup, run) && run[|run| - 1].loc.AwaitFinished? && run[|run| - 1].runner.Running?
        && run[|run| - 1].history == []
  {
    run := RunExtends(setup, [INITIAL], Start(Starts([])));
    assert run[|run| - 1].loc == Top;
    run := RunExtends(setup, run, Decide(Chooses(Choice(map[], true, "finish"))));
    assert run[|run| - 1].loc.Chosen? && run[|run| - 1].loc.choice.isFinish;
    run := RunExtends(setup, run, Deliver(DispatchBegins));
    assert run[|run| - 1].loc.Writing? && run[|run| - 1].loc.choice.isFinish;
    run := RunExtends(setup, run, Deliver(DispatchSent));
  }

  /* What a run knows of the place it has reached. */

  lemma LastFits(setup: Setup, run: seq<State>)
    requires IsRun(setup, run)
    ensures LogFits(run[|run| - 1])
  {
    RunsKeepInv(setup, run, |run| - 1);
  }

  lemma StartIsEmpty(setup: Setup, run: seq<State>)
    requires IsRun(setup, run) && run[|run| - 1].loc.Starting?
    ensures run[|run| - 1].classifications == []
  {
    LastFits(setup, run);
  }

  lemma AwaitedChoice(setup: Setup, run: seq<State>)
    requires IsRun(setup, run)
    ensures run[|run| - 1].loc.AwaitFinished? ==> run[|run| - 1].loc.choice.isFinish
    ensures run[|run| - 1].loc.AwaitObservation? ==> !run[|run| - 1].loc.choice.isFinish
  {
    LastFits(setup, run);
  }

  lemma AckedSomething(setup: Setup, run: seq<State>)
    requires IsRun(setup, run) && run[|run| - 1].loc.Acked?
    ensures run[|run| - 1].classifications != [] && run[|run| - 1].history != []
  {
    LastFits(setup, run);
  }
}
