/** `run_controller` as it runs: every statement that matters is one move of the controller's state machine. */
module ControllerRun {
  import opened Common
  import opened DecisionLog
  import opened WriteReadVerdict
  import opened RequiredProbes
  import opened Controller

  class Session {
    const setup: Setup
    /** The run's variables. */
    var st: State
    /** Every state so far, newest last. */
    ghost var run: seq<State>

    ghost predicate Valid()
      reads this
    {
      IsRun(setup, run) && run[|run| - 1] == st
    }

    constructor (setup: Setup)
      ensures Valid() && st == INITIAL && this.setup == setup
    {
      this.setup := setup;
      st, run := INITIAL, [INITIAL];
    }

    /** The variables have just made this move. */
    ghost method Record(move: Move)
      requires IsRun(setup, run) && Enabled(run[|run| - 1], move) && st == Do(setup, run[|run| - 1], move)
      modifies this`run
      ensures Valid() && run == old(run) + [st]
    {
      run := RunExtends(setup, run, move);
    }

    /** `_EvidenceLog.append`. */
    method Append(event: LogEvent)
      modifies this`st
      ensures st == old(st).Logged(event)
    {
      st := st.(log := st.log + [event], phase := Advance(st.phase, event));
    }

    method Raises(raise: Raise) returns (raised: Option<Raise>)
      requires Valid() && MayLeave(st, raise) && !IsClosing(st.loc)
      modifies this
      ensures old(run) <= run
      ensures Valid() && st.loc == Raised(raise) && raised == Some(raise)
    {
      st := st.(loc := Raised(raise));
      Record(CutOff(raise));
      raised := Some(raise);
    }

    method RunnerMayDie()
      requires Valid() && !st.loc.Done?
      modifies this
      ensures old(run) <= run
      ensures Valid() && st.loc == old(st).loc && st.classifications == old(st).classifications
    {
      if * {
        if st.runner.Running? {
          var exit: int := *;
          st := st.(runner := Exited(exit));
          Record(RunnerDies(exit));
        }
      }
    }

    /** Up to the first turn of the loop: starting the runner, reading its start event, opening the log. */
    method Begin() returns (raised: Option<Raise>)
      requires Valid() && st.loc.Starting?
      modifies this
      ensures old(run) <= run
      ensures Valid()
          && if raised.Some? then st.loc == Raised(raised.value) else st.loc.Top? && st.classifications == []
    {
      StartIsEmpty(setup, run);
      if * {
        var raise: Raise := *;
        var started: bool := *;
        var logOpen: bool := *;
        logOpen := logOpen && started;
        st := st.(loc := Raised(raise), hasLog := logOpen, runner := if started then Running else NotStarted);
        Record(Start(StartFails(raise, logOpen, started)));
        return Some(raise);
      }
      var runPaths: seq<string> := *;
      st := st.(loc := Top, hasLog := true, runPaths := runPaths, runner := Running);
      Record(Start(Starts(runPaths)));
      raised := None;
    }

    /** One turn up to the logged decision. */
    method Prepare() returns (choice: Option<Choice>, raised: Option<Raise>)
      requires Valid() && st.loc.Top?
      modifies this
      ensures old(run) <= run
      ensures Valid() && st.classifications == old(st).classifications
      ensures if choice.Some? then raised.None? && st.loc == Chosen(choice.value)
              else raised.Some? && st.loc == Raised(raised.value)
    {
      st := st.(attempt := st.attempt + 1);
      choice, raised := None, None;
      if * {
        var raise: Raise := *; // no time left, or cut off during the model's call
        st := st.(loc := Raised(raise));
        Record(Decide(PrepareFails(raise)));
        raised := Some(raise);
      } else if * {
        var code: string := *; // too much context, a provider failure, or a rejected response
        st := st.(loc := Raised(ControllerError(code)));
        Append(Decision(st.attempt, None, Some(code)));
        Record(Decide(DecisionFails(code)));
        raised := Some(ControllerError(code));
      } else {
        var chosen: Choice := *;
        var stepIndex := if chosen.isFinish then None else Some(|st.classifications| + 1);
        st := st.(loc := Chosen(chosen));
        Append(Decision(st.attempt, Some(Act(stepIndex, chosen.hash)), None));
        Record(Decide(Chooses(chosen)));
        choice := Some(chosen);
      }
    }

    /** The pending entry, from which on the action is in flight; unless no time is left. */
    method BeginDispatch(choice: Choice, act: Act) returns (raised: Option<Raise>)
      requires Valid() && st.loc == Chosen(choice) && act == st.ActOf(choice)
      modifies this
      ensures old(run) <= run
      ensures Valid() && st.classifications == old(st).classifications
      ensures st.loc == if raised.Some? then Raised(raised.value) else Writing(choice)
    {
      if * {
        var code: string := *;
        st := st.(loc := Raised(ControllerError(code)));
        Record(Controller.Deliver(DispatchRefused(code)));
        return Some(ControllerError(code));
      }
      st := st.(inFlight := Some(act), resolved := false, loc := Writing(choice));
      Append(Dispatch(st.attempt, act, Pending));
      Record(Controller.Deliver(DispatchBegins));
      raised := None;
    }

    /** Writing the action to the runner: the entry says unknown if that failed, and sent otherwise. */
    method WriteAction(choice: Choice, act: Act) returns (raised: Option<Raise>)
      requires Valid() && st.loc == Writing(choice) && act == st.ActOf(choice)
      modifies this
      ensures old(run) <= run
      ensures Valid() && st.classifications == old(st).classifications
      ensures if raised.Some? then st.loc == Raised(raised.value)
              else st.loc == if choice.isFinish then AwaitFinished(choice) else AwaitObservation(choice)
    {
      if * {
        var code: string := *; // timed out, or the pipe failed
        st := st.(resolved := true, loc := Raised(ControllerError(code)));
        Append(Dispatch(st.attempt, act, Unknown));
        Record(Controller.Deliver(DispatchFails(code)));
        return Some(ControllerError(code));
      }
      Append(Dispatch(st.attempt, act, Sent));
      if choice.isFinish {
        st := st.(finishReason := "model_finish", status := RunStatus.Finished, loc := AwaitFinished(choice));
      } else {
        st := st.(loc := AwaitObservation(choice));
      }
      Record(Controller.Deliver(DispatchSent));
      raised := None;
    }

    method Deliver(choice: Choice) returns (raised: Option<Raise>)
      requires Valid() && st.loc == Chosen(choice)
      modifies this
      ensures old(run) <= run
      ensures Valid() && (raised.None? ==> st.classifications == old(st).classifications)
      ensures if raised.Some? then st.loc == Raised(raised.value)
              else st.loc == if choice.isFinish then AwaitFinished(choice) else AwaitObservation(choice)
    {
      var act := Act(if choice.isFinish then None else Some(|st.classifications| + 1), choice.hash);
      raised := BeginDispatch(choice, act);
      if raised.Some? {
        return;
      }
      RunnerMayDie();
      if * {
        raised := Raises(Cancelled);
      } else {
        raised := WriteAction(choice, act);
      }
    }

    /** `_wait_process` once the runner has finished: its exit code. */
    method WaitProcess() returns (exit: int)
      ensures ExitsWith(st.runner, exit)
    {
      exit := *;
      if st.runner.Exited? {
        exit := st.runner.code;
      }
    }

    /** The controller's own check of the goals. */
    method GoalsMet() returns (met: bool)
      ensures met <==> IsMetBy(setup, st.history)
    {
      var verified := HasVerifiedWriteRead(st.history);
      var unmet := UnmetRequiredProbes(setup.probes, st.history);
      met := (setup.requireWriteRead ==> verified) && unmet == [];
    }

    /** After a sent finish: `_read_finished`, `_wait_process`, the acknowledgement and the goals. */
    method AwaitFinish(choice: Choice) returns (raised: Option<Raise>)
      requires Valid() && st.loc == AwaitFinished(choice)
      modifies this
      ensures old(run) <= run
      ensures Valid() && st.loc == if raised.Some? then Raised(raised.value) else LoopDone
    {
      RunnerMayDie();
      if * {
        var raise: Raise := *;
        raised := Raises(raise);
        return;
      }
      AwaitedChoice(setup, run);
      var exit := WaitProcess();
      var met := GoalsMet();
      st := st.(runnerExit := Some(exit), runner := Exited(exit), resolved := true, inFlight := None, loc := LoopDone);
      Append(FinishAck(st.attempt, Act(None, choice.hash)));
      if !met {
        st := st.(status := Inconclusive, finishReason := "unverified_completion");
      }
      Record(Await(FinishSeen(exit)));
      raised := None;
    }

    /** After a sent step: its observation, and the acknowledgement. */
    method AwaitStep(choice: Choice) returns (raised: Option<Raise>)
      requires Valid() && st.loc == AwaitObservation(choice)
      modifies this
      ensures old(run) <= run
      ensures Valid() && st.loc == if raised.Some? then Raised(raised.value) else Acked(choice)
      ensures raised.None? ==> |st.classifications| == |old(st).classifications| + 1
    {
      RunnerMayDie();
      if * {
        var raise: Raise := *;
        raised := Raises(raise);
        return;
      }
      AwaitedChoice(setup, run);
      var classification: string := *;
      var observation: Json := *;
      Append(ObservationAck(st.attempt, Act(Some(|st.classifications| + 1), choice.hash), classification));
      st := st.(classifications := st.classifications + [classification],
                history := st.history + [HistoryEntry(choice.action, observation)],
                resolved := true, inFlight := None, loc := Acked(choice));
      Record(Await(ObservationSeen(classification, observation)));
      raised := None;
      if * {
        var name: string := *; // the progress line
        raised := Raises(Runtime(name));
      }
    }

    /** Whether the run stops after this acknowledgement, and whether the runner still has to be told. */
    method Judge(choice: Choice) returns (stops: bool, tells: bool)
      requires Valid() && st.loc == Acked(choice)
      modifies this
      ensures old(run) <= run && |run| == |old(run)| + 1
      ensures Valid() && st.classifications == old(st).classifications
      ensures if !stops then st.loc.Top? && |st.classifications| < MAX_STEPS
              else st.loc == if tells then SendingStop else AwaitStopped
    {
      AckedSomething(setup, run);
      var classification := st.classifications[|st.classifications| - 1];
      stops, tells := true, true;
      if StopsRun(classification) {
        tells := classification != "driver_failure";
        st := st.(finishReason := "stopped_after_" + classification, status := Failed,
                  errorCode := Some(classification), loc := if tells then SendingStop else AwaitStopped);
      } else if |st.classifications| >= MAX_STEPS {
        st := st.(finishReason := "step_budget", status := Limited, loc := SendingStop);
      } else {
        st := st.(history := WithRedacted(st.history, choice, st.runPaths), loc := Top);
        stops := false;
      }
      Record(Await(Judges));
    }

    /** `_send_finish`, up to its pending entry; nothing is sent to a runner that has exited. */
    method BeginStop() returns (skipped: bool, raised: Option<Raise>)
      requires Valid() && st.loc.SendingStop?
      modifies this
      ensures old(run) <= run
      ensures Valid()
          && st.loc == if skipped then AwaitStopped else if raised.Some? then Raised(raised.value) else StopWriting
    {
      skipped, raised := st.runner.Exited?, None;
      if skipped {
        st := st.(loc := AwaitStopped);
        Record(Stop(StopSkipped));
      } else if * {
        var code: string := *; // no time left
        raised := Raises(ControllerError(code));
      } else {
        Append(ControllerFinish(st.finishReason, Pending));
        st := st.(loc := StopWriting);
        Record(Stop(StopBegins));
      }
    }

    /** The rest of `_send_finish`. */
    method WriteStop() returns (raised: Option<Raise>)
      requires Valid() && st.loc.StopWriting?
      modifies this
      ensures old(run) <= run
      ensures Valid() && st.loc == if raised.Some? then Raised(raised.value) else AwaitStopped
    {
      RunnerMayDie();
      if * {
        raised := Raises(Cancelled);
      } else if * {
        Append(ControllerFinish(st.finishReason, Unknown));
        var code: string := *;
        st := st.(loc := Raised(ControllerError(code)));
        Record(Stop(StopFails(code)));
        raised := Some(ControllerError(code));
      } else {
        Append(ControllerFinish(st.finishReason, Sent));
        st := st.(loc := AwaitStopped);
        Record(Stop(StopSent));
        raised := None;
      }
    }

    method SendFinish() returns (raised: Option<Raise>)
      requires Valid() && st.loc.SendingStop?
      modifies this
      ensures old(run) <= run
      ensures Valid() && st.loc == if raised.Some? then Raised(raised.value) else AwaitStopped
    {
      RunnerMayDie();
      var skipped: bool;
      skipped, raised := BeginStop();
      if skipped {
        raised := None;
      } else if raised.None? {
        raised := WriteStop();
      }
    }

    /** Reading the finished event and the exit code of a stopped runner. */
    method AwaitStop() returns (raised: Option<Raise>)
      requires Valid() && st.loc.AwaitStopped?
      modifies this
      ensures old(run) <= run
      ensures Valid() && st.loc == if raised.Some? then Raised(raised.value) else LoopDone
    {
      RunnerMayDie();
      if * {
        var raise: Raise := *;
        raised := Raises(raise);
        return;
      }
      var exit := WaitProcess();
      st := st.(runnerExit := Some(exit), runner := Exited(exit), loc := LoopDone);
      Record(Stop(StopSeen(exit)));
      raised := None;
    }

    /** A stopping run: its own finish where the runner has to be told, then the runner's exit. */
    method StopRun(tells: bool) returns (raised: Option<Raise>)
      requires Valid() && st.loc == if tells then SendingStop else AwaitStopped
      modifies this
      ensures old(run) <= run
      ensures Valid() && st.loc == if raised.Some? then Raised(raised.value) else LoopDone
    {
      if tells {
        raised := SendFinish();
        if raised.Some? {
          return;
        }
      }
      raised := AwaitStop();
    }

    /** A delivered action: the finish is awaited, or the step and what follows from it. */
    method Conduct(choice: Choice) returns (goesOn: bool, raised: Option<Raise>)
      requires Valid() && st.loc == if choice.isFinish then AwaitFinished(choice) else AwaitObservation(choice)
      modifies this
      ensures old(run) <= run
      ensures Valid() && (goesOn ==> st.loc.Top? && |st.classifications| == |old(st).classifications| + 1 < MAX_STEPS)
      ensures !goesOn ==> st.loc == if raised.Some? then Raised(raised.value) else LoopDone
    {
      goesOn := false;
      if choice.isFinish {
        raised := AwaitFinish(choice);
        return;
      }
      raised := AwaitStep(choice);
      if raised.Some? {
        return;
      }
      var stops, tells := Judge(choice);
      if stops {
        raised := StopRun(tells);
      } else {
        goesOn := true;
      }
    }

    /** The loop over the model's decisions. */
    method Drive() returns (raised: Option<Raise>)
      requires Valid() && st.loc.Top? && st.classifications == []
      modifies this
      ensures old(run) <= run
      ensures Valid() && st.loc == if raised.Some? then Raised(raised.value) else LoopDone
    {
      var goesOn := true;
      raised := None;
      while goesOn
        invariant old(run) <= run && Valid()
        invariant if goesOn then st.loc.Top? && |st.classifications| < MAX_STEPS
                  else st.loc == if raised.Some? then Raised(raised.value) else LoopDone
        decreases if goesOn then 1 + MAX_STEPS - |st.classifications| else 0
      {
        var choice: Option<Choice>;
        choice, raised := Prepare();
        if raised.Some? {
          return;
        }
        raised := Deliver(choice.value);
        if raised.Some? {
          return;
        }
        goesOn, raised := Conduct(choice.value);
      }
    }

    /** The exit code has the last word on the status. */
    method Conclude()
      requires Valid() && st.loc.LoopDone?
      modifies this
      ensures old(run) <= run
      ensures Valid() && st.loc == Closing(None)
    {
      if st.runnerExit != Some(0) {
        st := st.(status := Failed, errorCode := OrElse(st.errorCode, "runner_failure"));
      }
      st := st.(loc := Closing(None));
      Record(Stop(Concludes));
    }

    /** The two exception handlers. */
    method Handle(raise: Raise) returns (pending: Option<Raise>)
      requires Valid() && st.loc == Raised(raise)
      modifies this
      ensures old(run) <= run
      ensures Valid() && st.loc == Closing(pending)
    {
      pending := None;
      match raise {
        case ControllerError(code) => st := st.(finishReason := code, errorCode := Some(code));
        case Runtime(name) => st := st.(finishReason := "controller_runtime_error", errorCode := Some(name));
        case _ => pending := Some(raise);
      }
      st := st.(loc := Closing(pending));
      Record(End(Handles));
    }

    /** The final block: an unresolved action becomes unknown. */
    method Settle(pending: Option<Raise>)
      requires Valid() && st.loc == Closing(pending)
      modifies this
      ensures old(run) <= run && |run| == |old(run)| + 1
      ensures Valid() && st.loc == Settled(pending)
    {
      if st.hasLog && st.inFlight.Some? && !st.resolved {
        Append(Dispatch(st.attempt, st.inFlight.value, Unknown));
      }
      st := st.(loc := Settled(pending));
      Record(End(Settles));
    }

    /** `_abort_runner`: the pending entry, when the runner is still alive. */
    method BeginAbort(pending: Option<Raise>) returns (alive: bool)
      requires Valid() && st.loc == Settled(pending)
      modifies this
      ensures old(run) <= run
      ensures Valid() && st.loc == if alive then AbortWriting(pending) else Reporting(pending)
    {
      alive := st.runner.Running?;
      if !alive {
        st := st.(loc := Reporting(pending));
        Record(End(AbortSkipped));
        return;
      }
      if st.hasLog {
        Append(AbortFinish(st.attempt, StepOf(st), st.finishReason, Pending));
      }
      st := st.(loc := AbortWriting(pending));
      Record(End(AbortBegins));
    }

    /** Telling the runner to finish. */
    method TellAborted(pending: Option<Raise>) returns (cut: Option<Raise>)
      requires Valid() && st.loc == AbortWriting(pending)
      modifies this
      ensures old(run) <= run
      ensures Valid() && st.loc == if cut.Some? then Done(Err(cut.value)) else AbortWaiting(pending)
    {
      if * {
        st := st.(loc := Done(Err(Cancelled)));
        Record(CutOff(Cancelled));
        return Some(Cancelled);
      }
      var delivered: bool := *;
      if st.hasLog {
        Append(AbortFinish(st.attempt, StepOf(st), st.finishReason, if delivered then Sent else Unknown));
      }
      st := st.(loc := AbortWaiting(pending));
      Record(End(AbortDelivered(delivered)));
      cut := None;
    }

    /** Waiting for the runner through its termination and kill. */
    method AwaitAborted(pending: Option<Raise>) returns (cut: Option<Raise>)
      requires Valid() && st.loc == AbortWaiting(pending)
      modifies this
      ensures old(run) <= run
      ensures Valid() && st.loc == if cut.Some? then Done(Err(cut.value)) else Reporting(pending)
    {
      RunnerMayDie();
      if * {
        var raise: Raise := *;
        st := st.(loc := Done(Err(raise)));
        Record(CutOff(raise));
        return Some(raise);
      }
      var exited: Option<int> := *;
      if st.runner.Exited? {
        exited := Some(st.runner.code);
      }
      st := st.(runner := if exited.Some? then Exited(exited.value) else st.runner, runnerExit := exited,
          loc := Reporting(pending));
      Record(End(AbortWaited(exited)));
      cut := None;
    }

    method Abort(pending: Option<Raise>) returns (cut: Option<Raise>)
      requires Valid() && st.loc == Settled(pending)
      modifies this
      ensures old(run) <= run
      ensures Valid() && st.loc == if cut.Some? then Done(Err(cut.value)) else Reporting(pending)
    {
      cut := None;
      var alive := BeginAbort(pending);
      if alive {
        cut := TellAborted(pending);
        if cut.None? {
          cut := AwaitAborted(pending);
        }
      }
    }

    /** The wait for the reader of the runner's standard error, which may have failed. */
    method Drain(pending: Option<Raise>) returns (cut: Option<Raise>)
      requires Valid() && st.loc == Reporting(pending)
      modifies this
      ensures old(run) <= run
      ensures Valid() && st.loc == if cut.Some? then Done(Err(cut.value)) else Reporting(pending)
    {
      cut := None;
      if * {
        if !st.runner.NotStarted? {
          var name: string := *;
          cut := Some(Runtime(name));
          st := st.(loc := Done(Err(Runtime(name))));
          Record(CutOff(Runtime(name)));
        }
      }
    }

    /** `_make_report`. */
    method MakeReport() returns (report: Report)
      ensures report == ReportOf(setup, st)
    {
      var verified := HasVerifiedWriteRead(st.history);
      var unmet := UnmetRequiredProbes(setup.probes, st.history);
      report := Report(st.status, st.finishReason, st.classifications, st.errorCode, st.runnerExit, verified, unmet);
    }

    /** Writing the report, and returning it or raising what is pending. */
    method Finish(pending: Option<Raise>) returns (outcome: Result<Report, Raise>)
      requires Valid() && st.loc == Reporting(pending)
      modifies this
      ensures old(run) <= run
      ensures Valid() && st.loc == Done(outcome)
    {
      var report := MakeReport();
      var ok: bool := *;
      var placed: bool := *;
      placed := placed || ok;
      st := st.(written := if st.hasLog && placed then Some(report) else None);
      if st.hasLog && !ok {
        outcome := Err(Runtime("OSError"));
      } else {
        outcome := if pending.Some? then Err(pending.value) else Ok(report);
      }
      st := st.(loc := Done(outcome));
      Record(End(Reports(ok, placed)));
    }

    /** The handlers and the final block, after the loop or an exception. */
    method Close(raised: Option<Raise>) returns (outcome: Result<Report, Raise>)
      requires Valid() && st.loc == if raised.Some? then Raised(raised.value) else LoopDone
      modifies this
      ensures old(run) <= run
      ensures Valid() && st.loc == Done(outcome)
    {
      var pending: Option<Raise> := None;
      if raised.None? {
        Conclude();
      } else {
        pending := Handle(raised.value);
      }
      Settle(pending);
      var cut := Abort(pending);
      if cut.None? {
        cut := Drain(pending);
      }
      if cut.Some? {
        return Err(cut.value);
      }
      outcome := Finish(pending);
    }

    /** `run_controller`: it ends on every path, and what it did is a run of the state machine. */
    method RunController() returns (outcome: Result<Report, Raise>)
      requires Valid() && st == INITIAL
      modifies this
      ensures old(run) <= run
      ensures Valid() && st.loc == Done(outcome)
      ensures IsResolved(PhaseOf(st.log))
      ensures outcome.Ok? && outcome.value.status == RunStatus.Finished && outcome.value.errorCode.None? ==>
        FinishAcked(st.log) && outcome.value.runnerExit == Some(0) && IsMetBy(setup, st.history)
    {
      var raised := Begin();
      if raised.None? {
        raised := Drive();
      }
      outcome := Close(raised);
      LogsFollowGrammar(setup, run, |run| - 1);
      if outcome.Ok? {
        ReturnedReportsAreTrue(setup, run);
      }
    }
  }
}
