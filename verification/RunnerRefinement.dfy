/** The live runner does, line by line, what the composed protocol says a runner does. */
module RunnerRefinement {
  import opened Common
  import opened RunnerLive
  import opened ComposedProtocol
  import ActionParsing
  import RunnerReplay

  /** A parsed line as the protocol sees it. */
  function MessageOf(action: ActionParsing.Action): Message {
    if action.Finish? then FinishLine else StepLine
  }

  /** The runner of the composed state after a line: reading on, or closed with its exit code. */
  function LiveAfter(stepIndex: nat, ending: Option<Ending>): Live {
    match ending
    case Some(Exit(code, _)) => Closed(stepIndex, code)
    case _ => Reading(stepIndex)
  }

  /**
   The line was handled without an exception of the system's or the runner's own: the run goes on, or it
   finished, or a step failed in its driver, or the step limit was reached.
   */
  predicate IsOrderly(before: nat, after: nat, ending: Option<Ending>) {
    || ending.None? || ending == Some(Exit(0, "finish_action"))
    || (ending == Some(DRIVER_FAILED) && after == before + 1)
    || (ending == Some(Exit(2, "input_error")) && before >= RunnerReplay.MAX_STEPS)
  }

  /** What the step index and the last classification then are. */
  predicate Handled(message: Message, before: nat, after: nat, observations: seq<string>, ending: Option<Ending>) {
    && after <= |observations|
    && if ending == Some(Exit(0, "finish_action")) then message.FinishLine? && after == before
       else if ending == Some(Exit(2, "input_error")) then
         message.StepLine? && after == before >= RunnerReplay.MAX_STEPS
       else
         && (ending.None? || ending == Some(DRIVER_FAILED)) && message.StepLine?
         && after == before + 1 <= RunnerReplay.MAX_STEPS
         && (observations[after - 1] == "driver_failure" <==> ending.Some?)
  }

  /** What the runner has then said: its new observation, and its end if it ended. */
  function Said(a: Composed, stepIndex: nat, observations: seq<string>, ending: Option<Ending>): seq<Event>
    requires stepIndex <= |observations|
  {
    (if stepIndex > a.live.stepIndex then [StepObserved(stepIndex, observations[stepIndex - 1])] else [])
    + (if ending == Some(Exit(2, "input_error")) then [RunError] else [])
    + if ending.Some? then [RunFinished] else []
  }

  /**
   Handling one line is one step of the composed protocol's runner: it takes the message, moves the
   step index, and says exactly the events that the controller's side of the protocol relies on.
   */
  method Serve(run: RunState, raw: RunnerReplay.Line, ghost a: Composed)
      returns (ending: Option<Ending>, ghost b: Composed)
    requires run.Intact() && RunnerReplay.IsLiveLine(raw) && run.parse(raw).Ok?
    requires a.live == Reading(run.stepIndex) && a.toRunner != []
    requires a.toRunner[0] == MessageOf(run.parse(raw).value)
    modifies run
    ensures run.Valid() && a.live.stepIndex == old(run.stepIndex)
    ensures b.live == LiveAfter(run.stepIndex, ending) && b.toRunner == a.toRunner[1..] && b.controller == a.controller
    ensures b.toController == a.toController + Said(a, run.stepIndex, run.observations, ending)
    ensures IsOrderly(old(run.stepIndex), run.stepIndex, ending) ==> RunnerSteps(a, b)
  {
    ghost var before := run.stepIndex;
    ending := run.HandleLine(raw);
    b := Composed(a.controller, LiveAfter(run.stepIndex, ending), a.toRunner[1..],
                  a.toController + Said(a, run.stepIndex, run.observations, ending));
    if IsOrderly(before, run.stepIndex, ending) {
      StepIsRunners(a, b, run.stepIndex, run.observations, ending);
    }
  }

  lemma StepIsRunners(a: Composed, b: Composed, stepIndex: nat, observations: seq<string>, ending: Option<Ending>)
    requires a.live.Reading? && a.toRunner != [] && stepIndex <= |observations|
    requires b == Composed(a.controller, LiveAfter(stepIndex, ending), a.toRunner[1..],
                           a.toController + Said(a, stepIndex, observations, ending))
    requires Handled(a.toRunner[0], a.live.stepIndex, stepIndex, observations, ending)
    ensures RunnerSteps(a, b)
  {
    if stepIndex > a.live.stepIndex {
      assert RunnerExecutes(a, b, observations[stepIndex - 1]);
    } else if ending == Some(Exit(0, "finish_action")) {
      assert [] + [] + [RunFinished] == [RunFinished];
      assert RunnerFinishes(a, b);
    } else {
      assert RunnerRefuses(a, b);
    }
  }
}
