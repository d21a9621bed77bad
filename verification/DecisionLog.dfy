/** The controller's evidence log: the grammar of its decision and dispatch entries. */
module DecisionLog {
  import opened Common

  /** A model action: its step index (none for a finish) and the hash of its line. */
  datatype Act = Act(step: Option<nat>, hash: string)

  datatype Status = Pending | Sent | Unknown

  datatype LogEvent =
    | Decision(attempt: nat, prepared: Option<Act>, errorCode: Option<string>)
    | Dispatch(attempt: nat, act: Act, status: Status)
    | ObservationAck(attempt: nat, act: Act, classification: string)
    | FinishAck(attempt: nat, act: Act)
    | ControllerFinish(reason: string, status: Status)
    | AbortFinish(attempt: nat, step: Option<nat>, reason: string, status: Status)

  /** Where a log stands after its last entry. */
  datatype Phase =
    | Fresh(acks: nat)
    | Refused
    | Ready(attempt: nat, act: Act)
    | InDoubt(attempt: nat, act: Act)
    | Delivered(attempt: nat, act: Act)
    | Closed
    | Stopping
    | Stopped
    | Aborting
    | Aborted
    | Broken

  /** An attempt is numbered one above the acknowledged ones, and so is the step it asks for. */
  predicate IsNext(acks: nat, attempt: nat, act: Act) {
    attempt == acks + 1 && (act.step.None? || act.step == Some(acks + 1))
  }

  function Advance(phase: Phase, event: LogEvent): Phase {
    match event
    case Decision(attempt, act, errorCode) =>
      if phase.Fresh? && act.None? && errorCode.Some? && attempt == phase.acks + 1 then Refused
      else if phase.Fresh? && act.Some? && errorCode.None? && IsNext(phase.acks, attempt, act.value) then
        Ready(attempt, act.value)
      else Broken
    case Dispatch(attempt, act, status) =>
      if phase == Ready(attempt, act) && status.Pending? then InDoubt(attempt, act)
      else if phase == InDoubt(attempt, act) && status.Sent? then Delivered(attempt, act)
      else if (phase == InDoubt(attempt, act) || phase == Delivered(attempt, act)) && status.Unknown? then Closed
      else Broken
    case ObservationAck(attempt, act, _) =>
      if phase == Delivered(attempt, act) && act.step.Some? then Fresh(attempt) else Broken
    case FinishAck(attempt, act) =>
      if phase == Delivered(attempt, act) && act.step.None? then Closed else Broken
    case ControllerFinish(_, status) =>
      if phase.Fresh? && phase.acks > 0 && status.Pending? then Stopping
      else if phase.Stopping? && !status.Pending? then Stopped
      else Broken
    case AbortFinish(_, _, _, status) =>
      if status.Pending? && (phase.Fresh? || phase.Refused? || phase.Ready? || phase.Closed? || phase.Stopping?
          || phase.Stopped?) then Aborting
      else if phase.Aborting? && !status.Pending? then Aborted
      else Broken
  }

  function PhaseOf(log: seq<LogEvent>): Phase {
    if log == [] then Fresh(0) else Advance(PhaseOf(log[..|log| - 1]), log[|log| - 1])
  }

  lemma PhaseAppend(log: seq<LogEvent>, event: LogEvent)
    ensures PhaseOf(log + [event]) == Advance(PhaseOf(log), event)
  {
    assert (log + [event])[..|log|] == log;
  }

  predicate IsResolved(phase: Phase) {
    !phase.InDoubt? && !phase.Delivered? && !phase.Broken?
  }

  /* What the grammar means for one attempt. */

  datatype Mark = Prepared | WasPending | WasSent | WasUnknown | Observed | Ended

  function MarkOf(event: LogEvent, attempt: nat): seq<Mark> {
    match event
    case Decision(a, _, _) => if a == attempt then [Prepared] else []
    case Dispatch(a, _, Pending) => if a == attempt then [WasPending] else []
    case Dispatch(a, _, Sent) => if a == attempt then [WasSent] else []
    case Dispatch(a, _, Unknown) => if a == attempt then [WasUnknown] else []
    case ObservationAck(a, _, _) => if a == attempt then [Observed] else []
    case FinishAck(a, _) => if a == attempt then [Ended] else []
    case _ => []
  }

  /** The entries about one attempt's action, in log order. */
  function Marks(log: seq<LogEvent>, attempt: nat): seq<Mark> {
    if log == [] then [] else Marks(log[..|log| - 1], attempt) + MarkOf(log[|log| - 1], attempt)
  }

  predicate WasObserved(marks: seq<Mark>) {
    marks == [Prepared, WasPending, WasSent, Observed]
  }

  /** Prepared, then optionally pending, then unknown, or sent and one of observed, finished, unknown. */
  predicate IsSettled(marks: seq<Mark>) {
    || marks == [] || marks == [Prepared] || marks == [Prepared, WasPending, WasUnknown]
    || WasObserved(marks) || marks == [Prepared, WasPending, WasSent, Ended]
    || marks == [Prepared, WasPending, WasSent, WasUnknown]
  }

  predicate IsUnresolved(marks: seq<Mark>) {
    marks == [Prepared, WasPending] || marks == [Prepared, WasPending, WasSent]
  }

  /** The attempts before the current one were observed; the current one has `current`; later ones have nothing. */
  predicate MarksUpTo(marks: seq<Mark>, attempt: nat, last: nat, current: seq<Mark>) {
    if attempt == 0 || attempt > last then marks == []
    else if attempt < last then WasObserved(marks) else marks == current
  }

  predicate MarksFit(phase: Phase, marks: seq<Mark>, attempt: nat) {
    match phase
    case Fresh(acks) => if 1 <= attempt <= acks then WasObserved(marks) else marks == []
    case Ready(last, _) => last > 0 && MarksUpTo(marks, attempt, last, [Prepared])
    case InDoubt(last, _) => last > 0 && MarksUpTo(marks, attempt, last, [Prepared, WasPending])
    case Delivered(last, _) => last > 0 && MarksUpTo(marks, attempt, last, [Prepared, WasPending, WasSent])
    case Broken => true
    case _ => IsSettled(marks)
  }

  lemma AdvanceFits(phase: Phase, event: LogEvent, marks: seq<Mark>, attempt: nat)
    requires MarksFit(phase, marks, attempt)
    ensures MarksFit(Advance(phase, event), marks + MarkOf(event, attempt), attempt)
  {
    assert marks + [] == marks;
  }

  /** In a log that follows the grammar every attempt is settled, except the one in doubt or delivered, if there
    * is one. */
  lemma {:induction false} EveryAttemptFits(log: seq<LogEvent>, attempt: nat)
    ensures MarksFit(PhaseOf(log), Marks(log, attempt), attempt)
  {
    if log != [] {
      EveryAttemptFits(log[..|log| - 1], attempt);
      AdvanceFits(PhaseOf(log[..|log| - 1]), log[|log| - 1], Marks(log[..|log| - 1], attempt), attempt);
    }
  }

  /** At most one attempt is unresolved in a log, and none once the log is resolved. */
  lemma AtMostOneUnresolved(log: seq<LogEvent>, a: nat, b: nat)
    requires !PhaseOf(log).Broken?
    ensures IsUnresolved(Marks(log, a)) && IsUnresolved(Marks(log, b)) ==> a == b
    ensures IsResolved(PhaseOf(log)) ==> IsSettled(Marks(log, a))
    ensures IsSettled(Marks(log, a)) || IsUnresolved(Marks(log, a))
  {
    EveryAttemptFits(log, a);
    EveryAttemptFits(log, b);
  }

  predicate IsModelAction(event: LogEvent) {
    event.Decision? || event.Dispatch? || event.ObservationAck? || event.FinishAck?
  }

  predicate IsOver(phase: Phase) {
    phase.Closed? || phase.Aborting? || phase.Aborted?
  }

  lemma {:induction false} PrefixUnbroken(log: seq<LogEvent>, i: nat)
    requires i <= |log| && !PhaseOf(log).Broken?
    ensures !PhaseOf(log[..i]).Broken?
    decreases |log| - i
  {
    if i < |log| {
      PrefixUnbroken(log, i + 1);
      PhaseAppend(log[..i], log[i]);
      assert log[..i + 1] == log[..i] + [log[i]];
    } else {
      assert log[..i] == log;
    }
  }

  lemma {:induction false} OverStays(log: seq<LogEvent>, i: nat, j: nat)
    requires i <= j <= |log| && !PhaseOf(log).Broken? && IsOver(PhaseOf(log[..i]))
    ensures IsOver(PhaseOf(log[..j]))
    ensures i < j ==> !IsModelAction(log[j - 1])
    decreases j - i
  {
    if i < j {
      OverStays(log, i, j - 1);
      PrefixUnbroken(log, j);
      PhaseAppend(log[..j - 1], log[j - 1]);
      assert log[..j] == log[..j - 1] + [log[j - 1]];
    }
  }

  /** After an unknown, nothing more is decided, dispatched or acknowledged. */
  lemma NothingAfterUnknown(log: seq<LogEvent>, i: nat, j: nat)
    requires !PhaseOf(log).Broken? && i < j < |log|
    requires log[i].Dispatch? && log[i].status.Unknown?
    ensures !IsModelAction(log[j])
  {
    PrefixUnbroken(log, i + 1);
    PhaseAppend(log[..i], log[i]);
    assert log[..i + 1] == log[..i] + [log[i]];
    OverStays(log, i + 1, j + 1);
  }
}
