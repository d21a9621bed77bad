/** The live runner: reading actions, recording each accepted one once, and capturing child output. */
module RunnerLive {
  import opened Common
  import opened ActionParsing
  import opened RunnerReplay
  import opened TornRecording

  datatype Exception = Explorer | Interrupt | OtherError

  datatype StepOutcome = Observed(classification: string) | Raised(exception: Exception)

  /** How a live run ended; `Propagated` leaves the program with an exception of its own. */
  datatype Ending = Exit(code: int, reason: string) | Propagated

  const DRIVER_FAILED := Exit(2, "driver_failure")

  /** The raw lines that a recording was made from, as they stood on standard input. */
  function RawLines(rec: Recording): seq<Line> {
    seq(|rec.steps|, i requires 0 <= i < |rec.steps| => rec.steps[i].line)
        + if rec.finish.Some? then [rec.finish.value] else []
  }

  lemma RawGrows(rec: Recording, line: Line, request: StepRequest)
    requires rec.finish.None?
    ensures RawLines(WithStep(rec, line, request)) == RawLines(rec) + [line]
    ensures RawLines(rec.(finish := Some(line))) == RawLines(rec) + [line]
  {
  }

  /** How far the first line of the input goes, its newline included. */
  function FirstLineLength(input: Line): (n: nat)
    ensures n <= |input| && (input != [] ==> n > 0)
    ensures forall i :: 0 <= i < n - 1 ==> input[i] != LF
    ensures 0 < n < |input| ==> input[n - 1] == LF
  {
    if input == [] then 0 else if input[0] == LF then 1 else 1 + FirstLineLength(input[1..])
  }

  /** The lines of the input, cut after each newline only. */
  function InputLines(input: Line): seq<Line> {
    if input == [] then [] else [input[..FirstLineLength(input)]] + InputLines(input[FirstLineLength(input)..])
  }

  lemma {:induction false} InputLinesJoin(input: Line)
    ensures Concat(InputLines(input)) == input
  {
    if input != [] {
      InputLinesJoin(input[FirstLineLength(input)..]);
    }
  }

  /** `_read_live_line`: the next line of the input, unless it is over the action bound. */
  method ReadLiveLine(input: Line) returns (line: Result<Option<Line>, Exception>, rest: Line)
    ensures line.Err? <==> FirstLineLength(input) > MAX_ACTION_BYTES
    ensures line.Ok? ==> (line.value.None? <==> input == [])
    ensures line.Ok? && line.value.Some? ==> IsLiveLine(line.value.value)
    ensures line.Ok? && line.value.Some? ==>
      line.value.value == input[..FirstLineLength(input)] && rest == input[FirstLineLength(input)..]
  {
    var n := FirstLineLength(input);
    if n > MAX_ACTION_BYTES + 1 {
      n := MAX_ACTION_BYTES + 1;
    }
    rest := input[n..];
    if n == 0 {
      return Ok(None), rest;
    }
    if n > MAX_ACTION_BYTES {
      return Err(Explorer), rest;
    }
    assert forall i :: 0 <= i < n ==> input[..n][i] == input[i];
    line := Ok(Some(input[..n]));
  }

  class RunState {
    /** `_parse_action`. */
    const parse: Parse
    var stepIndex: nat
    var isOpen: bool
    var actions: Option<Line>
    var actionAccepted: bool
    var observations: seq<string>
    /** The actions so far whose append succeeded. */
    ghost var recording: Recording
    /** What appends that raised left in the file. */
    ghost var torn: Option<Torn>

    /** `actions.jsonl` holds exactly the accepted lines and what appends that raised left. */
    ghost predicate Valid()
      reads this
    {
      && actions == TornFile(recording, torn) && FitsTorn(recording, torn)
      && recording.IsLive(parse) && stepIndex == |observations|
    }

    /** No append has left anything but its whole line. */
    ghost predicate Intact()
      reads this
    {
      Valid() && torn.None? && recording.finish.None? && |recording.steps| <= stepIndex
    }

    constructor (reader: Reader)
      ensures Intact() && isOpen && stepIndex == 0 && recording == Recording([], None) && parse == ParserOf(reader)
    {
      parse := ParserOf(reader);
      stepIndex, isOpen, actions, actionAccepted, observations := 0, true, None, false, [];
      recording, torn := Recording([], None), None;
    }

    /**
     `append_accepted_line`: the file is created at the first line, and every line ends with a newline.
     Opening may raise, and writing, flushing or syncing may with any part of the line in the file.
     */
    method AppendAcceptedLine(raw: Line) returns (raised: Option<Exception>)
      modifies this`actions
      ensures MayAppend(old(actions), raw, actions, raised.Some?)
      ensures raised.Some? ==> raised.value != Explorer
    {
      var interrupted: bool := *;
      var exception := if interrupted then Interrupt else OtherError;
      if * {
        return Some(exception);
      }
      var before, stream := Bytes(actions), raw;
      if raw == [] || raw[|raw| - 1] != LF {
        stream := stream + [LF];
      }
      if * {
        var size: nat :| size <= |stream|;
        actions := Some(before + stream[..size]);
        return Some(exception);
      }
      actions := Some(before + stream);
      raised := None;
    }

    /** A step's line is appended, and its action then accepted. */
    method Accept(request: StepRequest, raw: Line) returns (raised: Option<Exception>)
      requires Valid() && recording.finish.None? && |recording.steps| < MAX_STEPS && TriedOnce(torn, raw)
      requires IsLiveLine(raw) && parse(raw) == Ok(Step(request)) && !actionAccepted
      modifies this`actions, this`actionAccepted, this`recording, this`torn
      ensures Valid() && actionAccepted == raised.None? && (raised.Some? ==> raised.value != Explorer)
      ensures MayAppend(old(actions), raw, actions, raised.Some?)
      ensures raised.None? ==> recording == WithStep(old(recording), raw, request) && torn == Again(old(torn))
      ensures raised.Some? ==> recording == old(recording) && torn == LeftBy(old(torn), raw, old(actions), actions)
      ensures raised.Some? && old(torn).None? ==> TriedOnce(torn, raw)
    {
      ghost var before := actions;
      raised := AppendAcceptedLine(raw);
      if raised.Some? {
        RaiseLeaves(recording, torn, raw, actions);
        torn := LeftBy(torn, raw, before, actions);
        return;
      }
      AppendRecords(recording, torn, raw, request, actions);
      actionAccepted := true;
      recording, torn := WithStep(recording, raw, request), Again(torn);
    }

    /**
     `run_step`: it may raise before the append, in it, after it, or after its observation is kept. The action
     is accepted exactly when its append succeeded; if that raised, the file may hold a part of its line.
     */
    method RunStep(request: StepRequest, raw: Line) returns (outcome: StepOutcome)
      requires Intact() && IsLiveLine(raw) && parse(raw) == Ok(Step(request))
      modifies this
      ensures Valid() && isOpen == old(isOpen)
      ensures recording == if actionAccepted then WithStep(old(recording), raw, request) else old(recording)
      ensures torn.Some? ==> !actionAccepted && outcome.Raised? && outcome.exception != Explorer
      ensures TriedOnce(torn, raw) && (torn.Some? ==> MayAppend(old(actions), raw, actions, true))
      ensures outcome.Observed? ==> actionAccepted && observations == old(observations) + [outcome.classification]
      ensures old(observations) <= observations && old(stepIndex) <= stepIndex <= old(stepIndex) + 1
      ensures !actionAccepted ==> outcome.Raised? && stepIndex == old(stepIndex)
      ensures !old(isOpen) || old(stepIndex) >= MAX_STEPS ==> outcome == Raised(Explorer) && !actionAccepted
    {
      actionAccepted := false;
      if !isOpen {
        return Raised(Explorer);
      }
      if stepIndex >= MAX_STEPS {
        return Raised(Explorer);
      }
      var exception: Exception := *;
      if * {
        return Raised(exception); // the target, the first snapshot or the step directory
      }
      var raised := Accept(request, raw);
      if raised.Some? {
        return Raised(raised.value);
      }
      if * {
        return Raised(exception); // the child, its streams or the second snapshot
      }
      var classification: string := *;
      stepIndex := stepIndex + 1;
      observations := observations + [classification];
      if * {
        return Raised(exception); // writing the observation or the manifest
      }
      outcome := StepOutcome.Observed(classification);
    }

    /**
     `_record_driver_failure`: an action that was not yet accepted is appended now, also after an append of it
     that raised. It may itself raise before that, in it, between it and the observation, or once that is kept.
     */
    method RecordDriverFailure(request: StepRequest, raw: Line) returns (outcome: StepOutcome)
      requires Valid() && recording.finish.None? && IsLiveLine(raw) && parse(raw) == Ok(Step(request))
      requires !actionAccepted ==> |recording.steps| < MAX_STEPS && TriedOnce(torn, raw)
      modifies this
      ensures Valid() && isOpen == old(isOpen) && (old(actionAccepted) ==> actionAccepted)
      ensures recording ==
        if actionAccepted && !old(actionAccepted) then WithStep(old(recording), raw, request) else old(recording)
      ensures actionAccepted ==> torn == if old(actionAccepted) then old(torn) else Again(old(torn))
      ensures !actionAccepted ==> outcome.Raised? && torn == LeftBy(old(torn), raw, old(actions), actions)
      ensures old(observations) <= observations && stepIndex <= old(stepIndex) + 1
      ensures stepIndex > old(stepIndex) ==> actionAccepted && observations == old(observations) + ["driver_failure"]
      ensures outcome.Observed? ==> stepIndex == old(stepIndex) + 1 && outcome.classification == "driver_failure"
    {
      var exception: Exception := *;
      if * {
        return Raised(exception); // the step directory
      }
      if !actionAccepted {
        var raised := Accept(request, raw);
        if raised.Some? {
          return Raised(raised.value);
        }
      }
      if * {
        return Raised(exception); // the target, the first manifest or the observation file
      }
      stepIndex := stepIndex + 1;
      observations := observations + ["driver_failure"];
      if * {
        return Raised(exception); // the last manifest
      }
      outcome := StepOutcome.Observed("driver_failure");
    }

    /**
     `_execute_step`: whatever happens, an action is accepted at most once, and one with an observation exactly
     once. What a first append of it left when it raised stays in the file, before the line if that comes.
     */
    method ExecuteStep(request: StepRequest, raw: Line) returns (outcome: StepOutcome, interrupted: bool)
      requires Intact() && IsLiveLine(raw) && parse(raw) == Ok(Step(request))
      modifies this
      ensures Valid() && isOpen == old(isOpen)
      ensures recording == WithStep(old(recording), raw, request) || (outcome.Raised? && recording == old(recording))
      ensures torn.Some? ==> torn.value.line == raw && torn.value.retried == (recording != old(recording))
      ensures torn.Some? && outcome.Observed? ==> interrupted || outcome.classification == "driver_failure"
      ensures outcome.Observed? ==>
        recording == WithStep(old(recording), raw, request) && |recording.steps| <= stepIndex
      ensures old(observations) <= observations
          && (outcome.Observed? ==> stepIndex > old(stepIndex) && observations[stepIndex - 1] == outcome.classification)
      ensures outcome.Observed? && outcome.classification != "driver_failure" ==> stepIndex == old(stepIndex) + 1
      ensures old(stepIndex) >= MAX_STEPS ==>
        outcome == Raised(Explorer) && recording == old(recording) && observations == old(observations) && torn.None?
    {
      interrupted := false;
      outcome := RunStep(request, raw);
      if outcome.Raised? && !outcome.exception.Explorer? {
        interrupted := outcome.exception.Interrupt?;
        outcome := RecordDriverFailure(request, raw);
      }
    }

    /** One line of the input: true when the run goes on. */
    method HandleLine(raw: Line) returns (ending: Option<Ending>)
      requires Intact() && IsLiveLine(raw)
      modifies this
      ensures Valid() && isOpen == old(isOpen)
      ensures torn.Some? ==> torn.value.line == raw && (torn.value.retried || recording == old(recording))
      ensures torn.Some? ==> ending.Some? && (ending.value.Exit? ==> ending.value.code != 0)
      ensures RawLines(recording) == RawLines(old(recording)) + [raw] || (ending.Some? && recording == old(recording))
      ensures ending.None? ==> parse(raw).Ok? && stepIndex == old(stepIndex) + 1 && old(observations) <= observations
      ensures ending.None? ==> observations[stepIndex - 1] != "driver_failure"
      ensures ending == Some(DRIVER_FAILED) ==> stepIndex > old(stepIndex) && old(observations) <= observations
      ensures ending == Some(DRIVER_FAILED) ==> observations[stepIndex - 1] == "driver_failure"
      ensures recording.finish.Some? ==> observations == old(observations) && parse(raw) == Ok(Finish)
      ensures parse(raw) == Ok(Finish) ==>
        ending in {Some(Exit(0, "finish_action")), Some(Exit(130, "interrupted")), Some(Propagated)}
      ensures parse(raw).Ok? && parse(raw).value.Step? && old(stepIndex) >= MAX_STEPS ==>
        ending == Some(Exit(2, "input_error")) && observations == old(observations)
      ensures ending.None? ==> Intact()
      ensures recording.finish.Some? <==> ending == Some(Exit(0, "finish_action"))
      ensures ending.Some? && ending.value.Exit? && ending.value.code == 0 ==> recording.finish.Some?
    {
      var action := parse(raw);
      match action {
        case Err(ExplorerError(_)) => return Some(Exit(2, "input_error"));
        case Err(_) => return Some(Propagated);
        case Ok(Finish) =>
          ghost var before := actions;
          var raised := AppendAcceptedLine(raw);
          if raised.Some? {
            RaiseLeaves(recording, torn, raw, actions);
            torn := LeftBy(torn, raw, before, actions);
            return if raised.value.Interrupt? then Some(Exit(130, "interrupted")) else Some(Propagated);
          }
          FinishRecords(recording, raw, actions);
          RawGrows(recording, raw, NO_REQUEST);
          recording := recording.(finish := Some(raw));
          return Some(Exit(0, "finish_action"));
        case Ok(Step(request)) =>
          RawGrows(recording, raw, request);
          var outcome, interrupted := ExecuteStep(request, raw);
          match outcome {
            case Raised(Explorer) => return Some(Exit(2, "input_error"));
            case Raised(Interrupt) => return Some(Exit(130, "interrupted"));
            case Raised(OtherError) => return Some(Propagated);
            case Observed(classification) =>
              if interrupted {
                return Some(Exit(130, "interrupted"));
              }
              if classification == "driver_failure" {
                return Some(DRIVER_FAILED);
              }
          }
      }
      ending := None;
    }

    /** `RunState.close`, which may fail. */
    method Close() returns (ok: bool)
      requires Valid()
      modifies this`isOpen
      ensures Valid() && !isOpen
    {
      isOpen := false;
      ok := *;
    }

    /** The loop of `_run_live`: the accepted lines are the first of the input, and all of them at its end. */
    method RunLines(input: Line) returns (ending: Ending)
      requires Intact() && isOpen && stepIndex == 0 && recording == Recording([], None)
      modifies this
      ensures Valid()
      ensures torn.Some? && !torn.value.retried ==> RawLines(recording) + [torn.value.line] <= InputLines(input)
      ensures ending.Exit? && ending.code == 0 ==> torn.None?
      ensures RawLines(recording) <= InputLines(input)
      ensures ending.Exit? && ending.code == 0 && recording.finish.None? ==>
        ending.reason == "eof" && RawLines(recording) == InputLines(input)
      ensures recording.finish.Some? ==> ending == Exit(0, "finish_action")
    {
      var rest := input;
      assert RawLines(recording) == [];
      while true
        invariant Intact()
        invariant RawLines(recording) + InputLines(rest) == InputLines(input)
        decreases |rest|
      {
        if * {
          return Exit(130, "interrupted");
        }
        ghost var done := RawLines(recording);
        var line, after := ReadLiveLine(rest);
        if line.Err? {
          return Exit(2, "input_error");
        }
        if line.value.None? {
          return Exit(0, "eof");
        }
        assert done + [line.value.value] + InputLines(after) == done + InputLines(rest);
        var ended := HandleLine(line.value.value);
        if ended.Some? {
          return ended.value;
        }
        rest := after;
      }
    }

    /**
     `_run_live`: however it ends, `actions.jsonl` holds the accepted actions, each once and in the order of the
     input, and what an append of the last line left if it raised. Its bytes are the accepted lines exactly when
     that is nothing, and it replays to what was executed exactly as `ReplaysTorn` says.
     */
    method RunLive(reader: Reader, input: Line) returns (ending: Ending)
      requires parse == ParserOf(reader) && Intact() && isOpen && stepIndex == 0 && recording == Recording([], None)
      modifies this
      ensures Valid() && !isOpen
      ensures RawLines(recording) <= InputLines(input)
      ensures torn.Some? && !torn.value.retried ==> RawLines(recording) + [torn.value.line] <= InputLines(input)
      ensures Bytes(actions) == Concat(recording.Lines()) <==> torn.None? || torn.value.left == []
      ensures ending.Exit? && ending.code == 0 ==>
        && torn.None?
        && if recording.finish.Some? then ending.reason == "finish_action"
           else ending.reason == "eof" && RawLines(recording) == InputLines(input)
      ensures recording.finish.Some? ==> ending.Exit? && ending.reason == "finish_action"
      ensures RejectsBlank(reader) ==>
        (Loaded(reader, actions) == Ok(recording.Executed()) <==> ReplaysTorn(parse, recording, torn))
    {
      ending := RunLines(input);
      var ok := Close();
      if !ok {
        ending := if ending.Exit? then Exit(2, ending.reason) else ending;
      }
      TornExactly(recording, torn);
      if RejectsBlank(reader) {
        TornReplay(reader, recording, torn);
      }
    }
  }

  const NO_REQUEST := StepRequest("", "", "", "", false, ActionParsing.Observed, ReadFile, None)

  /** `_BoundedCapture`. */
  class BoundedCapture {
    const limit: nat
    var data: seq<Byte>
    var overflow: bool

    constructor (limit: nat)
      ensures this.limit == limit && data == [] && !overflow
    {
      this.limit, data, overflow := limit, [], false;
    }

    /** `drain`: what is kept is the beginning of what was read, and overflow says that something was dropped. */
    method Drain(stream: seq<Byte>) returns (read: nat, failed: bool)
      requires data == [] && !overflow
      modifies this
      ensures read <= |stream| && (!failed ==> read == |stream|)
      ensures data == stream[..if read < limit then read else limit]
      ensures overflow <==> read > limit
    {
      read, failed := 0, false;
      while read < |stream|
        invariant read <= |stream|
        invariant data == stream[..if read < limit then read else limit] && (overflow <==> read > limit)
      {
        if * {
          return read, true;
        }
        var size: nat :| 0 < size <= |stream| - read && size <= 65536;
        var chunk := stream[read..read + size];
        var available := limit - |data|;
        if available > 0 {
          data := data + if available < |chunk| then chunk[..available] else chunk;
        }
        if |chunk| > available {
          overflow := true;
        }
        read := read + size;
      }
    }
  }
}
