/** Recording accepted actions and replaying them: when the recorded file reads back as what was executed. */
module RunnerReplay {
  import opened Common
  import opened ActionParsing
  import Text

  const MAX_STEPS := 8
  const MAX_ACTION_BYTES := 64 * 1024
  const MAX_STEPS_FILE_BYTES := 512 * 1024

  const LF: Byte := 10
  const CR: Byte := 13

  type Line = seq<Byte>

  /** Decoding a line's text as strict JSON, and pathlib's rules. */
  datatype Reader = Reader(loads: Line -> Option<Json>, rules: PathRules)

  /** Bytes that `bytes.strip` removes. */
  predicate IsBlankLine(line: Line) {
    forall b :: b in line ==> b in {9, 10, 11, 12, 13, 32}
  }

  /** A JSON text holds a value, so white space alone is none (section 2 of RFC 8259). */
  ghost predicate RejectsBlank(reader: Reader) {
    forall text :: IsBlankLine(text) ==> reader.loads(text).None?
  }

  /** Without its trailing carriage returns and newlines. */
  function StripEnd(line: Line): (text: Line)
    ensures text <= line
  {
    if line != [] && (line[|line| - 1] == LF || line[|line| - 1] == CR) then StripEnd(line[..|line| - 1]) else line
  }

  /** `_parse_action`. */
  function ParseLine(reader: Reader, line: Line): Result<Action, ParseError> {
    if |line| > MAX_ACTION_BYTES then Err(ExplorerError("JSONL action is too long"))
    else if StripEnd(line) == [] then Err(ExplorerError("blank JSONL lines are not accepted"))
    else
      var payload := reader.loads(StripEnd(line));
      if payload.None? then Err(ExplorerError("invalid JSON")) else ParsePayload(reader.rules, payload.value)
  }

  /* Splitting a file into lines. */

  /** Where the first line of a non-empty file ends: after a newline, a carriage return, or the two together. */
  function LineEnd(raw: Line): (n: nat)
    requires raw != []
    ensures 0 < n <= |raw|
  {
    if raw[0] == LF || |raw| == 1 then 1
    else if raw[0] == CR then if raw[1] == LF then 2 else 1
    else 1 + LineEnd(raw[1..])
  }

  /** `raw.splitlines(keepends=True)`. */
  function SplitLines(raw: Line): (chunks: seq<Line>) {
    if raw == [] then [] else [raw[..LineEnd(raw)]] + SplitLines(raw[LineEnd(raw)..])
  }

  function Concat(lines: seq<Line>): Line {
    if lines == [] then [] else lines[0] + Concat(lines[1..])
  }

  /** No carriage return but directly before the final newline. */
  predicate IsPlain(line: Line) {
    forall i :: 0 <= i < |line| - 2 ==> line[i] != CR
  }

  /** A recorded line: one newline, at its end. */
  predicate IsTerminated(line: Line) {
    line != [] && line[|line| - 1] == LF && forall i :: 0 <= i < |line| - 1 ==> line[i] != LF
  }

  lemma {:induction false} PlainIsOneLine(line: Line)
    requires IsTerminated(line)
    ensures LineEnd(line) == |line| <==> IsPlain(line)
  {
    if |line| > 1 {
      if line[0] == CR {
        assert |line| == 2 ==> line[1] == LF;
      } else {
        PlainIsOneLine(line[1..]);
        assert forall i :: 0 <= i < |line| - 3 ==> line[1..][i] == line[i + 1];
        if IsPlain(line[1..]) {
          assert forall i :: 0 < i < |line| - 2 ==> line[i] == line[1..][i - 1];
        }
      }
    }
  }

  /** A line that is one line by itself is also the first line of anything that starts with it. */
  lemma {:induction false} LineEndStays(line: Line, rest: Line)
    requires line != [] && line[|line| - 1] == LF
    ensures LineEnd(line + rest) == LineEnd(line)
  {
    if |line| > 1 && line[0] != LF && line[0] != CR {
      assert (line + rest)[1..] == line[1..] + rest;
      LineEndStays(line[1..], rest);
    }
  }

  lemma SplitFirst(line: Line, rest: Line)
    requires IsTerminated(line) && IsPlain(line)
    ensures SplitLines(line + rest) == [line] + SplitLines(rest)
  {
    PlainIsOneLine(line);
    LineEndStays(line, rest);
    assert (line + rest)[..|line|] == line && (line + rest)[|line|..] == rest;
  }

  lemma {:induction false} SplitConcat(lines: seq<Line>)
    requires forall line :: line in lines ==> IsTerminated(line) && IsPlain(line)
    ensures SplitLines(Concat(lines)) == lines
  {
    if lines != [] {
      SplitFirst(lines[0], Concat(lines[1..]));
      SplitConcat(lines[1..]);
    }
  }

  /** Each chunk is one line by itself. */
  lemma {:induction false} ChunksAreLines(raw: Line)
    ensures forall c :: c in SplitLines(raw) ==> c != [] && LineEnd(c) == |c|
  {
    if raw != [] {
      FirstIsLine(raw);
      ChunksAreLines(raw[LineEnd(raw)..]);
    }
  }

  lemma {:induction false} FirstIsLine(raw: Line)
    requires raw != []
    ensures LineEnd(raw[..LineEnd(raw)]) == LineEnd(raw)
  {
    if |raw| > 1 && raw[0] != LF && raw[0] != CR {
      FirstIsLine(raw[1..]);
      assert raw[..LineEnd(raw)][1..] == raw[1..][..LineEnd(raw[1..])];
    }
  }

  lemma {:induction false} ConcatSplit(raw: Line)
    ensures Concat(SplitLines(raw)) == raw
  {
    if raw != [] {
      ConcatSplit(raw[LineEnd(raw)..]);
    }
  }

  /* Reading a recorded file. */

  datatype Replay = Replay(line: Line, request: StepRequest)

  type Parse = Line -> Result<Action, ParseError>

  function ParserOf(reader: Reader): Parse {
    line => ParseLine(reader, line)
  }

  /** The steps that the chunks hold, an optional last finish aside. */
  function StepsOf(parse: Parse, chunks: seq<Line>, found: nat): Result<seq<Replay>, ParseError> {
    if chunks == [] then Ok([])
    else if IsBlankLine(chunks[0]) then Err(ExplorerError("blank lines are not accepted in steps file"))
    else
      var action := parse(chunks[0]);
      if action.Err? then Err(action.error)
      else if action.value.Finish? then
        if |chunks| == 1 then Ok([]) else Err(ExplorerError("replay steps file may contain only step actions"))
      else if found + 1 > MAX_STEPS then Err(ExplorerError("steps file exceeds the step run limit"))
      else
        var rest := StepsOf(parse, chunks[1..], found + 1);
        if rest.Err? then rest else Ok([Replay(chunks[0], action.value.request)] + rest.value)
  }

  /** `_load_replay_steps` on a regular file, or on a path that is none. */
  function Loaded(reader: Reader, file: Option<Line>): Result<seq<Replay>, ParseError> {
    if file.None? then Err(ExplorerError("steps path must be a regular file, not a symlink"))
    else if |file.value| > MAX_STEPS_FILE_BYTES then Err(ExplorerError("steps file is too long"))
    else StepsOf(ParserOf(reader), SplitLines(file.value), 0)
  }

  /** The loop over the chunks of a steps file. */
  method ReadSteps(parse: Parse, chunks: seq<Line>) returns (result: Result<seq<Replay>, ParseError>)
    ensures result == StepsOf(parse, chunks, 0)
  {
    var steps: seq<Replay> := [];
    var position := 0;
    assert chunks[0..] == chunks;
    PrefixNone(StepsOf(parse, chunks, 0));
    while position < |chunks|
      invariant 0 <= position <= |chunks| && |steps| == position <= MAX_STEPS
      invariant StepsOf(parse, chunks, 0) == Prefixed(steps, StepsOf(parse, chunks[position..], |steps|))
    {
      var line := chunks[position];
      assert chunks[position..][0] == line && chunks[position..][1..] == chunks[position + 1..];
      if IsBlankLine(line) {
        return Err(ExplorerError("blank lines are not accepted in steps file"));
      }
      var action := parse(line);
      if action.Err? {
        return Err(action.error);
      }
      if action.value.Finish? && position == |chunks| - 1 {
        assert steps + [] == steps;
        return Ok(steps);
      }
      if !action.value.Step? {
        return Err(ExplorerError("replay steps file may contain only step actions"));
      }
      PrefixMoves(steps, Replay(line, action.value.request), StepsOf(parse, chunks[position + 1..], |steps| + 1));
      steps := steps + [Replay(line, action.value.request)];
      if |steps| > MAX_STEPS {
        return Err(ExplorerError("steps file exceeds the step run limit"));
      }
      position := position + 1;
    }
    assert steps + [] == steps;
    result := Ok(steps);
  }

  method LoadReplaySteps(reader: Reader, file: Option<Line>) returns (result: Result<seq<Replay>, ParseError>)
    ensures result == Loaded(reader, file)
  {
    if file.None? {
      return Err(ExplorerError("steps path must be a regular file, not a symlink"));
    }
    if |file.value| > MAX_STEPS_FILE_BYTES {
      return Err(ExplorerError("steps file is too long"));
    }
    result := ReadSteps(ParserOf(reader), SplitLines(file.value));
  }

  function Prefixed(steps: seq<Replay>, rest: Result<seq<Replay>, ParseError>): Result<seq<Replay>, ParseError> {
    if rest.Err? then rest else Ok(steps + rest.value)
  }

  lemma PrefixNone(rest: Result<seq<Replay>, ParseError>)
    ensures Prefixed([], rest) == rest
  {
    if rest.Ok? {
      assert [] + rest.value == rest.value;
    }
  }

  lemma PrefixMoves(steps: seq<Replay>, step: Replay, rest: Result<seq<Replay>, ParseError>)
    ensures Prefixed(steps, if rest.Err? then rest else Ok([step] + rest.value)) == Prefixed(steps + [step], rest)
  {
    if rest.Ok? {
      assert steps + ([step] + rest.value) == steps + [step] + rest.value;
    }
  }

  /* Recordings. */

  /** The line as `append_accepted_line` writes it. */
  function Terminated(line: Line): Line {
    if line != [] && line[|line| - 1] == LF then line else line + [LF]
  }

  /** A line that `readline` may return: a newline only at its end, and within the action bound. */
  predicate IsLiveLine(line: Line) {
    0 < |line| <= MAX_ACTION_BYTES && forall i :: 0 <= i < |line| - 1 ==> line[i] != LF
  }

  /** An accepted step, or the finish that ended the run. */
  datatype Accepted = Accepted(line: Line, request: StepRequest)

  datatype Recording = Recording(steps: seq<Accepted>, finish: Option<Line>)
  {
    function Tail(): seq<Line> {
      if finish.Some? then [Terminated(finish.value)] else []
    }

    function Lines(): seq<Line> {
      seq(|steps|, i requires 0 <= i < |steps| => Terminated(steps[i].line)) + Tail()
    }

    /** `actions.jsonl`, which the first accepted action creates. */
    function File(): Option<Line> {
      if steps == [] && finish.None? then None else Some(Concat(Lines()))
    }

    function Executed(): seq<Replay> {
      seq(|steps|, i requires 0 <= i < |steps| => Replay(Terminated(steps[i].line), steps[i].request))
    }

    /** Every line was read as a live line and parsed as what was executed. */
    predicate IsLive(parse: Parse) {
      && |steps| <= MAX_STEPS
      && (forall i :: 0 <= i < |steps| ==>
        IsLiveLine(steps[i].line) && parse(steps[i].line) == Ok(Step(steps[i].request)))
      && (finish.Some? ==> IsLiveLine(finish.value) && parse(finish.value) == Ok(Finish))
    }

    /** What decides whether the recording can be replayed. */
    predicate IsReplayable() {
      && File().Some? && |File().value| <= MAX_STEPS_FILE_BYTES
      && forall line :: line in Lines() ==> IsPlain(line) && |line| <= MAX_ACTION_BYTES
    }
  }

  lemma TerminatedIs(line: Line)
    requires IsLiveLine(line)
    ensures IsTerminated(Terminated(line)) && StripEnd(Terminated(line)) == StripEnd(line)
  {
    if line[|line| - 1] != LF {
      assert (line + [LF])[..|line|] == line;
    }
  }

  /** The newline that recording adds changes nothing but the length. */
  lemma RecordedParses(reader: Reader, line: Line)
    requires IsLiveLine(line)
    ensures ParseLine(reader, Terminated(line))
          == if |Terminated(line)| <= MAX_ACTION_BYTES then ParseLine(reader, line)
             else Err(ExplorerError("JSONL action is too long"))
  {
    TerminatedIs(line);
  }

  lemma BlankStrips(line: Line)
    ensures IsBlankLine(line) ==> IsBlankLine(StripEnd(line))
  {
    assert forall b :: b in StripEnd(line) ==> b in line;
  }

  /** A line that parses is not blank. */
  lemma ParsedNotBlank(reader: Reader, line: Line)
    requires RejectsBlank(reader) && ParseLine(reader, line).Ok?
    ensures !IsBlankLine(line)
  {
    BlankStrips(line);
  }

  lemma {:induction false} StepsOfSteps(parse: Parse, steps: seq<Replay>, tail: seq<Line>, found: nat)
    requires found + |steps| <= MAX_STEPS
    requires forall i :: 0 <= i < |steps| ==> Reads(parse, steps[i].line, Step(steps[i].request))
    requires tail == [] || (|tail| == 1 && Reads(parse, tail[0], Finish))
    ensures StepsOf(parse, LinesOf(steps) + tail, found) == Ok(steps)
  {
    if steps == [] {
      assert LinesOf(steps) + tail == tail;
    } else {
      var whole := LinesOf(steps) + tail;
      assert whole[0] == steps[0].line && whole[1..] == LinesOf(steps[1..]) + tail;
      StepsOfSteps(parse, steps[1..], tail, found + 1);
      assert [steps[0]] + steps[1..] == steps;
    }
  }

  function LinesOf(steps: seq<Replay>): seq<Line> {
    seq(|steps|, i requires 0 <= i < |steps| => steps[i].line)
  }

  /** Whatever a successful load returns was, line by line, at the front of the chunks, with at most a finish
    * after it. */
  lemma {:induction false} LoadedAreChunks(parse: Parse, chunks: seq<Line>, found: nat)
    requires StepsOf(parse, chunks, found).Ok?
    ensures var steps := StepsOf(parse, chunks, found).value;
      && |chunks| - 1 <= |steps| <= |chunks| && LinesOf(steps) == chunks[..|steps|]
      && (|steps| < |chunks| ==> Reads(parse, chunks[|steps|], Finish))
      && forall c :: c in chunks ==> parse(c).Ok?
  {
    if chunks != [] && parse(chunks[0]).value.Step? {
      LoadedAreChunks(parse, chunks[1..], found + 1);
      var steps := StepsOf(parse, chunks, found).value;
      var rest := StepsOf(parse, chunks[1..], found + 1).value;
      assert steps == [Replay(chunks[0], parse(chunks[0]).value.request)] + rest;
      assert LinesOf(steps) == [chunks[0]] + LinesOf(rest);
      assert chunks[..|steps|] == [chunks[0]] + chunks[1..][..|rest|];
    }
  }

  lemma {:induction false} ConcatAppend(a: seq<Line>, b: seq<Line>)
    ensures Concat(a + b) == Concat(a) + Concat(b)
  {
    if a == [] {
      assert a + b == b;
    } else {
      assert (a + b)[1..] == a[1..] + b;
      ConcatAppend(a[1..], b);
    }
  }

  /** Two ways to cut the same bytes that agree on all but the last cut agree there too. */
  lemma SameTail(chunks: seq<Line>, lines: seq<Line>, n: nat)
    requires Concat(chunks) == Concat(lines) && n <= |chunks| <= n + 1 && n <= |lines| <= n + 1
        && chunks[..n] == lines[..n]
    requires forall c :: c in chunks || c in lines ==> c != []
    ensures chunks == lines
  {
    assert chunks == chunks[..n] + chunks[n..] && lines == lines[..n] + lines[n..];
    ConcatAppend(chunks[..n], chunks[n..]);
    ConcatAppend(lines[..n], lines[n..]);
    assert Concat(chunks[n..]) == Concat(lines[n..]) by {
      assert Concat(chunks)[|Concat(chunks[..n])|..] == Concat(chunks[n..]);
      assert Concat(lines)[|Concat(lines[..n])|..] == Concat(lines[n..]);
    }
    OneOrNone(chunks[n..]);
    OneOrNone(lines[n..]);
    assert |chunks| > n ==> chunks[n] in chunks;
    assert |lines| > n ==> lines[n] in lines;
    assert chunks[n..] == lines[n..];
  }

  lemma OneOrNone(tail: seq<Line>)
    requires |tail| <= 1
    ensures Concat(tail) == if tail == [] then [] else tail[0]
  {
    if tail != [] {
      assert tail[1..] == [] && tail[0] + [] == tail[0];
    }
  }

  lemma LinesAreTerminated(parse: Parse, rec: Recording)
    requires rec.IsLive(parse)
    ensures forall line :: line in rec.Lines() ==> IsTerminated(line)
  {
    forall line | line in rec.Lines() ensures IsTerminated(line) {
      var i :| 0 <= i < |rec.Lines()| && rec.Lines()[i] == line;
      TerminatedIs(if i < |rec.steps| then rec.steps[i].line else rec.finish.value);
    }
  }

  /** A recorded line that still fits the action bound parses as the live line did. */
  lemma ReplayedParses(reader: Reader, line: Line, action: Action)
    requires RejectsBlank(reader) && IsLiveLine(line) && ParseLine(reader, line) == Ok(action)
        && |Terminated(line)| <= MAX_ACTION_BYTES
    ensures !IsBlankLine(Terminated(line)) && ParserOf(reader)(Terminated(line)) == Ok(action)
  {
    RecordedParses(reader, line);
    ParsedNotBlank(reader, Terminated(line));
  }

  predicate Reads(parse: Parse, line: Line, action: Action) {
    !IsBlankLine(line) && parse(line) == Ok(action)
  }

  lemma ExecutedReplays(reader: Reader, rec: Recording, i: nat)
    requires RejectsBlank(reader) && rec.IsLive(ParserOf(reader)) && rec.IsReplayable() && i < |rec.steps|
    ensures Reads(ParserOf(reader), rec.Executed()[i].line, Step(rec.Executed()[i].request))
  {
    assert rec.Lines()[i] == Terminated(rec.steps[i].line);
    ReplayedParses(reader, rec.steps[i].line, Step(rec.steps[i].request));
  }

  lemma FinishReplays(reader: Reader, rec: Recording)
    requires RejectsBlank(reader) && rec.IsLive(ParserOf(reader)) && rec.IsReplayable() && rec.finish.Some?
    ensures Reads(ParserOf(reader), Terminated(rec.finish.value), Finish)
  {
    assert rec.Lines()[|rec.steps|] == Terminated(rec.finish.value);
    ReplayedParses(reader, rec.finish.value, Finish);
  }

  /** A replayable file splits into the lines that were recorded. */
  lemma RecordedChunks(parse: Parse, rec: Recording)
    requires rec.IsLive(parse) && rec.IsReplayable()
    ensures SplitLines(rec.File().value) == LinesOf(rec.Executed()) + rec.Tail()
  {
    LinesAreTerminated(parse, rec);
    SplitConcat(rec.Lines());
    assert rec.Lines() == LinesOf(rec.Executed()) + rec.Tail();
  }

  lemma ReplayableLoads(reader: Reader, rec: Recording)
    requires RejectsBlank(reader) && rec.IsLive(ParserOf(reader)) && rec.IsReplayable()
    ensures Loaded(reader, rec.File()) == Ok(rec.Executed())
  {
    var parse := ParserOf(reader);
    RecordedChunks(parse, rec);
    var executed := rec.Executed();
    forall i | 0 <= i < |executed| ensures Reads(parse, executed[i].line, Step(executed[i].request)) {
      ExecutedReplays(reader, rec, i);
    }
    if rec.finish.Some? {
      FinishReplays(reader, rec);
    }
    StepsOfSteps(parse, executed, rec.Tail(), 0);
  }

  lemma LoadedIsReplayable(reader: Reader, rec: Recording)
    requires rec.IsLive(ParserOf(reader)) && Loaded(reader, rec.File()) == Ok(rec.Executed())
    ensures rec.IsReplayable()
  {
    var chunks, n := SplitLines(rec.File().value), |rec.steps|;
    LinesAreTerminated(ParserOf(reader), rec);
    LoadedAreChunks(ParserOf(reader), chunks, 0);
    ConcatSplit(rec.File().value);
    ChunksAreLines(rec.File().value);
    assert rec.Lines()[..n] == LinesOf(rec.Executed());
    SameTail(chunks, rec.Lines(), n);
    forall line | line in rec.Lines() ensures IsPlain(line) && |line| <= MAX_ACTION_BYTES {
      PlainIsOneLine(line);
      assert ParseLine(reader, line).Ok?;
    }
  }

  /**
   Loading a recorded run gives back exactly the requests it executed, in order, if and only if
   something was recorded, no recorded line holds a carriage return before its line ending, each
   still fits the action bound with its newline, and the file fits the steps-file bound.
   */
  lemma ReplayIdentity(reader: Reader, rec: Recording)
    requires RejectsBlank(reader) && rec.IsLive(ParserOf(reader))
    ensures Loaded(reader, rec.File()) == Ok(rec.Executed()) <==> rec.IsReplayable()
  {
    if rec.IsReplayable() {
      ReplayableLoads(reader, rec);
    }
    if Loaded(reader, rec.File()) == Ok(rec.Executed()) {
      LoadedIsReplayable(reader, rec);
    }
  }

  /** Each executed request's tool arguments are the arguments object of its line. */
  lemma ExecutedArguments(reader: Reader, rec: Recording, i: nat)
    requires rec.IsLive(ParserOf(reader)) && i < |rec.steps|
    ensures var payload := reader.loads(StripEnd(rec.steps[i].line));
      && payload.Some? && payload.value.Obj? && payload.value.Get("tool_call").Obj?
      && (rec.steps[i].request.tool.SearchText? ==> rec.steps[i].request.searchQuery.Some?)
      && ToolArguments(rec.steps[i].request) == payload.value.Get("tool_call").Get("arguments")
  {
    var line, request := rec.steps[i].line, rec.steps[i].request;
    assert ParseLine(reader, line) == Ok(Step(request));
    ReadingLosesNothing(reader.rules, reader.loads(StripEnd(line)).value, request);
  }

  const FINISH := Obj(map["action" := Str("finish")])

  /** The text of a finish object with a carriage return between its colon and its value. */
  const SPLIT_FINISH: Line :=
    [123, 34, 97, 99, 116, 105, 111, 110, 34, 58, CR, 34, 102, 105, 110, 105, 115, 104, 34, 125]

  lemma {:induction false} FirstReturn(raw: Line, k: nat)
    requires k + 1 < |raw| && raw[k] == CR && raw[k + 1] != LF
    requires forall i :: 0 <= i < k ==> raw[i] != LF && raw[i] != CR
    ensures LineEnd(raw) == k + 1
  {
    if k > 0 {
      FirstReturn(raw[1..], k - 1);
    }
  }

  lemma SplitFinishParses(reader: Reader)
    requires reader.loads(SPLIT_FINISH) == Some(FINISH)
    ensures IsLiveLine(SPLIT_FINISH + [LF]) && ParseLine(reader, SPLIT_FINISH + [LF]) == Ok(Finish)
  {
    var line := SPLIT_FINISH + [LF];
    assert line[..|line| - 1] == SPLIT_FINISH && SPLIT_FINISH[|SPLIT_FINISH| - 1] == 125;
    assert StripEnd(line) == SPLIT_FINISH;
  }

  /** The first chunk of the split finish is the text before the carriage return. */
  lemma SplitFinishCut(reader: Reader)
    requires reader.loads(SPLIT_FINISH[..10]).None?
    ensures var chunks := SplitLines(SPLIT_FINISH + [LF]); chunks != [] && ParseLine(reader, chunks[0]).Err?
  {
    var line := SPLIT_FINISH + [LF];
    FirstReturn(line, 10);
    var cut := line[..11];
    assert cut[..10] == SPLIT_FINISH[..10] && cut[|cut| - 1] == CR && cut[..10][9] == 58;
    assert StripEnd(cut) == SPLIT_FINISH[..10];
  }

  /**
   A finish with a carriage return between two of its tokens is accepted live, and its replay is not what
   was executed, whatever else the reader knows; it is refused if the text before the return is no JSON.
   */
  lemma InteriorReturn(reader: Reader)
    requires reader.loads(SPLIT_FINISH) == Some(FINISH)
    ensures var rec := Recording([], Some(SPLIT_FINISH + [LF]));
      && rec.IsLive(ParserOf(reader)) && Loaded(reader, rec.File()) != Ok(rec.Executed())
      && (reader.loads(SPLIT_FINISH[..10]).None? ==> Loaded(reader, rec.File()).Err?)
  {
    var line := SPLIT_FINISH + [LF];
    var rec := Recording([], Some(line));
    SplitFinishParses(reader);
    assert rec.Lines() == [line];
    OneOrNone([line]);
    assert !IsPlain(line) by {
      assert line[10] == CR;
    }
    if Loaded(reader, rec.File()) == Ok(rec.Executed()) {
      LoadedIsReplayable(reader, rec);
    }
    if reader.loads(SPLIT_FINISH[..10]).None? {
      SplitFinishCut(reader);
    }
  }
}
