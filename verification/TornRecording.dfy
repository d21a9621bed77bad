/** What an append that raises may leave in the recorded file, and when such a file still replays. */
module TornRecording {
  import opened Common
  import opened ActionParsing
  import opened RunnerReplay

  function WithStep(rec: Recording, line: Line, request: StepRequest): Recording {
    rec.(steps := rec.steps + [Accepted(line, request)])
  }

  /** The bytes of a file that appending creates if it is absent. */
  function Bytes(file: Option<Line>): Line {
    if file.Some? then file.value else []
  }

  /**
   One call of `append_accepted_line`: the whole line with its newline, or, if opening, writing, flushing
   or syncing raises, any beginning of it, all of it included.
   */
  predicate MayAppend(before: Option<Line>, raw: Line, after: Option<Line>, raised: bool) {
    || (raised && after == before)
    || (after.Some? && Bytes(before) <= after.value
        && var written := after.value[|Bytes(before)|..];
        written <= Terminated(raw) && (!raised ==> written == Terminated(raw)))
  }

  /** The bytes left by appends of a line that raised, and whether a later append of it succeeded. */
  datatype Torn = Torn(line: Line, left: Line, retried: bool)

  /** The lines before the torn ones. */
  function Whole(rec: Recording, torn: Torn): seq<Line> {
    if torn.retried && rec.steps != [] then rec.Lines()[..|rec.Lines()| - 1] else rec.Lines()
  }

  /** What the file then holds. */
  function TornBytes(rec: Recording, torn: Torn): Line {
    Concat(Whole(rec, torn)) + torn.left + if torn.retried then Terminated(torn.line) else []
  }

  function TornFile(rec: Recording, torn: Option<Torn>): Option<Line> {
    if torn.None? then rec.File() else Some(TornBytes(rec, torn.value))
  }

  /** One or two beginnings of the line. */
  predicate IsLeft(left: Line, line: Line) {
    exists n :: 0 <= n <= |left| && left[..n] <= line && left[n..] <= line
  }

  /** Only the last action of a run is ever torn: the append of a step is tried again once, that of a finish never. */
  predicate FitsTorn(rec: Recording, torn: Option<Torn>) {
    torn.Some? ==>
      && rec.finish.None? && IsLiveLine(torn.value.line) && IsLeft(torn.value.left, Terminated(torn.value.line))
      && (torn.value.retried ==>
        && rec.steps != [] && rec.steps[|rec.steps| - 1].line == torn.value.line
        && torn.value.left <= Terminated(torn.value.line))
  }

  lemma FileGrows(rec: Recording, line: Line, request: StepRequest)
    requires rec.finish.None?
    ensures WithStep(rec, line, request).Lines() == rec.Lines() + [Terminated(line)]
    ensures WithStep(rec, line, request).File() == Some(Bytes(rec.File()) + Terminated(line))
    ensures rec.(finish := Some(line)).File() == Some(Bytes(rec.File()) + Terminated(line))
  {
    assert WithStep(rec, line, request).Lines() == rec.Lines() + [Terminated(line)];
    assert rec.(finish := Some(line)).Lines() == rec.Lines() + [Terminated(line)];
    ConcatAppend(rec.Lines(), [Terminated(line)]);
    OneOrNone([Terminated(line)]);
  }

  /** What is torn after an append that raised: nothing new, or the bytes that it left at the end. */
  function LeftBy(torn: Option<Torn>, raw: Line, before: Option<Line>, after: Option<Line>): Option<Torn> {
    if after == before || after.None? || |after.value| < |Bytes(before)| then torn
    else Some(Torn(raw, (if torn.Some? then torn.value.left else []) + after.value[|Bytes(before)|..], false))
  }

  /** A line that was torn is appended again. */
  function Again(torn: Option<Torn>): Option<Torn> {
    if torn.None? then None else Some(torn.value.(retried := true))
  }

  /** At most one append of the line has raised, and none of another. */
  predicate TriedOnce(torn: Option<Torn>, raw: Line) {
    torn.Some? ==> torn.value.line == raw && !torn.value.retried && torn.value.left <= Terminated(raw)
  }

  lemma SameAfter(front: Line, a: Line, b: Line)
    ensures (front + a)[|front|..] == a && (front + a == front + b ==> a == b)
  {
    assert (front + a)[|front|..] == a && (front + b)[|front|..] == b;
  }

  lemma FrontAndRest(front: Line, file: Line)
    requires front <= file
    ensures file == front + file[|front|..]
  {
  }

  lemma Regroup(a: Line, b: Line, c: Line)
    ensures a + b + c == a + (b + c)
  {
  }

  /** The recorded lines of a file whose torn line was appended again, and that file. */
  lemma RetriedShape(rec: Recording, torn: Torn)
    requires FitsTorn(rec, Some(torn)) && torn.retried
    ensures var whole := Concat(Whole(rec, torn));
      && Concat(rec.Lines()) == whole + Terminated(torn.line)
      && TornBytes(rec, torn) == whole + (torn.left + Terminated(torn.line))
  {
    var last := Terminated(torn.line);
    assert rec.Lines() == Whole(rec, torn) + [last];
    ConcatAppend(Whole(rec, torn), [last]);
    OneOrNone([last]);
    Regroup(Concat(Whole(rec, torn)), torn.left, last);
  }

  lemma OnceShape(rec: Recording, torn: Torn)
    requires !torn.retried
    ensures TornBytes(rec, torn) == Concat(rec.Lines()) + torn.left
  {
  }

  /** A first append that raises leaves a beginning of its line, and a second one beginning more. */
  lemma RaiseLeaves(rec: Recording, torn: Option<Torn>, raw: Line, after: Option<Line>)
    requires rec.finish.None? && IsLiveLine(raw) && TriedOnce(torn, raw)
    requires MayAppend(TornFile(rec, torn), raw, after, true)
    ensures var left := LeftBy(torn, raw, TornFile(rec, torn), after);
      && after == TornFile(rec, left) && FitsTorn(rec, left) && (torn.None? ==> TriedOnce(left, raw))
  {
    var before, left := TornFile(rec, torn), LeftBy(torn, raw, TornFile(rec, torn), after);
    var first := if torn.Some? then torn.value.left else [];
    assert IsLeft(first, Terminated(raw)) by {
      assert first[..0] == [] && first[0..] == first;
    }
    if after != before {
      var written := after.value[|Bytes(before)|..];
      FrontAndRest(Bytes(before), after.value);
      SameAfter(first, written, written);
      assert (first + written)[..|first|] == first;
      assert IsLeft(first + written, Terminated(raw));
      Regroup(Concat(rec.Lines()), first, written);
      OnceShape(rec, left.value);
      BeforeTorn(rec, torn);
    }
  }

  lemma BeforeTorn(rec: Recording, torn: Option<Torn>)
    requires torn.Some? ==> !torn.value.retried
    ensures Bytes(TornFile(rec, torn)) == Concat(rec.Lines()) + if torn.Some? then torn.value.left else []
  {
    if torn.Some? {
      OnceShape(rec, torn.value);
    }
  }

  /** An append that succeeds ends the file with its line, after whatever an earlier one left. */
  lemma AppendRecords(rec: Recording, torn: Option<Torn>, raw: Line, request: StepRequest, after: Option<Line>)
    requires rec.finish.None? && IsLiveLine(raw) && TriedOnce(torn, raw)
    requires MayAppend(TornFile(rec, torn), raw, after, false)
    ensures after == TornFile(WithStep(rec, raw, request), Again(torn))
    ensures FitsTorn(WithStep(rec, raw, request), Again(torn))
  {
    var longer := WithStep(rec, raw, request);
    FrontAndRest(Bytes(TornFile(rec, torn)), after.value);
    FileGrows(rec, raw, request);
    if torn.Some? {
      assert IsLeft(torn.value.left, Terminated(raw)) by {
        assert torn.value.left[..0] == [] && torn.value.left[0..] == torn.value.left;
      }
      RetriedShape(longer, Again(torn).value);
      assert Whole(longer, Again(torn).value) == rec.Lines();
      BeforeTorn(rec, torn);
      Regroup(Concat(rec.Lines()), torn.value.left, Terminated(raw));
    }
  }

  lemma FinishRecords(rec: Recording, raw: Line, after: Option<Line>)
    requires rec.finish.None? && MayAppend(rec.File(), raw, after, false)
    ensures after == rec.(finish := Some(raw)).File()
  {
    var request := StepRequest("", "", "", "", false, ActionParsing.Observed, ReadFile, None);
    FrontAndRest(Bytes(rec.File()), after.value);
    FileGrows(rec, raw, request);
  }

  /** The recorded lines are the file's bytes exactly when no append that raised left any. */
  lemma TornExactly(rec: Recording, torn: Option<Torn>)
    requires FitsTorn(rec, torn)
    ensures Bytes(TornFile(rec, torn)) == Concat(rec.Lines()) <==> torn.None? || torn.value.left == []
  {
    if torn.Some? {
      if torn.value.retried {
        RetriedShape(rec, torn.value);
        SameAfter(Concat(Whole(rec, torn.value)), torn.value.left + Terminated(torn.value.line),
                  Terminated(torn.value.line));
      } else {
        OnceShape(rec, torn.value);
      }
    }
  }

  /* When a torn file replays. */

  /** Recorded lines cut where they were recorded, and any last chunk after them. */
  lemma {:induction false} SplitWithTail(lines: seq<Line>, tail: Line)
    requires forall line :: line in lines ==> IsTerminated(line) && IsPlain(line)
    ensures SplitLines(Concat(lines) + tail) == lines + SplitLines(tail)
  {
    if lines == [] {
      assert Concat(lines) + tail == tail && lines + SplitLines(tail) == SplitLines(tail);
    } else {
      assert Concat(lines) + tail == lines[0] + (Concat(lines[1..]) + tail);
      SplitFirst(lines[0], Concat(lines[1..]) + tail);
      SplitWithTail(lines[1..], tail);
    }
  }

  /** The tail is one line by itself, and a finish. */
  predicate IsFinishTail(parse: Parse, tail: Line) {
    tail != [] && LineEnd(tail) == |tail| && Reads(parse, tail, Finish)
  }

  predicate KeepsLines(lines: seq<Line>) {
    forall line :: line in lines ==> IsPlain(line) && |line| <= MAX_ACTION_BYTES
  }

  /** Recorded steps with bytes after them read back as the steps if and only if those bytes are a finish, or none. */
  lemma TailReplays(reader: Reader, rec: Recording, tail: Line)
    requires RejectsBlank(reader) && rec.IsLive(ParserOf(reader)) && rec.finish.None?
    ensures Loaded(reader, Some(Concat(rec.Lines()) + tail)) == Ok(rec.Executed())
      <==>
      |Concat(rec.Lines()) + tail| <= MAX_STEPS_FILE_BYTES && KeepsLines(rec.Lines())
      && (tail == [] || IsFinishTail(ParserOf(reader), tail))
  {
    var parse, file := ParserOf(reader), Concat(rec.Lines()) + tail;
    if |file| <= MAX_STEPS_FILE_BYTES {
      if KeepsLines(rec.Lines()) && (tail == [] || IsFinishTail(parse, tail)) {
        TailLoads(reader, rec, tail);
      }
      if Loaded(reader, Some(file)) == Ok(rec.Executed()) {
        LoadedTail(reader, rec, tail);
      }
    }
  }

  lemma StepReplays(reader: Reader, rec: Recording, i: nat)
    requires RejectsBlank(reader) && rec.IsLive(ParserOf(reader)) && KeepsLines(rec.Lines()) && i < |rec.steps|
    ensures Reads(ParserOf(reader), rec.Executed()[i].line, Step(rec.Executed()[i].request))
  {
    assert rec.Lines()[i] == Terminated(rec.steps[i].line);
    ReplayedParses(reader, rec.steps[i].line, Step(rec.steps[i].request));
  }

  lemma LinesAreExecuted(rec: Recording)
    requires rec.finish.None?
    ensures rec.Lines() == LinesOf(rec.Executed())
  {
  }

  lemma OneChunk(tail: Line)
    requires tail != [] && LineEnd(tail) == |tail|
    ensures SplitLines(tail) == [tail]
  {
    assert tail[..|tail|] == tail && tail[|tail|..] == [];
  }

  lemma SplitTail(parse: Parse, rec: Recording, tail: Line)
    requires rec.IsLive(parse) && rec.finish.None? && KeepsLines(rec.Lines())
    requires tail != [] ==> LineEnd(tail) == |tail|
    ensures SplitLines(Concat(rec.Lines()) + tail) == LinesOf(rec.Executed()) + if tail == [] then [] else [tail]
  {
    LinesAreTerminated(parse, rec);
    SplitWithTail(rec.Lines(), tail);
    LinesAreExecuted(rec);
    if tail != [] {
      OneChunk(tail);
    }
  }

  lemma TailLoads(reader: Reader, rec: Recording, tail: Line)
    requires RejectsBlank(reader) && rec.IsLive(ParserOf(reader)) && rec.finish.None?
    requires |Concat(rec.Lines()) + tail| <= MAX_STEPS_FILE_BYTES && KeepsLines(rec.Lines())
    requires tail == [] || IsFinishTail(ParserOf(reader), tail)
    ensures Loaded(reader, Some(Concat(rec.Lines()) + tail)) == Ok(rec.Executed())
  {
    SplitTail(ParserOf(reader), rec, tail);
    forall i | 0 <= i < |rec.Executed()|
      ensures Reads(ParserOf(reader), rec.Executed()[i].line, Step(rec.Executed()[i].request)) {
      StepReplays(reader, rec, i);
    }
    StepsOfSteps(ParserOf(reader), rec.Executed(), if tail == [] then [] else [tail], 0);
  }

  /** A file cut into some first lines and at most one chunk after them. */
  lemma CutAfter(file: Line, lines: seq<Line>)
    requires var chunks := SplitLines(file); |lines| <= |chunks| <= |lines| + 1 && chunks[..|lines|] == lines
    ensures Concat(lines) <= file
    ensures file[|Concat(lines)|..] == if |SplitLines(file)| == |lines| then [] else SplitLines(file)[|lines|]
  {
    var chunks, n := SplitLines(file), |lines|;
    ConcatSplit(file);
    assert chunks == lines + chunks[n..];
    ConcatAppend(lines, chunks[n..]);
    OneOrNone(chunks[n..]);
    SameAfter(Concat(lines), Concat(chunks[n..]), []);
  }

  lemma ParsedFits(reader: Reader, line: Line)
    requires ParserOf(reader)(line).Ok?
    ensures |line| <= MAX_ACTION_BYTES
  {
    assert ParseLine(reader, line).Ok?;
  }

  /** Recorded lines that are chunks of what was loaded are each one line within the bound. */
  lemma ChunksAreKept(reader: Reader, lines: seq<Line>, chunks: seq<Line>)
    requires forall line :: line in lines ==> IsTerminated(line) && line in chunks
    requires forall c :: c in chunks ==> c != [] && LineEnd(c) == |c|
    requires forall c :: c in chunks ==> ParserOf(reader)(c).Ok?
    ensures KeepsLines(lines)
  {
    forall line | line in lines ensures IsPlain(line) && |line| <= MAX_ACTION_BYTES {
      PlainIsOneLine(line);
      ParsedFits(reader, line);
    }
  }

  /** Of a file that loads as the executed steps: their lines, and what stands after them if anything does. */
  lemma LoadedChunks(reader: Reader, rec: Recording, file: Line)
    requires rec.IsLive(ParserOf(reader)) && rec.finish.None?
    requires Loaded(reader, Some(file)) == Ok(rec.Executed())
    ensures KeepsLines(rec.Lines()) && Concat(rec.Lines()) <= file
    ensures var tail := file[|Concat(rec.Lines())|..]; tail == [] || IsFinishTail(ParserOf(reader), tail)
  {
    var parse, chunks := ParserOf(reader), SplitLines(file);
    LoadedAreChunks(parse, chunks, 0);
    ChunksAreLines(file);
    LinesAreExecuted(rec);
    CutAfter(file, rec.Lines());
    forall line | line in rec.Lines() ensures line in chunks {
      assert line in chunks[..|rec.steps|];
    }
    LinesAreTerminated(parse, rec);
    ChunksAreKept(reader, rec.Lines(), chunks);
  }

  lemma LoadedTail(reader: Reader, rec: Recording, tail: Line)
    requires rec.IsLive(ParserOf(reader)) && rec.finish.None?
    requires Loaded(reader, Some(Concat(rec.Lines()) + tail)) == Ok(rec.Executed())
    ensures KeepsLines(rec.Lines()) && (tail == [] || IsFinishTail(ParserOf(reader), tail))
  {
    LoadedChunks(reader, rec, Concat(rec.Lines()) + tail);
    SameAfter(Concat(rec.Lines()), tail, tail);
  }

  lemma ShiftedBack(line: Line, left: Line, tail: Line, at: nat)
    requires left + line == line + tail && |left| <= at < |line|
    ensures line[at - |left|] == line[at]
  {
    assert (left + line)[at] == line[at - |left|] && (line + tail)[at] == line[at];
  }

  /** A terminated line and a beginning of it commute only if that beginning is none of it or all of it. */
  lemma SamePeriod(line: Line, left: Line, tail: Line)
    requires IsTerminated(line) && left <= line && left != [] && left + line == line + tail
    ensures tail == line
  {
    if |left| < |line| {
      ShiftedBack(line, left, tail, |line| - 1);
      assert false;
    }
    SameAfter(line, line, tail);
  }

  /** If a torn file with its line again starts with the recorded lines, what follows them is that line once more. */
  lemma RetriedTail(rec: Recording, torn: Torn, tail: Line)
    requires FitsTorn(rec, Some(torn)) && torn.retried && torn.left != []
    requires TornBytes(rec, torn) == Concat(rec.Lines()) + tail
    ensures tail == Terminated(rec.steps[|rec.steps| - 1].line) != []
  {
    var whole, last := Concat(Whole(rec, torn)), Terminated(torn.line);
    RetriedShape(rec, torn);
    Regroup(whole, last, tail);
    SameAfter(whole, torn.left + last, last + tail);
    TerminatedIs(torn.line);
    SamePeriod(last, torn.left, tail);
  }

  lemma RestIs(rec: Recording, torn: Torn)
    requires FitsTorn(rec, Some(torn)) && torn.retried && torn.left != []
    requires Concat(rec.Lines()) <= TornBytes(rec, torn)
    ensures TornBytes(rec, torn)[|Concat(rec.Lines())|..] == Terminated(rec.steps[|rec.steps| - 1].line) != []
  {
    FrontAndRest(Concat(rec.Lines()), TornBytes(rec, torn));
    RetriedTail(rec, torn, TornBytes(rec, torn)[|Concat(rec.Lines())|..]);
  }

  /** A recorded step does not read as a finish. */
  lemma StepIsNoFinish(reader: Reader, rec: Recording, i: nat)
    requires rec.IsLive(ParserOf(reader)) && i < |rec.steps|
    ensures !Reads(ParserOf(reader), Terminated(rec.steps[i].line), Finish)
  {
    RecordedParses(reader, rec.steps[i].line);
    assert ParserOf(reader)(rec.steps[i].line) == Ok(Step(rec.steps[i].request));
  }

  /** With the torn bytes before the line that was appended again, the file never reads back as what was executed. */
  lemma RetriedNeverReplays(reader: Reader, rec: Recording, torn: Torn)
    requires rec.IsLive(ParserOf(reader)) && FitsTorn(rec, Some(torn)) && torn.retried && torn.left != []
    ensures Loaded(reader, Some(TornBytes(rec, torn))) != Ok(rec.Executed())
  {
    if Loaded(reader, Some(TornBytes(rec, torn))) == Ok(rec.Executed()) {
      LoadedChunks(reader, rec, TornBytes(rec, torn));
      RestIs(rec, torn);
      StepIsNoFinish(reader, rec, |rec.steps| - 1);
    }
  }

  /** The recorded lines are cut where they were recorded, and the torn bytes are none, or a finish at the end. */
  predicate ReplaysTorn(parse: Parse, rec: Recording, torn: Option<Torn>) {
    if torn.None? then rec.IsReplayable()
    else
      && |TornBytes(rec, torn.value)| <= MAX_STEPS_FILE_BYTES && KeepsLines(rec.Lines())
      && (torn.value.left == [] || (!torn.value.retried && IsFinishTail(parse, torn.value.left)))
  }

  /** For every recording and every torn end: it reads back as what was executed if and only if `ReplaysTorn`. */
  lemma TornReplay(reader: Reader, rec: Recording, torn: Option<Torn>)
    requires RejectsBlank(reader) && rec.IsLive(ParserOf(reader)) && FitsTorn(rec, torn)
    ensures Loaded(reader, TornFile(rec, torn)) == Ok(rec.Executed()) <==> ReplaysTorn(ParserOf(reader), rec, torn)
  {
    if torn.None? {
      ReplayIdentity(reader, rec);
    } else if !torn.value.retried {
      OnceShape(rec, torn.value);
      TailReplays(reader, rec, torn.value.left);
    } else if torn.value.left == [] {
      TornExactly(rec, torn);
      assert TornBytes(rec, torn.value) == Concat(rec.Lines()) + [];
      TailReplays(reader, rec, []);
    } else {
      RetriedNeverReplays(reader, rec, torn.value);
    }
  }

  lemma DoubledFiles(rec: Recording, line: Line, request: StepRequest)
    requires rec.finish.None?
    ensures var once, twice := WithStep(rec, line, request), WithStep(WithStep(rec, line, request), line, request);
      && MayAppend(rec.File(), line, once.File(), true) && MayAppend(once.File(), line, twice.File(), false)
      && twice.File() == TornFile(once, Some(Torn(line, Terminated(line), true)))
      && twice.Executed() == once.Executed() + [Replay(Terminated(line), request)]
  {
    var once := WithStep(rec, line, request);
    FileGrows(rec, line, request);
    FileGrows(once, line, request);
    assert Whole(once, Torn(line, Terminated(line), true)) == rec.Lines();
    assert Bytes(rec.File()) == Concat(rec.Lines());
  }

  /**
   An append may raise when all its bytes are in the file, and the line is then appended again: the file is the
   one of a run that executed the step twice, and that is what it replays.
   */
  lemma DoubledLine(reader: Reader, rec: Recording, line: Line, request: StepRequest)
    requires RejectsBlank(reader) && rec.finish.None?
    requires WithStep(WithStep(rec, line, request), line, request).IsLive(ParserOf(reader))
    requires WithStep(WithStep(rec, line, request), line, request).IsReplayable()
    ensures var once, twice := WithStep(rec, line, request), WithStep(WithStep(rec, line, request), line, request);
      && MayAppend(rec.File(), line, once.File(), true) && MayAppend(once.File(), line, twice.File(), false)
      && twice.File() == TornFile(once, Some(Torn(line, Terminated(line), true)))
      && Loaded(reader, twice.File()) == Ok(once.Executed() + [Replay(Terminated(line), request)])
  {
    DoubledFiles(rec, line, request);
    ReplayIdentity(reader, WithStep(WithStep(rec, line, request), line, request));
  }
}
