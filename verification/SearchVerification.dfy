/** How the runner judges one step: the tool outcome, the search verification and the classification. */
module SearchVerification {
  import opened Common
  import opened ActionParsing
  import opened SearchSnapshot
  import SnapshotMeaning
  import Text
  import WorkspaceTree

  /** SHA-256 digests, rendered as text, of the byte strings the runner hashes. */
  datatype Hashes = Hashes(
    output: string -> string,
    content: string -> string,
    listing: string -> string,
    glob: (string, string) -> string)

  datatype Outcome = Outcome(
    eventType: Json,
    success: bool,
    error: Json,
    output: Json,
    truncated: Json,
    fixtureTruncated: Json,
    dispatched: Json,
    ambiguous: Json,
    fixtureResult: Json)

  function OnlyString(value: Json): Json {
    if value.IsString() then value else Null
  }

  /** `_tool_outcome`: the outcome of the single matching event, if it is well formed. */
  function ToolOutcome(events: seq<Json>, fixtureOutcome: Json): Option<Outcome>
    requires forall e :: e in events ==> e.Obj?
  {
    if |events| != 1 then None
    else
      var event := events[0];
      var kind := event.Get("type");
      var denied := kind == Str("tool.denied");
      var succeeded :=
        if kind == Str("tool.completed") && event.Get("success").Bool? then Some(event.Get("success").b)
        else if kind == Str("tool.error") && event.Get("error").IsString() then Some(false)
        else if denied && event.Get("reason").IsString() then Some(false)
        else None;
      if succeeded.None? then None
      else Some(Outcome(
        kind,
        succeeded.value,
        OnlyString(if denied then event.Get("reason") else event.Get("error")),
        OnlyString(event.Get("output")),
        event.Get("truncated"),
        if fixtureOutcome.Obj? then fixtureOutcome.Get("truncated") else Null,
        if denied then Bool(false) else event.Get("dispatched"),
        if denied then Bool(false) else event.Get("ambiguous"),
        fixtureOutcome))
  }

  datatype Verification = Verification(
    verified: bool,
    evidenceComplete: bool,
    beforeSha256: Option<string>,
    afterSha256: Option<string>,
    expectedMatchCount: Option<nat>,
    actualMatchCount: Option<nat>,
    expectedOutputSha256: Option<string>,
    actualOutputSha256: Option<string>,
    eventTruncated: Option<bool>,
    fixtureTruncated: Option<bool>,
    detail: Option<string>)

  function AsBool(value: Json): Option<bool> {
    if value.Bool? then Some(value.b) else None
  }

  function ShaOf(s: Option<Snapshot>): Option<string> {
    if s.Some? then s.value.sha256 else None
  }

  function OutputRecords(output: string): seq<string> {
    if output == "" then [] else Text.Split('\n', output)
  }

  function VerifySearch(hashes: Hashes, before: Option<Snapshot>, after: Option<Snapshot>, outcome: Option<Outcome>,
                        eventCount: nat): Verification
    requires before.Some? && before.value.complete ==> before.value.expectedMatches.Some?
  {
    var expected := if before.Some? then before.value.expectedMatches else None;
    var start := Verification(
      false, false, ShaOf(before), ShaOf(after),
      if expected.Some? then Some(|expected.value|) else None, None,
      if expected.Some? then Some(hashes.output(Text.Join('\n', expected.value))) else None, None, None, None, None);
    if before.None? || !before.value.complete then
      start.(detail := if before.Some? then before.value.detail else Some("missing pre-snapshot"))
    else if after.None? || !after.value.complete then
      start.(detail := if after.Some? then after.value.detail else Some("missing post-snapshot"))
    else if eventCount != 1 || outcome.None? then start.(detail := Some("missing or multiple search tool events"))
    else if !outcome.value.fixtureResult.Obj? then start.(detail := Some("missing fixture tool result"))
    else
      var o := outcome.value;
      var fixture := o.fixtureResult;
      var parsed := fixture.Get("truncated");
      var seen := start.(eventTruncated := AsBool(o.truncated), fixtureTruncated := AsBool(o.fixtureTruncated));
      var judged := seen.(evidenceComplete := true);
      if !o.truncated.Bool? || !o.fixtureTruncated.Bool? || !parsed.Bool? then
        seen.(detail := Some("truncation metadata is missing or invalid"))
      else if o.fixtureTruncated != parsed then judged.(detail := Some("captured fixture truncation is inconsistent"))
      else if !o.success || !fixture.Get("success").IsTrue() then
        judged.(detail := Some("search tool did not report explicit success"))
      else if !o.ambiguous.IsFalse() then seen.(detail := Some("search outcome is not explicitly unambiguous"))
      else if o.truncated != o.fixtureTruncated then
        judged.(detail := Some("tool event and fixture truncation disagree"))
      else if !o.truncated.IsFalse() then judged.(detail := Some("search result was truncated"))
      else if fixture.Get("output") != o.output || fixture.Get("error") != o.error then
        judged.(detail := Some("tool event and fixture result disagree"))
      else if before.value.sha256 != after.value.sha256 then
        judged.(detail := Some("workspace changed during search dispatch"))
      else if !o.output.IsString() then seen.(detail := Some("search output is missing"))
      else if o.output.LoneSurrogate? then judged.(detail := Some("search output is not valid UTF-8"))
      else if Text.Utf8Size(o.output.s) > MAX_SEARCH_OUTPUT_BYTES then
        judged.(detail := Some("search output exceeds the rendered limit"))
      else
        var records := OutputRecords(o.output.s);
        var counted :=
          judged.(actualOutputSha256 := Some(hashes.output(o.output.s)), actualMatchCount := Some(|records|));
        if multiset(records) != multiset(before.value.expectedMatches.value) then
          counted.(detail := Some("search output does not match workspace contents"))
        else counted.(verified := true)
  }

  datatype Classification =
    | ExpectedSuccessSeen
    | ExpectedRefusalSeen
    | ObservedSeen
    | UnexpectedFailure
    | UnexpectedSuccess
    | AmbiguousOutcome
    | DriverFailure

  datatype ProcessStatus = ProcessStatus(
    exitCode: Option<int>,
    launchError: string,
    timedOut: bool,
    outputLimited: bool,
    stdoutTruncated: bool,
    stderrTruncated: bool,
    sessionIdInResult: bool)

  /** Everything `_classify` is given besides the request. */
  datatype Evidence = Evidence(
    status: ProcessStatus,
    outcome: Option<Outcome>,
    beforeHash: Option<string>,
    afterHash: Option<string>,
    malformedLines: seq<nat>,
    fixtureError: string,
    directoryListing: Option<string>,
    search: Option<Verification>)

  predicate DriverFailed(e: Evidence) {
    || e.status.launchError != "" || e.status.timedOut || e.status.outputLimited
    || e.status.stdoutTruncated || e.status.stderrTruncated
    || e.fixtureError != "" || e.malformedLines != []
  }

  function FirstLine(text: string): string {
    Text.Split('\n', text)[0]
  }

  function ClassifySuccess(hashes: Hashes, r: StepRequest, e: Evidence, o: Outcome): Classification {
    match r.tool
    case SearchText =>
      if !o.success then UnexpectedFailure
      else if e.search.None? then ObservedSeen
      else if e.search.value.verified then ExpectedSuccessSeen
      else if !e.search.value.evidenceComplete then ObservedSeen
      else UnexpectedFailure
    case ReadFile =>
      if o.success && e.beforeHash.Some? && e.beforeHash == e.afterHash && o.output.Str?
         && Text.StartsWith(o.output.s, "[read_file metadata: ")
         && Text.Contains(FirstLine(o.output.s), "; sha256=" + e.beforeHash.value + ";")
      then ExpectedSuccessSeen else UnexpectedFailure
    case WriteFile =>
      if o.success && e.afterHash == Some(hashes.content(r.content)) then ExpectedSuccessSeen else UnexpectedFailure
    case _ =>
      if o.success && e.directoryListing.Some? && e.beforeHash.Some? && e.beforeHash == e.afterHash
         && o.output == Str(e.directoryListing.value)
         && Some(if r.tool.ListDir? then hashes.listing(e.directoryListing.value)
                 else hashes.glob(r.filePath, e.directoryListing.value)) == e.afterHash
      then ExpectedSuccessSeen else UnexpectedFailure
  }

  function ClassifyRefusal(r: StepRequest, e: Evidence, o: Outcome, refusalText: string): Classification {
    if o.success then UnexpectedSuccess
    else if !o.error.Str? || !Text.Contains(o.error.s, refusalText) then UnexpectedFailure
    else if r.tool.SearchText? then
      if !o.ambiguous.IsFalse() then UnexpectedFailure
      else if e.search.None? || e.search.value.beforeSha256.None? || e.search.value.afterSha256.None? then
        UnexpectedFailure
      else if e.search.value.beforeSha256 != e.search.value.afterSha256 then UnexpectedFailure
      else ExpectedRefusalSeen
    else if e.beforeHash != e.afterHash then UnexpectedFailure
    else ExpectedRefusalSeen
  }

  predicate IsAmbiguous(e: Evidence) {
    e.outcome.Some? && e.outcome.value.ambiguous.IsTrue()
  }

  function Classify(hashes: Hashes, r: StepRequest, e: Evidence): Classification {
    if r.tool.SearchText? && IsAmbiguous(e) then AmbiguousOutcome
    else if DriverFailed(e) then DriverFailure
    else if e.status.exitCode != Some(0) then UnexpectedFailure
    else if IsAmbiguous(e) then AmbiguousOutcome
    else if r.expectation.Observed? then ObservedSeen
    else if !e.status.sessionIdInResult then DriverFailure
    else if e.outcome.None? then UnexpectedFailure
    else if r.expectation.ExpectedSuccess? then ClassifySuccess(hashes, r, e, e.outcome.value)
    else ClassifyRefusal(r, e, e.outcome.value, r.expectation.errorContains)
  }

  /* Exact characterisation of a verified search. */

  ghost predicate IsPermutation(a: seq<string>, b: seq<string>) {
    multiset(a) == multiset(b)
  }

  /** The output is the newline join of the expected records in some order. */
  ghost predicate IsJoinOfMatches(output: Json, matches: seq<string>) {
    exists p: seq<string> :: IsPermutation(p, matches) && output == Str(Text.Join('\n', p))
  }

  predicate IsRecord(s: string) {
    s != "" && '\n' !in s
  }

  lemma JoinNotEmpty(parts: seq<string>)
    requires parts != [] && parts[0] != ""
    ensures Text.Join('\n', parts) != ""
  {
  }

  /** Splitting a join of plain non-empty records gives the records back, in order. */
  lemma RecordsOfJoin(parts: seq<string>)
    requires forall p :: p in parts ==> IsRecord(p)
    ensures OutputRecords(Text.Join('\n', parts)) == parts
  {
    if parts != [] {
      assert IsRecord(parts[0]);
      JoinNotEmpty(parts);
      Text.SplitJoin('\n', parts);
    }
  }

  lemma JoinOfRecords(output: string)
    ensures Text.Join('\n', OutputRecords(output)) == output
  {
    Text.JoinSplit('\n', output);
  }

  /** Any order of the records joins to the same number of bytes. */
  lemma PermutedSize(p: seq<string>, matches: seq<string>)
    requires IsPermutation(p, matches)
    ensures Text.Utf8Size(Text.Join('\n', p)) == Text.Utf8Size(Text.Join('\n', matches))
  {
    Text.TotalSizePermuted(p, matches);
    Text.JoinedSizeIsSize(p);
    Text.JoinedSizeIsSize(matches);
  }

  lemma OutputMatchesExactly(output: Json, matches: seq<string>)
    requires forall m :: m in matches ==> IsRecord(m)
    requires Text.Utf8Size(Text.Join('\n', matches)) <= MAX_SEARCH_OUTPUT_BYTES
    ensures IsJoinOfMatches(output, matches)
      <==> && output.Str?
           && Text.Utf8Size(output.s) <= MAX_SEARCH_OUTPUT_BYTES
           && multiset(OutputRecords(output.s)) == multiset(matches)
  {
    if IsJoinOfMatches(output, matches) {
      var p: seq<string> :| IsPermutation(p, matches) && output == Str(Text.Join('\n', p));
      PermutedSize(p, matches);
      forall m | m in p ensures IsRecord(m) {
        assert m in multiset(p);
        assert m in multiset(matches);
        assert m in matches;
      }
      RecordsOfJoin(p);
    } else if output.Str? {
      JoinOfRecords(output.s);
      assert !IsPermutation(OutputRecords(output.s), matches);
    }
  }

  /** A search step whose evidence is clean in every respect but the output itself. */
  ghost predicate CleanSearch(r: StepRequest, e: Evidence, events: seq<Json>, fixtureOutcome: Json,
                              before: Snapshot, after: Snapshot) {
    && r.tool.SearchText? && r.expectation.ExpectedSuccess?
    && !DriverFailed(e) && e.status.exitCode == Some(0) && e.status.sessionIdInResult
    && (forall event :: event in events ==> event.Obj?)
    && e.outcome == ToolOutcome(events, fixtureOutcome) && e.outcome.Some?
    && e.outcome.value.success && e.outcome.value.ambiguous.IsFalse() && e.outcome.value.truncated.IsFalse()
    && fixtureOutcome.Obj? && fixtureOutcome.Get("success").IsTrue() && fixtureOutcome.Get("truncated").IsFalse()
    && fixtureOutcome.Get("output") == e.outcome.value.output && fixtureOutcome.Get("error") == e.outcome.value.error
    && before.complete && after.complete && before.sha256 == after.sha256
  }

  /** Everything a verified search has shown, whatever the inputs were. */
  lemma VerifiedEvidence(hashes: Hashes, before: Option<Snapshot>, after: Option<Snapshot>, outcome: Option<Outcome>,
                         eventCount: nat)
    requires before.Some? && before.value.complete ==> before.value.expectedMatches.Some?
    requires VerifySearch(hashes, before, after, outcome, eventCount).verified
    ensures eventCount == 1
    ensures before.Some? && after.Some? && before.value.complete && after.value.complete
        && before.value.sha256 == after.value.sha256
    ensures outcome.Some? && outcome.value.success && outcome.value.ambiguous.IsFalse()
        && outcome.value.truncated.IsFalse()
    ensures outcome.value.fixtureResult.Obj? && outcome.value.fixtureResult.Get("output") == outcome.value.output
    ensures IsJoinOfMatches(outcome.value.output, before.value.expectedMatches.value)
  {
    var output := outcome.value.output.s;
    JoinOfRecords(output);
  }

  /** With clean evidence, only the output is left to decide the verification. */
  lemma CleanVerification(hashes: Hashes, r: StepRequest, e: Evidence, events: seq<Json>, fixtureOutcome: Json,
                          before: Snapshot, after: Snapshot)
    requires before.expectedMatches.Some?
    requires CleanSearch(r, e, events, fixtureOutcome, before, after)
    ensures VerifySearch(hashes, Some(before), Some(after), e.outcome, |events|).verified
      <==> && e.outcome.value.output.Str?
           && Text.Utf8Size(e.outcome.value.output.s) <= MAX_SEARCH_OUTPUT_BYTES
           && multiset(OutputRecords(e.outcome.value.output.s)) == multiset(before.expectedMatches.value)
  {
    assert |events| == 1;
  }

  lemma CleanClassification(hashes: Hashes, r: StepRequest, e: Evidence, events: seq<Json>, fixtureOutcome: Json,
                            before: Snapshot, after: Snapshot)
    requires CleanSearch(r, e, events, fixtureOutcome, before, after) && e.search.Some?
    ensures Classify(hashes, r, e) == ExpectedSuccessSeen <==> e.search.value.verified
  {
  }

  /**
   A clean search is an expected success exactly when its output is the newline join of the
   workspace's matches in some order; no such output is lost to the output byte bound.
   */
  lemma SearchSuccessExactly(lib: Library, hashes: Hashes, q: Query, root: WorkspaceTree.Node,
                              r: StepRequest, e: Evidence, events: seq<Json>, fixtureOutcome: Json,
                              before: Snapshot, after: Snapshot)
    requires Within(lib, q, root) && before.expectedMatches == Some(SpecMatches(lib, q, root))
    requires CleanSearch(r, e, events, fixtureOutcome, before, after)
    requires e.search == Some(VerifySearch(hashes, Some(before), Some(after), e.outcome, |events|))
    ensures Classify(hashes, r, e) == ExpectedSuccessSeen
      <==> IsJoinOfMatches(e.outcome.value.output, SpecMatches(lib, q, root))
  {
    CleanVerification(hashes, r, e, events, fixtureOutcome, before, after);
    CleanClassification(hashes, r, e, events, fixtureOutcome, before, after);
    MatchesAreJoinable(lib, q, root);
    OutputMatchesExactly(e.outcome.value.output, SpecMatches(lib, q, root));
  }

  lemma MatchesAreJoinable(lib: Library, q: Query, root: WorkspaceTree.Node)
    requires Within(lib, q, root)
    ensures forall m :: m in SpecMatches(lib, q, root) ==> IsRecord(m)
    ensures Text.Utf8Size(Text.Join('\n', SpecMatches(lib, q, root))) <= MAX_SEARCH_OUTPUT_BYTES
  {
    forall m | m in SpecMatches(lib, q, root) ensures IsRecord(m) {
      SnapshotMeaning.SpecMatchesPlain(lib, q, root, m);
    }
  }

  /* What a pass and an ambiguous verdict mean for every tool. */

  /** A clean, zero-exit, identified process with an unambiguous outcome. */
  predicate IsClean(e: Evidence) {
    && !DriverFailed(e) && e.status.exitCode == Some(0) && e.status.sessionIdInResult
    && e.outcome.Some? && !IsAmbiguous(e)
  }

  predicate Unchanged(e: Evidence) {
    e.beforeHash.Some? && e.beforeHash == e.afterHash
  }

  /** The tool's own evidence of success: the content written or read, the listing given, or the search verified. */
  predicate ShowsSuccess(hashes: Hashes, r: StepRequest, e: Evidence)
    requires e.outcome.Some?
  {
    var o := e.outcome.value;
    && o.success
    && match r.tool
       case WriteFile => e.afterHash == Some(hashes.content(r.content))
       case ReadFile =>
         && Unchanged(e) && o.output.Str? && Text.StartsWith(o.output.s, "[read_file metadata: ")
         && Text.Contains(FirstLine(o.output.s), "; sha256=" + e.beforeHash.value + ";")
       case SearchText => e.search.Some? && e.search.value.verified
       case ListDir =>
         && Unchanged(e) && e.directoryListing.Some? && o.output == Str(e.directoryListing.value)
         && e.afterHash == Some(hashes.listing(e.directoryListing.value))
       case GlobFiles =>
         && Unchanged(e) && e.directoryListing.Some? && o.output == Str(e.directoryListing.value)
         && e.afterHash == Some(hashes.glob(r.filePath, e.directoryListing.value))
  }

  /** A failure with the declared text that left the target, or for a search the workspace, as it was. */
  predicate ShowsRefusal(r: StepRequest, e: Evidence)
    requires e.outcome.Some? && r.expectation.ExpectedRefusal?
  {
    var o := e.outcome.value;
    && !o.success && o.error.Str? && Text.Contains(o.error.s, r.expectation.errorContains)
    && if r.tool.SearchText? then
         && o.ambiguous.IsFalse() && e.search.Some? && e.search.value.beforeSha256.Some?
         && e.search.value.beforeSha256 == e.search.value.afterSha256
       else e.beforeHash == e.afterHash
  }

  /** For every tool: what a pass is, in both directions. */
  lemma PassExactly(hashes: Hashes, r: StepRequest, e: Evidence)
    ensures Classify(hashes, r, e) == ExpectedSuccessSeen
      <==> IsClean(e) && r.expectation.ExpectedSuccess? && ShowsSuccess(hashes, r, e)
    ensures Classify(hashes, r, e) == ExpectedRefusalSeen
      <==> IsClean(e) && r.expectation.ExpectedRefusal? && ShowsRefusal(r, e)
  {
  }

  /**
   When an ambiguous outcome takes precedence: always for a search, and for the other tools
   only over the verdicts that come after a clean zero exit.
   */
  lemma AmbiguityExactly(hashes: Hashes, r: StepRequest, e: Evidence)
    ensures Classify(hashes, r, e) == AmbiguousOutcome
      <==> IsAmbiguous(e) && (r.tool.SearchText? || (!DriverFailed(e) && e.status.exitCode == Some(0)))
  {
  }

  /** An ambiguous write whose process timed out is reported as a driver failure instead. */
  lemma AmbiguityNotAlwaysFirst(hashes: Hashes, r: StepRequest)
    requires r.tool.WriteFile?
    ensures var status := ProcessStatus(None, "", true, false, false, false, false);
            var outcome := Outcome(Str("tool.error"), false, Str("x"), Null, Null, Null, Null, Bool(true), Null);
            Classify(hashes, r, Evidence(status, Some(outcome), None, None, [], "", None, None)) == DriverFailure
  {
  }
}
