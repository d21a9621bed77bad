# Ash: verification of its protocol, evidence and file-handling core

This project models, in Dafny, the parts of the Ash repository that carry real state, and proves
properties of the model for every input, every interleaving and every run. One module stands for
one component:

| component | modules |
|---|---|
| Explorer runner: strict action reading, recording and replay | `ActionParsing`, `RunnerReplay`, `TornRecording`, `RunnerLive` |
| Explorer runner: fixture provider | `FixtureServer` |
| Explorer runner: workspace snapshot, search verification, classification | `WorkspaceTree`, `SearchSnapshot`, `SnapshotMeaning`, `SearchVerification` |
| Explorer controller: decision log, run, verdicts, redaction | `DecisionLog`, `Controller`, `LogFailure`, `ControllerRun`, `WriteReadVerdict`, `RequiredProbes`, `Redaction` |
| Controller and runner together | `ComposedProtocol`, `RunnerRefinement` |
| Anchored file operations | `Filesystem`, `TreeRemoval`, `AtomicWrite` |
| Bounded subprocess capture | `SubprocessCapture` |
| Rotating log sink | `LogRotation` |
| Environment ownership and layered configuration | `EnvironmentOwnership`, `ConfigLayers` |
| Span observer | `SpanObserver` |
| Shared values | `Common`, `Text` |

## How the model is built

Code that changes things step by step is imperative here too: the disk, the log sink, the process
environment, the configuration builder, the observer, the fixture, the runner's state and the
controller's run are classes, and the scans over lists are loops. Each method is proved against a
specification that does not mention its loop: a recursive definition, a closed form over the history
of calls, or a state machine whose reachable states are then studied by lemmas.

System calls, timeouts, cancellation, process death, short writes and provider answers are
nondeterministic choices; a method that verifies is correct for all of them. Where the source is a
concurrent or distributed system (`SubprocessCapture`, `Controller`, `ComposedProtocol`) there is an
explicit transition relation, an invariant of every run, and a method that is proved to perform only
runs of that relation. In `ControllerRun` the run's local variables are the fields of one record,
updated in place in source order; every update is recorded as one move of the state machine, so each
theorem about runs applies to the method; each of its steps keeps the run so far and only extends it. In
`RunnerRefinement` the handling of one line is proved to be one step of the composed protocol's runner.

An append that raises may leave any part of what it was to write. `TornRecording` follows this through the
recording of actions, and `LogFailure` through the controller's log, whose other theorems are about appends
that succeed. A system call that fails is counted in a ghost counter of the disk or the log sink, so a contract can say which
failure it takes for a result to be incomplete.

Hashes are compared by equality only. JSON is a datatype; reading its text, decoding UTF-8, glob
matching and rendering are functions that the theorems leave arbitrary.

## Properties that do not hold, and exactly when they do

* A record of a run is not always replayable. JSON allows a raw carriage return between tokens
  (section 2 of RFC 8259), the live reader accepts it, and the replay reader cuts the line there.
  `RunnerReplay.ReplayIdentity` gives the exact condition, `RunnerReplay.InteriorReturn` a finish line that
  is accepted live and does not replay, whatever else the reader knows. The same condition covers a final line that exceeds the action
  bound only once its newline is added, and a run that recorded nothing and so left no file.
* An action is not always recorded once. An append that raises may leave the whole line or a part of it, and the
  failure it causes appends the line again. `RunnerLive.RunState.RunLive` shows that the file's bytes are the accepted lines
  if and only if no append that raised left any; `TornRecording.TornReplay` is exact about what still replays, and
  `TornRecording.DoubledLine` shows the file of a step executed once that replays it twice.
* The decision log does not always keep its grammar when an append to it raises: an entry may stand in the log
  that the controller takes for lost, and is then contradicted. `LogFailure.LogsBreakExactly` and
  `LogFailure.EndsResolvedExactly` are exact; `LogFailure.KeptAckBreaks` extends any run that awaits its finish to
  one whose acknowledgement is followed by an unknown. No report claims more for it
  (`LogFailure.ReturnedReportsExactly`, `LogFailure.WrittenReportsStillExact`).
* The report that the controller writes to the evidence directory may say `finished` without an error
  although nothing was acknowledged: the status is set when the finish is sent, and a cancellation while
  the acknowledgement is awaited passes no handler. `Controller.WrittenReportsExactly` shows that a run writes
  such a report if and only if an exception that no handler catches left that wait; `Controller.CutOffReport` extends any run that
  awaits its finish to one that writes such a report. The report that is returned is always right
  (`Controller.ReturnedReportsAreTrue`).
* Replacing a run path does not always remove it: the bracketed replacement can complete a beginning of
  the path that stands before it. `Redaction.ReplaceRemovesExactly` gives the exact condition for an
  absolute path, `Redaction.ListRemovesExactly` for one path of a list, `Redaction.FirstRemovedExactly` and
  `Redaction.LastRemovedExactly` for each of a run's two paths beside a safe one; `Redaction.UnsafeSurvive` shows one path that leaks and one relative path that survives.
* Promotion of a legacy key overwrites `ANTHROPIC_API_KEY` when the user has set it to the empty string.
  `EnvironmentOwnership.PromotionTouchesUserExactly` is exact; `EnvironmentOwnership.EmptyKeyIsOverwritten` is
  the witness.
* An ambiguous outcome does not always take precedence in the classification: it does for searches, and for
  other tools only over the verdicts that follow a clean zero exit (`SearchVerification.AmbiguityExactly`, with a
  witness in `SearchVerification.AmbiguityNotAlwaysFirst`).

## Model

| member | source | states |
|---|---|---|
| `ActionParsing.ReadingLosesNothing` | devtools/ash_explorer.py:1080-1261 | A line accepted as a step is exactly the encoding of the request it was read as: nothing in it is ignored, defaulted or rewritten. |
| `ActionParsing.EncodedParses` | devtools/ash_explorer.py:1080-1261 | A request's encoding parses back to that request exactly when each of its parts is within its bounds and fits its tool. |
| `ActionParsing.ArgumentsKept` | devtools/ash_explorer.py:124-148 | For each of the five tools, `tool_arguments` of the request is the arguments object of the line it came from. |
| `RunnerReplay.LoadReplaySteps` | devtools/ash_explorer.py:2255-2279 | The loader's loop computes the recursive reading of the split file, errors and step limit included. |
| `RunnerReplay.ReplayIdentity` | devtools/ash_explorer.py:2255-2279 | Loading a recorded run gives back its executed lines and requests in order if and only if something was recorded, no recorded line has a carriage return before its ending, each fits the action bound with its newline, and the file fits the steps-file bound. |
| `RunnerReplay.RecordedParses` | devtools/ash_explorer.py:533-539 | The newline that recording adds changes how a line parses only by pushing it over the action bound. |
| `RunnerReplay.SplitConcat` | devtools/ash_explorer.py:2265-2267 | Splitting the concatenation of plain terminated lines gives the lines back. |
| `RunnerReplay.LoadedAreChunks` | devtools/ash_explorer.py:2268-2279 | A successful load returns the chunks of the file in order, all of them but an optional last finish. |
| `RunnerReplay.ExecutedArguments` | devtools/ash_explorer.py:124-148 | Each executed request's tool arguments are the arguments object of its recorded line. |
| `RunnerReplay.InteriorReturn` | devtools/ash_explorer.py:2265-2279 | For every reader that decodes it as a finish, a finish with a carriage return between two tokens is accepted live and does not replay to what was executed; it is refused if the text before the return is no JSON. |
| `TornRecording.TornExactly` | devtools/ash_explorer.py:533-539 | The file's bytes are the recorded lines if and only if no append that raised left any. |
| `TornRecording.TornReplay` | devtools/ash_explorer.py:2255-2279 | For every recording and all that appends which raised may leave: the file loads as what was executed if and only if its lines are cut where they were recorded, the file is within its bound, and the rest is nothing, or one readable finish at the end whose append was not repeated. |
| `TornRecording.DoubledLine` | devtools/ash_explorer.py:2194-2201 | If an append raises when all its bytes are in the file, the repeated one makes a file that replays the step twice, for every run short of the limits. |
| `RunnerLive.ReadLiveLine` | devtools/ash_explorer.py:2103-2111 | The input's whole next line is returned and the rest is left, unless the line is over the action bound; nothing is returned exactly at the end of the input. |
| `RunnerLive.RunState.AppendAcceptedLine` | devtools/ash_explorer.py:533-539 | The file grows by the line with exactly one newline at its end; or the call raises, with the file untouched or grown by any beginning of that, all of it included. |
| `RunnerLive.RunState.RunStep` | devtools/ash_explorer.py:541-701 | Wherever a step raises, the append included, the action is accepted exactly when its append succeeded, and otherwise the file holds at most a beginning of its line; a closed run or an exhausted step limit appends nothing. |
| `RunnerLive.RunState.RecordDriverFailure` | devtools/ash_explorer.py:2194-2252 | An action that was not accepted is appended once more, after whatever an append of it that raised has left, and one that was is not; the step index moves only with the driver failure's observation, and only after the action was accepted. |
| `RunnerLive.RunState.ExecuteStep` | devtools/ash_explorer.py:2114-2124 | An action is accepted at most once, and exactly once when an observation comes of it, driver failures included; if an append of it raised, what that left stays in the file, before the line if a second append succeeds, and the run does not go on. |
| `RunnerLive.RunState.RunLive` | devtools/ash_explorer.py:2127-2191 | However a live run ends, the accepted lines are the first lines of the input, and its file holds them and what appends of the last action left when they raised. It is exactly the accepted lines if and only if those left nothing, and replays to what was executed exactly as `TornRecording.TornReplay` says. Exit code 0 means that none raised, and a finish or the end of the input. |
| `RunnerLive.InputLinesJoin` | devtools/ash_explorer.py:2103-2111 | The lines read one after another are the whole input. |
| `RunnerLive.BoundedCapture.Drain` | devtools/ash_explorer.py:748-765 | The kept data is the beginning of what was read, up to the limit, and overflow is set exactly when more was read. |
| `FixtureServer.Fixture.Arm` | devtools/ash_explorer.py:178-187 | Arming forgets whatever came before and names the step's call. |
| `FixtureServer.Fixture.Post` | devtools/ash_explorer.py:248-416 | After any sequence of requests the counters, error and outcome agree with the history of completions; an error never clears, and only well-formed completions are counted. |
| `FixtureServer.ErrorIsSticky` | devtools/ash_explorer.py:290-416 | Once a completion left an error, no later completion clears it. |
| `FixtureServer.RealCallOnce` | devtools/ash_explorer.py:330-404 | The real tool call is emitted at most once for a step, first or straight after a discovery. |
| `FixtureServer.CleanOutcomeExactly` | devtools/ash_explorer.py:290-416 | No error with a recorded outcome holds exactly when the completions were call, result or discover, call, result and the result was found. |
| `FixtureServer.Fixture.Get` | devtools/ash_explorer.py:222-246 | Only the two model listings are answered and recorded, and no completion is counted. |
| `WorkspaceTree.PathsIdentify` | devtools/ash_explorer.py:1395-1444 | A relative path names at most one entry of the tree. |
| `SearchSnapshot.Scan` | devtools/ash_explorer.py:1389-1444 | The stack-driven walk succeeds exactly when every entry of the recursive listing is within the depth, path and count bounds, and then meets exactly those entries. |
| `SearchSnapshot.CollectMatches` | devtools/ash_explorer.py:1446-1488 | The reading loop succeeds exactly when every file is readable and within the file, total, match and output bounds; its running byte count is the size of the newline join. |
| `SearchSnapshot.ScanOrderIrrelevant` | devtools/ash_explorer.py:1395-1448 | Sorting what the walk met is sorting the recursive listing, whatever order the stack produced. |
| `SearchSnapshot.TakeSnapshot` | devtools/ash_explorer.py:1369-1529 | The snapshot is complete exactly when all bounds hold, and then its matches and digest input are the recursive specification's, in path and line order. |
| `SnapshotMeaning.SpecMatchesExact` | devtools/ash_explorer.py:1446-1488 | The matches are the records of the selected files' matching lines: none missing, none invented. |
| `SnapshotMeaning.SpecMatchesPlain` | devtools/ash_explorer.py:1469-1488 | No record of a bounded workspace holds a newline or is empty. |
| `SnapshotMeaning.EqualDigestsEqualMatches` | devtools/ash_explorer.py:1501-1527 | Two complete snapshots of a query with equal digests expect the same matches, if the digest does not collide on their records. |
| `SearchVerification.VerifiedEvidence` | devtools/ash_explorer.py:1547-1647 | A verified search saw one event, equal complete snapshots, consistent event and fixture results, and an output that joins the expected matches in some order. |
| `SearchVerification.OutputMatchesExactly` | devtools/ash_explorer.py:1615-1647 | Comparing the split output as a multiset, within the byte bound, decides whether it joins a permutation of the matches. |
| `SearchVerification.SearchSuccessExactly` | devtools/ash_explorer.py:1547-1731 | A clean search is an expected success exactly when its output is the newline join of some permutation of the workspace's matches; the byte bound loses none. |
| `SearchVerification.PassExactly` | devtools/ash_explorer.py:1650-1806 | For every tool, an expected success or refusal is exactly a clean, zero-exit, identified run with an unambiguous outcome that shows the tool's own evidence: the content written or read, the listing, the verified search, or the declared text with an unchanged target or workspace. |
| `SearchVerification.AmbiguityExactly` | devtools/ash_explorer.py:1650-1806 | A step is classified as ambiguous exactly when its outcome is ambiguous and it is a search, or its process neither failed in the driver nor exited other than with 0. |
| `SearchVerification.AmbiguityNotAlwaysFirst` | devtools/ash_explorer.py:1650-1806 | An ambiguous write whose process timed out is a driver failure. |
| `DecisionLog.EveryAttemptFits` | devtools/ash_explorer_controller.py:1064-1194 | In a log of the grammar every attempt is prepared, then optionally pending, then unknown, or sent and one of observed, finished, unknown. |
| `DecisionLog.AtMostOneUnresolved` | devtools/ash_explorer_controller.py:1083-1137 | At most one attempt of a log is unresolved, and none once the log is resolved. |
| `DecisionLog.NothingAfterUnknown` | devtools/ash_explorer_controller.py:1107-1126 | After an unknown, no action is decided, dispatched or acknowledged. |
| `Controller.LogsFollowGrammar` | devtools/ash_explorer_controller.py:952-1270 | At every moment of every run whose log appends succeed, timeouts, cancellation and runner death included, the log is in the grammar; at the end nothing is left unresolved. |
| `Controller.AttemptsAreSettled` | devtools/ash_explorer_controller.py:952-1270 | However such a run ends, each attempt's entries are settled and nothing follows an unknown. |
| `LogFailure.LogsBreakExactly` | devtools/ash_explorer_controller.py:613-617 | In every run in which appends to the log may raise, keeping or losing their entry, the log has left the grammar if and only if one that raised had kept its pending, unknown, acknowledging or abort-sent entry and another entry followed. |
| `LogFailure.EndsResolvedExactly` | devtools/ash_explorer_controller.py:1254-1270 | At the end no action is unresolved in the log if and only if the grammar was kept, no append that raised kept a pending entry, and the closing block's unknown was not lost, unless the log already held the acknowledgement. |
| `LogFailure.KeptAckBreaks` | devtools/ash_explorer_controller.py:1145-1158 | Any run that awaits its finish may end with an unknown after an acknowledgement in the log. |
| `LogFailure.ReturnedReportsExactly` | devtools/ash_explorer_controller.py:1145-1166 | Also when appends raise, a returned report claims a finish exactly when it was acknowledged by an append that did not raise, the exit code is 0 and the goals are met. |
| `LogFailure.WrittenReportsStillExact` | devtools/ash_explorer_controller.py:1296-1312 | Also when appends raise, a written report claims an unacknowledged finish if and only if an uncaught exception left the wait for the finished event. |
| `LogFailure.RunWorks` | devtools/ash_explorer_controller.py:952-1270 | A run of the controller is such a run in which nothing raised. |
| `Controller.ReturnedReportsAreTrue` | devtools/ash_explorer_controller.py:1145-1166 | A returned report claims a finish without error exactly when the runner acknowledged it, exited with 0, no probe is unmet and a required write and read is verified; it is also the one written. |
| `Controller.WrittenReportsExactly` | devtools/ash_explorer_controller.py:1296-1312 | A run writes a report that claims a finish without an error and unacknowledged if and only if a cancellation, or another exception that no handler catches, left the wait for the finished event. |
| `Controller.CutOffReport` | devtools/ash_explorer_controller.py:1145-1149 | Any run that awaits its finish, its runner alive or not, can be cancelled into a written report that claims it unacknowledged, with whatever probes are unmet. |
| `Controller.FinishFirst` | devtools/ash_explorer_controller.py:1145-1149 | A run that awaits its finish exists for every setup of goals. |
| `ControllerRun.Session.RunController` | devtools/ash_explorer_controller.py:910-1322 | The run ends on every path, is a run of the state machine that extends its start, leaves no action unresolved, and returns a claim of a finish only with its evidence. |
| `ControllerRun.Session.Prepare` | devtools/ash_explorer_controller.py:989-1079 | One turn up to the logged decision, made of machine moves that extend the earlier run: it ends at a chosen action or with an exception, its refusal entry written where one is due. |
| `ControllerRun.Session.Deliver` | devtools/ash_explorer_controller.py:1080-1143 | The dispatch, made of machine moves that extend the earlier run: it ends awaiting what the action calls for, or with an exception. |
| `ControllerRun.Session.GoalsMet` | devtools/ash_explorer_controller.py:1159-1164 | The check of the goals is true exactly when the required write and read is verified and no probe is unmet. |
| `ControllerRun.Session.AwaitFinish` | devtools/ash_explorer_controller.py:1145-1166 | The finished event, exit code, acknowledgement and goals, made of machine moves that extend the earlier run: it ends the loop or raises. |
| `ControllerRun.Session.AwaitStep` | devtools/ash_explorer_controller.py:1168-1196 | The observation and its acknowledgement, made of machine moves that extend the earlier run: one more classification, or an exception. |
| `ControllerRun.Session.Judge` | devtools/ash_explorer_controller.py:1204-1241 | One machine move that extends the earlier run and decides whether it goes on, below the step limit, and whether a stopping run still has to tell the runner. |
| `ControllerRun.Session.SendFinish` | devtools/ash_explorer_controller.py:1324-1371 | The controller's own finish, made of machine moves that extend the earlier run: it ends awaiting the stop or raises. |
| `ControllerRun.Session.Settle` | devtools/ash_explorer_controller.py:1254-1270 | The closing block's entry for an action still in flight, as one machine move that extends the earlier run. |
| `ControllerRun.Session.Abort` | devtools/ash_explorer_controller.py:1396-1465 | Aborting a live runner, made of machine moves that extend the earlier run: it ends ready to report or cut off. |
| `ControllerRun.Session.Close` | devtools/ash_explorer_controller.py:1243-1322 | Handlers, closing entry, abort and report: whatever was raised, the earlier run is extended to its end. |
| `ControllerRun.Session.MakeReport` | devtools/ash_explorer_controller.py:793-832 | The report's fields are the run's, its verdict the verified write and read, its unmet list the unmet probes. |
| `WriteReadVerdict.HasVerifiedWriteRead` | devtools/ash_explorer_controller.py:835-877 | True exactly when a good write of a path with a full digest is followed by a good read of it, with only harmless refusals of that path between them. |
| `WriteReadVerdict.LiveStep` | devtools/ash_explorer_controller.py:861-869 | How one entry changes which digest of a path is known. |
| `WriteReadVerdict.VerifiedStays` | devtools/ash_explorer_controller.py:835-877 | Further history never takes a verdict back. |
| `RequiredProbes.UnmetRequiredProbes` | devtools/ash_explorer_controller.py:293-358 | The loops list, in order, the probes that no entry satisfies. |
| `RequiredProbes.UnmetExactly` | devtools/ash_explorer_controller.py:293-358 | A probe is listed exactly when it is required and no entry satisfies it. |
| `RequiredProbes.UnmetShrinks` | devtools/ash_explorer_controller.py:293-358 | Reading more history is filtering the unmet list again: it only shrinks and keeps its order. |
| `Redaction.RedactString` | devtools/ash_explorer_controller.py:516-520 | The loop applies each non-empty path's replacement in turn. |
| `Redaction.ReplaceRemovesExactly` | devtools/ash_explorer_controller.py:516-520 | For an absolute path, replacement removes it from every text exactly when no suffix of it meets the replacement text. |
| `Redaction.ListRemovesExactly` | devtools/ash_explorer_controller.py:516-520 | For an absolute path of a list whose other paths do not occur in its leaking texts, redaction with the list removes it from every text exactly when it cannot leak. |
| `Redaction.FirstRemovedExactly` | devtools/ash_explorer_controller.py:516-520 | Of a run's two paths, the first, when the second is safe, is removed from every text exactly when it cannot leak or holds the second. |
| `Redaction.LastRemovedExactly` | devtools/ash_explorer_controller.py:516-520 | The second, when the first is safe and the second leaks at most by how it ends, is removed from every text exactly when the first stands in each text that it would need to survive. |
| `Redaction.RedactedIsClean` | devtools/ash_explorer_controller.py:515-525 | With any list of paths, no safe one of them occurs in any string value of the redacted value, at any depth. |
| `Redaction.PlainPathIsSafe` | devtools/ash_explorer_controller.py:515-525 | An absolute path without an opening bracket is safe. |
| `Redaction.RedactIdempotent` | devtools/ash_explorer_controller.py:515-525 | Redacting again with safe paths changes nothing. |
| `Redaction.UnsafeSurvive` | devtools/ash_explorer_controller.py:516-520 | A leaking absolute path and a relative path both survive their own replacement. |
| `ComposedProtocol.StepCountsAgree` | devtools/ash_explorer_controller.py:1167-1235 | After every acknowledgement the runner's step index is the controller's number of classifications. |
| `ComposedProtocol.MessagesAreExpected` | devtools/ash_explorer.py:2144-2191 | Each side finds the kind of message it waits for, numbered as it expects, and the runner's step limit is never reached. |
| `ComposedProtocol.LoopExits` | devtools/ash_explorer_controller.py:1204-1247 | A completed loop saw exit code 2 exactly after a driver failure, else 0. |
| `ComposedProtocol.NeverDeadlocked` | devtools/ash_explorer.py:2144-2191 | While the controller waits, its event is there or the runner can produce it. |
| `RunnerRefinement.Serve` | devtools/ash_explorer.py:2144-2191 | Handling one line, unless an exception of the runner's own ends it, is one step of the composed protocol's runner: it takes the message, moves the step index, and says exactly the events that the controller relies on. |
| `TreeRemoval.RemoveTree` | src/ash/safe_io.py:1069-1117 | Removal terminates; on success the target's entry is gone; partway and at every moment between only entries inside the subtree are missing and nothing else has changed; it fails only on a failed call, a missing target or one that is no directory. |
| `TreeRemoval.RemoveDirectoryContents` | src/ash/safe_io.py:1178-1211 | Only directories inside the subtree change; unless a call fails, all of them are empty at the end. |
| `TreeRemoval.ChildRemoved` | src/ash/safe_io.py:1189-1205 | Emptying and unlinking one child keeps every other part of the tree as it was. |
| `AtomicWrite.Replace` | src/ash/safe_io.py:742-829 | For any short writes and failures: before the rename a failure restores the directory, after it the whole payload shows, and every moment is crash safe. The failed calls are counted exactly: the temporary stays only if the cleanup's own call failed, besides the call it cleaned up after, or, with the payload complete and durable, a target that is no regular file. Unless a call fails, it succeeds exactly when the temporary name is free and the target is absent or regular. |
| `AtomicWrite.CrashShowsOldOrNew` | src/ash/safe_io.py:742-829 | At every crash point the target is its old inode with its old bytes or a fresh one with the whole payload, and no other entry or inode differs. |
| `AtomicWrite.PowerLossShowsOldOrNew` | src/ash/safe_io.py:780-829 | The same when bytes that were not synced are lost. |
| `AtomicWrite.CleanUp` | src/ash/safe_io.py:822-828 | Unless its own call fails, the cleanup restores the directory; every moment of it is crash safe. |
| `AtomicWrite.UnlinkSameEntry` | src/ash/safe_io.py:1400-1411 | An entry of the opened file is removed, an absent entry or one of another file is left alone, and an error is exactly a failed call that changed nothing. |
| `AtomicWrite.ReadBounded` | src/ash/safe_io.py:638-660 | A bounded read returns the whole content exactly when neither the reported size nor the content is over the limit. |
| `SubprocessCapture.RunBoundedSubprocess` | src/ash/installer.py:1232-1345 | The consumer loop, with readers interleaved in any way, performs a run of the transition system and ends. |
| `SubprocessCapture.RunsAreConserved` | src/ash/installer.py:1250-1327 | In every interleaving, captured, queued and in-hand bytes of a stream are exactly what its reader has read; end markers come last; captures stay within the limit. |
| `SubprocessCapture.NeverStuck` | src/ash/installer.py:1250-1327 | Until the consumer stops, some productive step is possible. |
| `SubprocessCapture.RunsAreBounded` | src/ash/installer.py:1250-1327 | No interleaving takes more productive steps than the pipes' contents allow. |
| `SubprocessCapture.ReturnIsComplete` | src/ash/installer.py:1290-1327 | A successful return has captured all that both readers read. |
| `SubprocessCapture.RefusalIsDeserved` | src/ash/installer.py:1312-1325 | Output is refused only when a stream really holds more than the limit. |
| `SubprocessCapture.FinalVerdict` | src/ash/installer.py:1290-1327 | A run that can go no further and did not time out returns both pipes in full if both fit, and refuses otherwise. |
| `LogRotation.Sink.Write` | src/ash/logging.py:211-237 | A write ends the current file with the line, after a rotation if it would not have fitted; at every moment, failures included, the files are a suffix of all bytes written and within their bounds; it fails only on a failed call or a name that is no log file. |
| `LogRotation.Sink.Rotate` | src/ash/logging.py:239-262 | Each file moves one backup up and the oldest goes, every rename onto an absent name. |
| `LogRotation.Sink.Emit` | src/ash/logging.py:193-237 | One logging call: a failure disables the sink, and a disabled sink writes nothing. |
| `LogRotation.RecordPlacement` | src/ash/logging.py:211-262 | Without failures a record written r rotations ago lies in backup r, whose content is exactly its group's records, and is gone when there are not r backups. |
| `LogRotation.GroupsPartition` | src/ash/logging.py:211-262 | Grouping by rotations drops and reorders no record. |
| `EnvironmentOwnership.Process.Publish` | src/ash/config.py:153-178 | The two loops leave exactly the user's entries and the new values for other keys, and own exactly the latter. |
| `EnvironmentOwnership.Process.Load` | src/ash/config.py:2121-2140 | Publishing followed by promotion. |
| `EnvironmentOwnership.PublishIsStable` | src/ash/config.py:153-178 | Publishing keeps what is the user's and is idempotent. |
| `EnvironmentOwnership.PublishPartitions` | src/ash/config.py:153-178 | Every entry afterwards is the user's, unchanged, or Ash's current value; nothing injected lingers. |
| `EnvironmentOwnership.PromotionTouchesUserExactly` | src/ash/config.py:2131-2140 | Promotion changes a user's entry exactly when the user has set an empty key beside a usable legacy one. |
| `EnvironmentOwnership.EmptyKeyIsOverwritten` | src/ash/config.py:2131-2140 | The concrete case of an overwritten empty key. |
| `EnvironmentOwnership.DerivedKeyFollowsItsSource` | src/ash/config.py:2121-2140 | After any history of loads and other outside changes the derived key is what the last dotenv file alone gives, so it disappears with its source. |
| `ConfigLayers.Builder.MergeLayer` | src/ash/config.py:408-420 | Merging keeps every field's value and source at the winning layer. |
| `ConfigLayers.FilterProject` | src/ash/config.py:379-405 | Keeps exactly what a project may set, with one diagnostic for each field dropped and none besides. |
| `ConfigLayers.ProjectDirectories` | src/ash/config.py:266-284 | The directories from the workspace root down to the current one. |
| `ConfigLayers.DirectoriesNest` | src/ash/config.py:266-284 | Each project directory lies inside the one before it and the last is the current one, so the nearest layer comes last and wins. |
| `ConfigLayers.Load` | src/ash/config.py:1890-2016 | Every merged field has the value and source of the highest-precedence layer that defines it, the project layers are the filtered files of a trusted workspace in order, and the workspace used to find them is the one merged. |
| `ConfigLayers.WinnerDefines` | src/ash/config.py:408-420 | The winner of a field is a layer that defines it, and there is none only when no layer does. |
| `ConfigLayers.WorkspaceUnaffected` | src/ash/config.py:1938-1947 | No profile or project layer can change the workspace root. |
| `ConfigLayers.ProjectFieldsOnly` | src/ash/config.py:379-405 | No field outside the project fields is sourced from a project. |
| `SpanObserver.Observer.OnEvent` | src/ash/observability.py:244-382 | An event has exactly the effect that its shape specifies on slots, spans, histograms and counters. |
| `SpanObserver.Observer.FinishModel` | src/ash/observability.py:384-459 | A model request is counted whether or not its span is open; an open one ends and is timed. |
| `SpanObserver.Observer.FinishTool` | src/ash/observability.py:479-507 | A tool call is counted whether or not its span is open; an open one ends and is timed. |
| `SpanObserver.Observer.FinishTurn` | src/ash/observability.py:509-536 | Only a turn whose span is open is counted, ended and timed. |
| `SpanObserver.Observer.Close` | src/ash/observability.py:538-553 | The loops over the three collections end every open span exactly once, as a shutdown. |
| `SpanObserver.RunsAreValid` | src/ash/observability.py:244-553 | After any events and closes each span is held in its one slot or has ended exactly once, each child's parent is the turn open at its start, and the histograms time exactly the terminally ended spans, kind by kind. |
| `SpanObserver.ClosedIsFinal` | src/ash/observability.py:538-553 | After a close every span has ended and nothing that follows has any effect. |
| `SpanObserver.CountersExactly` | src/ash/observability.py:384-536 | Model and tool counters count every terminal event before the close; the turn counter counts the timed turns. |

## Left out

- Command lines, the REPL, providers, OAuth, HTTP clients, downloads, package managers: plumbing and foreign calls.
- Windows branches and the fallbacks without anchored I/O.
- Attackers or other writers in the same directory between a check and its use; the file modules assume none.
- Concurrent `on_event`, `close` and fixture handlers: each call is one step here, though the source tests some fields outside its locks.
- `SearchSnapshot.TakeSnapshot`: the re-checks of device, inode, size and times during the walk, since the modelled tree does not change; the SHA-256 framing of the digest is one abstract function of the records.
- `SearchVerification.SearchSuccessExactly`: the wording of classification details and the event filtering that precedes it; the events are an input.
- `RunnerReplay.LoadReplaySteps`: decoding UTF-8 and reading JSON text are one arbitrary function of the line without its ending, of which only the refusal of blank text is assumed.
- `RunnerLive.RunState.RunLive`: the child processes, manifests and printed events; a process killed outright, which leaves the file as it then is.
- `FixtureServer.Fixture.Post`: finding a tool result and comparing the search schema are arbitrary functions; a step is armed only with a request that was parsed, so a search has its query.
- `Redaction.RedactedIsClean`: strings with lone surrogates, which are opaque in the JSON datatype, and object keys, which the source does not redact either.
- `Redaction.ListRemovesExactly`: lists in which another path occurs in a leaking text of this one, which for two paths are `Redaction.FirstRemovedExactly` and `Redaction.LastRemovedExactly`.
- `Redaction.LastRemovedExactly`: a second path that holds the whole replacement text, and two paths that both leak.
- `WriteReadVerdict.HasVerifiedWriteRead`: a digest or error text with lone surrogates is not treated as text.
- `ControllerRun.Session.RunController`: contents of messages, prompts and identity; log appends that raise, which `LogFailure` adds to the machine's runs but this method does not make; parsing a decision is a nondeterministic choice.
- `LogFailure.LogsBreakExactly`: an entry is in the log whole or not at all; a last entry cut in the middle by a full disk is not modelled.
- `Controller.ReturnedReportsAreTrue`: the cleanup and lifecycle fields that the report copies from the runner's summary.
- `ComposedProtocol.MessagesAreExpected`: broken pipes, interrupts and runner input errors are excluded, as the property assumes; timeouts and cancellation of the controller are included.
- `RunnerRefinement.Serve`: one line at a time; the events are read off the observations and the ending, since printing is not modelled.
- `TreeRemoval.RemoveTree`: the identity checks between listing and opening, which cannot fail without another writer.
- `SubprocessCapture.RunBoundedSubprocess`: terminating the process tree after a timeout or refusal, and the readers after the stop flag is set.
- `LogRotation.Sink.Write`: file modes and directory checks; log files beyond the backup count are never touched and not modelled.
- `ConfigLayers.Load`: reading and bounding the files, legacy model names, derived sources filled in after the merge, and validation by the settings library.
- `SpanObserver.Observer.OnEvent`: span attributes other than the outcome, and texts with lone surrogates.
- Evidence reports of the runner itself, scratch ownership and cleanup: linear code without branching worth a model.
