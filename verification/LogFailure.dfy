/**
 Runs in which an append to the evidence log may raise, keeping its entry or losing it: exactly when
 the log then leaves its grammar or leaves an action unresolved, and that no report claims more for it.
 */
module LogFailure {
  import opened Common
  import opened DecisionLog
  import opened Controller

  /** A move whose entry, if it writes one, is appended; or whose append raises, its entry kept or lost. */
  datatype Step = Works(move: Move) | Fails(move: Move, kept: bool)

  const OS_ERROR := Runtime("OSError")

  predicate Possible(st: State, step: Step) {
    Enabled(st, step.move) && (step.Fails? ==> EventOf(st, step.move).Some?)
  }

  /**
   The variables when the append of the move's entry raises: those set before it are set. Outside the closing
   block the error reaches the handlers. In it the run ends there, except that a raise after the
   runner was told to finish is handled by an entry that says it is unknown whether it was.
   */
  function AtAppend(st: State, move: Move): State
    requires Enabled(st, move)
  {
    match move
    case Decide(_) => st.(attempt := st.attempt + 1, loc := Raised(OS_ERROR))
    case Await(FinishSeen(exit)) => st.(runnerExit := Some(exit), runner := Exited(exit), loc := Raised(OS_ERROR))
    case Await(ObservationSeen(classification, observation)) =>
      st.(classifications := st.classifications + [classification],
          history := st.history + [HistoryEntry(st.loc.choice.action, observation)], loc := Raised(OS_ERROR))
    case End(AbortDelivered(delivered)) => if delivered then st else st.At(Done(Err(OS_ERROR)))
    case End(_) => st.At(Done(Err(OS_ERROR)))
    case _ => st.At(Raised(OS_ERROR))
  }

  ghost function After(setup: Setup, st: State, step: Step): State
    requires Possible(st, step)
  {
    match step
    case Works(move) => Do(setup, st, move)
    case Fails(move, kept) =>
      if kept then AtAppend(st, move).Logged(EventOf(st, move).value) else AtAppend(st, move)
  }

  ghost predicate IsFaultyRun(setup: Setup, run: seq<State>, steps: seq<Step>) {
    && |run| == |steps| + 1 && run[0] == INITIAL
    && forall i :: 0 <= i < |steps| ==> Possible(run[i], steps[i]) && run[i + 1] == After(setup, run[i], steps[i])
  }

  /** Without a raise it is a run of the controller. */
  lemma WorkingRuns(setup: Setup, run: seq<State>, steps: seq<Step>)
    requires IsFaultyRun(setup, run, steps) && forall i :: 0 <= i < |steps| ==> steps[i].Works?
    ensures IsRun(setup, run)
  {
    forall i | 0 <= i < |run| - 1 ensures Next(setup, run[i], run[i + 1]) {
      assert Makes(setup, run[i], steps[i].move, run[i + 1]);
    }
  }

  lemma FaultyExtends(setup: Setup, run: seq<State>, steps: seq<Step>, step: Step) returns (longer: seq<State>)
    requires IsFaultyRun(setup, run, steps) && Possible(run[|run| - 1], step)
    ensures IsFaultyRun(setup, longer, steps + [step]) && longer == run + [After(setup, run[|run| - 1], step)]
  {
    longer := run + [After(setup, run[|run| - 1], step)];
  }

  /** A run of the controller is a run without a raise. */
  lemma {:induction false} RunWorks(setup: Setup, run: seq<State>) returns (steps: seq<Step>)
    requires IsRun(setup, run)
    ensures IsFaultyRun(setup, run, steps) && forall i :: 0 <= i < |steps| ==> steps[i].Works?
    decreases |run|
  {
    steps := [];
    if |run| > 1 {
      var shorter := run[..|run| - 1];
      forall i | 0 <= i < |shorter| - 1 ensures Next(setup, shorter[i], shorter[i + 1]) {
        assert Next(setup, run[i], run[i + 1]);
      }
      steps := RunWorks(setup, shorter);
      assert Next(setup, run[|run| - 2], run[|run| - 2 + 1]);
      var move :| Makes(setup, run[|run| - 2], move, run[|run| - 1]);
      var longer := FaultyExtends(setup, shorter, steps, Works(move));
      assert longer == run;
      steps := steps + [Works(move)];
    }
  }

  /* What a run writes. */

  /** The entry that stands in the log after the step. */
  function Entry(st: State, step: Step): Option<LogEvent> {
    if !Enabled(st, step.move) || (step.Fails? && !step.kept) then None else EventOf(st, step.move)
  }

  lemma StepGrows(setup: Setup, st: State, step: Step)
    requires Possible(st, step)
    ensures Grown(st, After(setup, st, step), Entry(st, step))
  {
    if step.Works? {
      MoveGrows(setup, st, step.move);
    }
  }

  /** An entry that the controller takes for not written if its append raises. */
  predicate IsDoubtful(event: LogEvent) {
    match event
    case Dispatch(_, _, status) => !status.Sent?
    case ObservationAck(_, _, _) => true
    case FinishAck(_, _) => true
    case AbortFinish(_, _, _, status) => status.Sent?
    case _ => false
  }

  predicate IsPending(event: LogEvent) {
    event.Dispatch? && event.status.Pending?
  }

  predicate KeepsDoubtful(st: State, step: Step) {
    step.Fails? && Entry(st, step).Some? && IsDoubtful(Entry(st, step).value)
  }

  predicate LosesUnknown(step: Step) {
    step == Fails(End(Settles), false)
  }

  /* Where a log stands. */

  datatype Standing = Sound | Lost | PendingInLog | InLog | Spoiled

  /** From one standing to the next: what the step writes, keeps although it raised, and loses. */
  function Moved(standing: Standing, writes: bool, keeps: bool, pending: bool, loses: bool): Standing {
    if !writes then if standing.Sound? && loses then Lost else standing
    else if !standing.Sound? then Spoiled
    else if !keeps then Sound
    else if pending then PendingInLog
    else InLog
  }

  predicate KeepsPending(st: State, step: Step) {
    KeepsDoubtful(st, step) && IsPending(Entry(st, step).value)
  }

  function NextStanding(standing: Standing, st: State, step: Step): Standing {
    Moved(standing, Entry(st, step).Some?, KeepsDoubtful(st, step), KeepsPending(st, step), LosesUnknown(step))
  }

  function StandingAt(run: seq<State>, steps: seq<Step>, k: nat): Standing
    requires k <= |steps| < |run|
  {
    if k == 0 then Sound else NextStanding(StandingAt(run, steps, k - 1), run[k - 1], steps[k - 1])
  }

  predicate IsEnding(loc: Loc) {
    loc.Raised? || loc.Closing? || loc.Settled? || loc.Reporting? || loc.Done?
  }

  /** What the run's variables and the log's phase then are. */
  predicate StandingFits(st: State, standing: Standing) {
    match standing
    case Sound => if st.loc.Done? then IsResolved(st.phase) else LogFits(st)
    case Lost => st.loc.Done? && (st.phase.InDoubt? || st.phase.Delivered?)
    case PendingInLog => st.hasLog && st.phase.InDoubt? && !st.Unresolved() && IsEnding(st.loc)
    case InLog =>
      || (st.hasLog && (st.phase.Fresh? || st.phase.Closed?) && st.Unresolved()
          && (st.loc.Raised? || st.loc.Closing? || st.loc.Done?))
      || (st.hasLog && st.phase.Aborted? && (st.loc.AbortWriting? || st.loc.Done?))
    case Spoiled => st.phase.Broken?
  }

  lemma WorkKeepsSound(setup: Setup, st: State, move: Move)
    requires Enabled(st, move) && StandingFits(st, Sound)
    ensures StandingFits(Do(setup, st, move), Sound)
  {
    assert !st.loc.Done?;
    MoveKeepsLog(setup, st, move);
    BrokenNever(Do(setup, st, move));
  }

  lemma LoopFailure(st: State, move: Move, kept: bool)
    requires Possible(st, Fails(move, kept)) && !move.End? && StandingFits(st, Sound)
    ensures var after := AtAppend(st, move);
      StandingFits(if kept then after.Logged(EventOf(st, move).value) else after,
                   NextStanding(Sound, st, Fails(move, kept)))
  {
  }

  lemma EndFailure(st: State, move: EndMove, kept: bool)
    requires Possible(st, Fails(End(move), kept)) && StandingFits(st, Sound)
    ensures var after := AtAppend(st, End(move));
      StandingFits(if kept then after.Logged(EventOf(st, End(move)).value) else after,
                   NextStanding(Sound, st, Fails(End(move), kept)))
  {
  }

  /** Whatever is written after an entry that should not be there breaks the grammar; anything else keeps standing. */
  lemma UnsoundStep(setup: Setup, st: State, standing: Standing, step: Step)
    requires Possible(st, step) && StandingFits(st, standing) && !standing.Sound?
    ensures StandingFits(After(setup, st, step), NextStanding(standing, st, step))
  {
    StepGrows(setup, st, step);
  }

  lemma StepKeepsStanding(setup: Setup, st: State, standing: Standing, step: Step)
    requires Possible(st, step) && StandingFits(st, standing)
    ensures StandingFits(After(setup, st, step), NextStanding(standing, st, step))
  {
    if !standing.Sound? {
      UnsoundStep(setup, st, standing, step);
    } else if step.Works? {
      WorkKeepsSound(setup, st, step.move);
    } else if step.move.End? {
      EndFailure(st, step.move.end, step.kept);
    } else {
      LoopFailure(st, step.move, step.kept);
    }
  }

  lemma {:induction false} RunsKeepStanding(setup: Setup, run: seq<State>, steps: seq<Step>, k: nat)
    requires IsFaultyRun(setup, run, steps) && k < |run|
    ensures StandingFits(run[k], StandingAt(run, steps, k)) && PhaseKept(run[k])
  {
    if k > 0 {
      RunsKeepStanding(setup, run, steps, k - 1);
      assert run[k - 1 + 1] == After(setup, run[k - 1], steps[k - 1]);
      StepKeepsStanding(setup, run[k - 1], StandingAt(run, steps, k - 1), steps[k - 1]);
      StepGrows(setup, run[k - 1], steps[k - 1]);
      GrownKeepsPhase(run[k - 1], run[k], Entry(run[k - 1], steps[k - 1]));
    }
  }

  /* The same in terms of what was written. */

  predicate KeptAt(run: seq<State>, steps: seq<Step>, i: nat) {
    i < |steps| < |run| && KeepsDoubtful(run[i], steps[i])
  }

  predicate PendingAt(run: seq<State>, steps: seq<Step>, i: nat) {
    i < |steps| < |run| && KeepsPending(run[i], steps[i])
  }

  predicate WritesAt(run: seq<State>, steps: seq<Step>, i: nat) {
    i < |steps| < |run| && Entry(run[i], steps[i]).Some?
  }

  predicate LostAt(steps: seq<Step>, i: nat) {
    i < |steps| && LosesUnknown(steps[i])
  }

  /** An append raised and kept an entry that the controller takes for lost. */
  ghost predicate Kept(run: seq<State>, steps: seq<Step>, k: nat) {
    exists i: nat :: i < k && KeptAt(run, steps, i)
  }

  ghost predicate KeptPending(run: seq<State>, steps: seq<Step>, k: nat) {
    exists i: nat :: i < k && PendingAt(run, steps, i)
  }

  /** After such an entry another one was written. */
  ghost predicate WroteOn(run: seq<State>, steps: seq<Step>, k: nat) {
    exists i: nat, j: nat :: i < j < k && KeptAt(run, steps, i) && WritesAt(run, steps, j)
  }

  /** The closing block's own entry for an action in flight was lost. */
  ghost predicate LostUnknown(steps: seq<Step>, k: nat) {
    exists i: nat :: i < k && LostAt(steps, i)
  }

  function StandingFrom(wrote: bool, pending: bool, kept: bool, lost: bool): Standing {
    if wrote then Spoiled else if pending then PendingInLog else if kept then InLog else if lost then Lost else Sound
  }

  ghost function StandingOf(run: seq<State>, steps: seq<Step>, k: nat): Standing {
    StandingFrom(WroteOn(run, steps, k), KeptPending(run, steps, k), Kept(run, steps, k), LostUnknown(steps, k))
  }

  lemma MovedFrom(wrote: bool, pending: bool, kept: bool, lost: bool,
                  writes: bool, keeps: bool, pends: bool, loses: bool)
    requires (wrote || pending ==> kept) && (pends ==> keeps) && (keeps ==> writes) && (loses ==> !writes)
    requires StandingFrom(wrote, pending, kept, lost).Lost? ==> !writes && !loses
    ensures Moved(StandingFrom(wrote, pending, kept, lost), writes, keeps, pends, loses)
      == StandingFrom(wrote || (kept && writes), pending || pends, kept || keeps, lost || loses)
  {
  }

  lemma KeptGrows(run: seq<State>, steps: seq<Step>, k: nat)
    requires 0 < k
    ensures Kept(run, steps, k) <==> Kept(run, steps, k - 1) || KeptAt(run, steps, k - 1)
    ensures KeptPending(run, steps, k) <==> KeptPending(run, steps, k - 1) || PendingAt(run, steps, k - 1)
    ensures LostUnknown(steps, k) <==> LostUnknown(steps, k - 1) || LostAt(steps, k - 1)
  {
  }

  lemma WroteGrows(run: seq<State>, steps: seq<Step>, k: nat)
    requires 0 < k
    ensures WroteOn(run, steps, k) <==>
      WroteOn(run, steps, k - 1) || (Kept(run, steps, k - 1) && WritesAt(run, steps, k - 1))
  {
    if WroteOn(run, steps, k) {
      var i: nat, j: nat :| i < j < k && KeptAt(run, steps, i) && WritesAt(run, steps, j);
      assert j < k - 1 || (j == k - 1 && i < k - 1);
    }
    if Kept(run, steps, k - 1) && WritesAt(run, steps, k - 1) {
      var i: nat :| i < k - 1 && KeptAt(run, steps, i);
      assert i < k - 1 < k;
    }
  }

  lemma LostIsOver(st: State, standing: Standing, step: Step)
    requires Possible(st, step) && StandingFits(st, standing)
    ensures !standing.Lost?
  {
  }

  lemma PendingIsKept(run: seq<State>, steps: seq<Step>, k: nat)
    ensures KeptPending(run, steps, k) || WroteOn(run, steps, k) ==> Kept(run, steps, k)
  {
    if i: nat :| i < k && PendingAt(run, steps, i) {
      assert KeptAt(run, steps, i);
    }
  }

  lemma {:induction false} StandingIs(setup: Setup, run: seq<State>, steps: seq<Step>, k: nat)
    requires IsFaultyRun(setup, run, steps) && k < |run|
    ensures StandingAt(run, steps, k) == StandingOf(run, steps, k)
  {
    if k > 0 {
      StandingIs(setup, run, steps, k - 1);
      RunsKeepStanding(setup, run, steps, k - 1);
      LostIsOver(run[k - 1], StandingAt(run, steps, k - 1), steps[k - 1]);
      StandingStep(run, steps, k);
    }
  }

  lemma StandingStep(run: seq<State>, steps: seq<Step>, k: nat)
    requires 0 < k < |run| == |steps| + 1 && !StandingAt(run, steps, k - 1).Lost?
    requires StandingAt(run, steps, k - 1) == StandingOf(run, steps, k - 1)
    ensures StandingAt(run, steps, k) == StandingOf(run, steps, k)
  {
    KeptGrows(run, steps, k);
    WroteGrows(run, steps, k);
    PendingIsKept(run, steps, k - 1);
    StepAt(run, steps, k - 1);
    MovedFrom(WroteOn(run, steps, k - 1), KeptPending(run, steps, k - 1), Kept(run, steps, k - 1),
              LostUnknown(steps, k - 1), WritesAt(run, steps, k - 1), KeptAt(run, steps, k - 1),
              PendingAt(run, steps, k - 1), LostAt(steps, k - 1));
  }

  lemma StepAt(run: seq<State>, steps: seq<Step>, i: nat)
    requires i < |steps| < |run|
    ensures NextStanding(StandingAt(run, steps, i), run[i], steps[i])
      == Moved(StandingAt(run, steps, i), WritesAt(run, steps, i), KeptAt(run, steps, i),
               PendingAt(run, steps, i), LostAt(steps, i))
    ensures PendingAt(run, steps, i) ==> KeptAt(run, steps, i)
    ensures KeptAt(run, steps, i) ==> WritesAt(run, steps, i)
    ensures LostAt(steps, i) ==> !WritesAt(run, steps, i)
  {
  }

  /**
   At every moment of every run in which appends may raise: the log has left the grammar if and only if an
   append that raised had kept its pending, unknown, acknowledging or abort-sent entry, and another followed.
   */
  lemma LogsBreakExactly(setup: Setup, run: seq<State>, steps: seq<Step>, k: nat)
    requires IsFaultyRun(setup, run, steps) && k < |run|
    ensures PhaseOf(run[k].log).Broken? <==> WroteOn(run, steps, k)
  {
    RunsKeepStanding(setup, run, steps, k);
    StandingIs(setup, run, steps, k);
    PhaseOfStanding(run[k], StandingAt(run, steps, k));
  }

  lemma PhaseOfStanding(st: State, standing: Standing)
    requires StandingFits(st, standing)
    ensures st.phase.Broken? <==> standing.Spoiled?
    ensures st.loc.Done? ==> (IsResolved(st.phase) <==> standing.Sound? || standing.InLog?)
  {
    if standing.Sound? && !st.loc.Done? {
      BrokenNever(st);
    }
  }

  /** The acknowledgement's append raises and keeps its entry. */
  lemma AckIsKept(setup: Setup, run: seq<State>, steps: seq<Step>) returns (longer: seq<State>, step: Step)
    requires IsFaultyRun(setup, run, steps) && run[|run| - 1].loc.AwaitFinished? && LogFits(run[|run| - 1])
    ensures IsFaultyRun(setup, longer, steps + [step]) && |longer| == |run| + 1 && run <= longer
    ensures KeepsDoubtful(run[|run| - 1], step)
    ensures var last := longer[|run|]; last.loc == Raised(OS_ERROR) && last.Unresolved() && last.hasLog
  {
    var st := run[|run| - 1];
    step := Fails(Await(FinishSeen(if st.runner.Exited? then st.runner.code else 0)), true);
    longer := FaultyExtends(setup, run, steps, step);
  }

  /** The handlers, and the closing block's entry for an action still taken to be in flight. */
  lemma UnknownFollows(setup: Setup, run: seq<State>, steps: seq<Step>) returns (longer: seq<State>, more: seq<Step>)
    requires IsFaultyRun(setup, run, steps)
    requires var last := run[|run| - 1]; last.loc == Raised(OS_ERROR) && last.Unresolved() && last.hasLog
    ensures IsFaultyRun(setup, longer, more) && run <= longer && steps <= more && |more| == |steps| + 2
    ensures WritesAt(longer, more, |steps| + 1)
  {
    longer := FaultyExtends(setup, run, steps, Works(End(Handles)));
    more := steps + [Works(End(Handles))];
    longer := FaultyExtends(setup, longer, more, Works(End(Settles)));
    more := more + [Works(End(Settles))];
  }

  /** Any run that awaits its finish may so end with an unknown after an acknowledgement that the log holds. */
  lemma KeptAckBreaks(setup: Setup, run: seq<State>) returns (longer: seq<State>, steps: seq<Step>)
    requires IsRun(setup, run) && run[|run| - 1].loc.AwaitFinished?
    ensures IsFaultyRun(setup, longer, steps) && run <= longer && PhaseOf(longer[|longer| - 1].log).Broken?
  {
    var n := |run| - 1;
    LastFits(setup, run);
    steps := RunWorks(setup, run);
    var acked, step := AckIsKept(setup, run, steps);
    var first := steps + [step];
    longer, steps := UnknownFollows(setup, acked, first);
    assert longer[n] == run[n] && steps[n] == step;
    assert KeptAt(longer, steps, n) && WritesAt(longer, steps, n + 2);
    LogsBreakExactly(setup, longer, steps, n + 3);
  }

  /**
   However such a run ended: an action is left unresolved if and only if the log left the grammar, or a
   pending entry was kept by an append that raised, or the closing block's entry was lost and none was so kept.
   */
  lemma EndsResolvedExactly(setup: Setup, run: seq<State>, steps: seq<Step>)
    requires IsFaultyRun(setup, run, steps) && run[|run| - 1].loc.Done?
    ensures var k := |run| - 1;
      IsResolved(PhaseOf(run[k].log)) <==>
        !WroteOn(run, steps, k) && !KeptPending(run, steps, k) && (LostUnknown(steps, k) ==> Kept(run, steps, k))
  {
    var k := |run| - 1;
    RunsKeepStanding(setup, run, steps, k);
    StandingIs(setup, run, steps, k);
    PhaseOfStanding(run[k], StandingAt(run, steps, k));
    PendingIsKept(run, steps, k);
  }

  /* What is reported. */

  predicate LosesAck(step: Step) {
    step.Fails? && step.move.Await? && step.move.await.FinishSeen?
  }

  ghost predicate AckLost(steps: seq<Step>, k: nat) {
    exists i: nat :: i < k && i < |steps| && LosesAck(steps[i])
  }

  /** After the acknowledgement's append raised, every report holds an error code. */
  predicate Denied(st: State) {
    match st.loc
    case Raised(raise) => raise == OS_ERROR && st.written.None?
    case Closing(pending) => pending.None? && st.errorCode.Some? && st.written.None?
    case Settled(pending) => pending.None? && st.errorCode.Some? && st.written.None?
    case AbortWriting(pending) => pending.None? && st.errorCode.Some? && st.written.None?
    case AbortWaiting(pending) => pending.None? && st.errorCode.Some? && st.written.None?
    case Reporting(pending) => pending.None? && st.errorCode.Some? && st.written.None?
    case Done(Ok(report)) => report.errorCode.Some? && st.written == if st.hasLog then Some(report) else None
    case Done(Err(_)) => st.written.Some? ==> st.written.value.errorCode.Some?
    case _ => false
  }

  ghost predicate ReportsFit(setup: Setup, st: State, ackLost: bool, cut: bool) {
    if ackLost then Denied(st) && !cut
    else VerdictKept(setup, st) && DoneFits(setup, st) && CutFits(st, cut)
  }

  lemma DeniedWork(setup: Setup, st: State, move: Move)
    requires Enabled(st, move) && Denied(st)
    ensures Denied(Do(setup, st, move)) && !IsCut(st, Do(setup, st, move))
  {
  }

  lemma DeniedFailure(setup: Setup, st: State, move: Move, kept: bool)
    requires Possible(st, Fails(move, kept)) && Denied(st)
    ensures Denied(After(setup, st, Fails(move, kept))) && !IsCut(st, After(setup, st, Fails(move, kept)))
  {
  }

  lemma AckFailure(setup: Setup, st: State, move: Move, kept: bool)
    requires Possible(st, Fails(move, kept)) && LosesAck(Fails(move, kept))
    requires DoneFits(setup, st) && CutFits(st, false)
    ensures Denied(After(setup, st, Fails(move, kept))) && !IsCut(st, After(setup, st, Fails(move, kept)))
  {
  }

  /** No other append that raises decides anything. */
  lemma FailureKeepsVerdict(st: State, move: Move, kept: bool, met: bool, next: bool, acked: bool)
    requires Possible(st, Fails(move, kept)) && !LosesAck(Fails(move, kept)) && VerdictFits(st, met, acked)
    requires move.End? ==> next == met
    ensures VerdictFits(AtAppend(st, move), next, acked)
  {
  }

  lemma FailureReportsNothing(setup: Setup, st: State, move: Move, kept: bool, cut: bool)
    requires Possible(st, Fails(move, kept)) && !LosesAck(Fails(move, kept))
    requires DoneFits(setup, st) && CutFits(st, cut)
    ensures var next := After(setup, st, Fails(move, kept));
      DoneFits(setup, next) && CutFits(next, cut) && !IsCut(st, next)
  {
  }

  lemma FailureIsNoAck(st: State, move: Move, kept: bool)
    requires Possible(st, Fails(move, kept)) && !LosesAck(Fails(move, kept))
    ensures !EventOf(st, move).value.FinishAck? && (move.End? ==> AtAppend(st, move).history == st.history)
  {
  }

  lemma LoggedVerdict(st: State, event: LogEvent, met: bool, acked: bool)
    ensures VerdictFits(st.Logged(event), met, acked) == VerdictFits(st, met, acked)
    ensures st.Logged(event).history == st.history
  {
  }

  lemma FailureKeepsVerdictKept(setup: Setup, st: State, move: Move, kept: bool)
    requires Possible(st, Fails(move, kept)) && !LosesAck(Fails(move, kept)) && VerdictKept(setup, st)
    ensures VerdictKept(setup, After(setup, st, Fails(move, kept)))
  {
    var next, met := After(setup, st, Fails(move, kept)), IsMetBy(setup, st.history);
    StepGrows(setup, st, Fails(move, kept));
    GrownAcked(st, next, Entry(st, Fails(move, kept)));
    FailureIsNoAck(st, move, kept);
    LoggedVerdict(AtAppend(st, move), EventOf(st, move).value, IsMetBy(setup, next.history), FinishAcked(st.log));
    FailureKeepsVerdict(st, move, kept, met, IsMetBy(setup, next.history), FinishAcked(st.log));
  }

  lemma StepKeepsReports(setup: Setup, st: State, step: Step, ackLost: bool, cut: bool)
    requires Possible(st, step) && ReportsFit(setup, st, ackLost, cut)
    ensures var next := After(setup, st, step);
      ReportsFit(setup, next, ackLost || LosesAck(step), cut || IsCut(st, next))
  {
    match step
    case Works(move) =>
      if ackLost {
        DeniedWork(setup, st, move);
      } else {
        MoveKeepsVerdict(setup, st, move);
        MoveKeepsDone(setup, st, move);
        MoveKeepsCut(setup, st, move, cut);
      }
    case Fails(move, kept) =>
      if ackLost {
        DeniedFailure(setup, st, move, kept);
      } else if LosesAck(step) {
        AckFailure(setup, st, move, kept);
      } else {
        FailureKeepsVerdictKept(setup, st, move, kept);
        FailureReportsNothing(setup, st, move, kept, cut);
      }
  }

  lemma AckLostGrows(steps: seq<Step>, k: nat)
    requires 0 < k <= |steps|
    ensures AckLost(steps, k) <==> AckLost(steps, k - 1) || LosesAck(steps[k - 1])
  {
  }

  lemma {:induction false} RunsKeepReports(setup: Setup, run: seq<State>, steps: seq<Step>, k: nat)
    requires IsFaultyRun(setup, run, steps) && k < |run|
    ensures ReportsFit(setup, run[k], AckLost(steps, k), CutBefore(run, k))
  {
    if k == 0 {
      InitialInv(setup);
    } else {
      RunsKeepReports(setup, run, steps, k - 1);
      AckLostGrows(steps, k);
      CutGrows(run, k);
      assert run[k - 1 + 1] == After(setup, run[k - 1], steps[k - 1]);
      StepKeepsReports(setup, run[k - 1], steps[k - 1], AckLost(steps, k - 1), CutBefore(run, k - 1));
    }
  }

  /**
   A returned report claims a finish without error exactly when the acknowledgement is in the log and its
   append did not raise, the runner exited with 0, and every goal is met.
   */
  lemma ReturnedReportsExactly(setup: Setup, run: seq<State>, steps: seq<Step>)
    requires IsFaultyRun(setup, run, steps) && run[|run| - 1].loc.Done? && run[|run| - 1].loc.outcome.Ok?
    ensures var report, last := run[|run| - 1].loc.outcome.value, run[|run| - 1];
      && (ClaimsFinish(report)
          <==>
          FinishAcked(last.log) && !AckLost(steps, |steps|) && report.runnerExit == Some(0)
          && IsMetBy(setup, last.history))
      && (last.hasLog ==> last.written == Some(report))
  {
    RunsKeepReports(setup, run, steps, |run| - 1);
  }

  /** Also then a written report claims an unacknowledged finish if and only if an uncaught exception cut its wait. */
  lemma WrittenReportsStillExact(setup: Setup, run: seq<State>, steps: seq<Step>)
    requires IsFaultyRun(setup, run, steps) && run[|run| - 1].written.Some?
    ensures ClaimsFinish(run[|run| - 1].written.value) && !FinishAcked(run[|run| - 1].log)
      <==> exists i: nat :: CutAt(run, i)
  {
    var k := |run| - 1;
    RunsKeepReports(setup, run, steps, k);
    assert (exists i: nat :: CutAt(run, i)) <==> CutBefore(run, k);
    assert run[k].loc.Done?;
  }
}
