/** The event observer: three maps of open spans driven by any sequence of events and closes. */
module SpanObserver {
  import opened Common

  /** A field of an event; `Other` is any value that is not text, an integer or a flag. */
  datatype Value = Text(s: string) | Number(n: int) | Flag(b: bool) | Other(truthy: bool)

  type Event = map<string, Value>

  datatype Kind = Turn | Model | Tool

  /** One `end()` call: the outcome attribute set before it, and the clock when a terminal event made it. */
  datatype End = End(outcome: string, at: Option<real>, tick: nat)

  /** A span as the tracer sees it; `ends` holds every `end()` call it received, `turn` the event's turn. */
  datatype Span = Span(kind: Kind, key: string, turn: string, parent: Option<nat>, startedAt: real, startTick: nat,
                       ends: seq<End>)

  datatype OpenSpan = OpenSpan(span: nat, startedAt: real)

  type Slots = map<string, OpenSpan>

  /** One record of a duration histogram, with the span whose end it times. */
  datatype Sample = Sample(kind: Kind, span: nat, seconds: real, outcome: string)

  /** One addition to a counter, or one record of the context histogram. */
  datatype Count = Count(instrument: string, amount: nat, detail: string)

  datatype State = State(
    turns: Slots, models: Slots, tools: Slots, closed: bool,
    spans: seq<Span>, samples: seq<Sample>, counts: seq<Count>, tick: nat)
  {
    function Open(kind: Kind): Slots {
      match kind
      case Turn => turns
      case Model => models
      case Tool => tools
    }

    function WithOpen(kind: Kind, slots: Slots): State {
      match kind
      case Turn => this.(turns := slots)
      case Model => this.(models := slots)
      case Tool => this.(tools := slots)
    }

    function Counted(instrument: string, amount: nat, detail: string): State {
      this.(counts := counts + [Count(instrument, amount, detail)])
    }
  }

  const SHUTDOWN := "shutdown"

  const INITIAL := State(map[], map[], map[], false, [], [], [], 0)

  /* Reading an event. */

  function SafeString(e: Event, field: string, maximum: nat): (text: string)
    ensures |text| <= maximum
  {
    if field in e && e[field].Text? then
      if |e[field].s| <= maximum then e[field].s else e[field].s[..maximum]
    else ""
  }

  function SafeInt(e: Event, field: string): nat {
    if field in e && e[field].Number? && e[field].n > 0 then e[field].n else 0
  }

  predicate Truthy(v: Value) {
    match v
    case Text(s) => s != ""
    case Number(n) => n != 0
    case Flag(b) => b
    case Other(truthy) => truthy
  }

  /** What an event asks of the observer. */
  datatype Shape = Starts(kind: Kind, key: string) | Finishes(kind: Kind, key: string, outcome: string) | ContextUsage
      | Retrying | CircuitOpened | Ignored

  function ToolOutcome(e: Event): string {
    if "success" !in e || Truthy(e["success"]) then "success" else "error"
  }

  function ShapeOf(e: Event): (shape: Shape)
    ensures shape.Starts? ==> shape.key != ""
    ensures shape.Finishes? ==> shape.outcome != SHUTDOWN
  {
    var event, turn, operation :=
      SafeString(e, "type", 128), SafeString(e, "turn_id", 256), SafeString(e, "operation_id", 256);
    if event == "turn.started" then if turn != "" then Starts(Turn, turn) else Ignored
    else if event == "model.request.started" then if operation != "" then Starts(Model, operation) else Ignored
    else if event == "tool.requested" then if operation != "" then Starts(Tool, operation) else Ignored
    else if event == "context.usage" then ContextUsage
    else if event == "provider.retrying" then Retrying
    else if event == "provider.circuit_opened" then CircuitOpened
    else if event == "model.request.completed" then Finishes(Model, operation, "success")
    else if event == "model.request.error" then Finishes(Model, operation, "error")
    else if event == "model.request.cancelled" then Finishes(Model, operation, "cancelled")
    else if event == "tool.completed" then Finishes(Tool, operation, ToolOutcome(e))
    else if event == "tool.error" then Finishes(Tool, operation, "error")
    else if event == "tool.denied" then Finishes(Tool, operation, "denied")
    else if event == "tool.skipped" then Finishes(Tool, operation, "skipped")
    else if event == "turn.completed" || event == "goal.step.completed" then Finishes(Turn, turn, "success")
    else if event == "turn.error" then Finishes(Turn, turn, "error")
    else if event == "turn.cancelled" then Finishes(Turn, turn, "cancelled")
    else Ignored
  }

  /* The effect of each call. */

  function ParentOf(st: State, kind: Kind, turn: string): Option<nat> {
    if kind.Turn? || turn !in st.turns then None else Some(st.turns[turn].span)
  }

  /** A new span, unless one with this key is open. */
  function Started(st: State, kind: Kind, key: string, turn: string, now: real): State {
    if key in st.Open(kind) then st
    else
      var span := Span(kind, key, turn, ParentOf(st, kind, turn), now, st.tick, []);
      st.WithOpen(kind, st.Open(kind)[key := OpenSpan(|st.spans|, now)]).(spans := st.spans + [span])
  }

  function Elapsed(now: real, startedAt: real): real {
    if now - startedAt > 0.0 then now - startedAt else 0.0
  }

  /** `span.end()` on the span that a slot refers to. */
  function EndSpan(spans: seq<Span>, i: nat, end: End): seq<Span> {
    if i < |spans| then spans[i := spans[i].(ends := spans[i].ends + [end])] else spans
  }

  /** The open span of this key, if any, ends and is timed. */
  function Ended(st: State, kind: Kind, key: string, outcome: string, now: real): State {
    if key !in st.Open(kind) then st
    else
      var slot := st.Open(kind)[key];
      st.WithOpen(kind, st.Open(kind) - {key})
        .(spans := EndSpan(st.spans, slot.span, End(outcome, Some(now), st.tick)),
          samples := st.samples + [Sample(kind, slot.span, Elapsed(now, slot.startedAt), outcome)])
  }

  const TOKEN_FIELDS: seq<(string, string)> := [
    ("prompt_tokens", "input"), ("completion_tokens", "output"),
    ("cache_read_tokens", "cache_read"), ("cache_write_tokens", "cache_write")
  ]

  function UsageCounts(e: Event, fields: seq<(string, string)>): seq<Count> {
    if fields == [] then []
    else
      var last := fields[|fields| - 1];
      UsageCounts(e, fields[..|fields| - 1]) +
      if SafeInt(e, last.0) > 0 then [Count("ash.model.tokens", SafeInt(e, last.0), last.1)] else []
  }

  function CounterOf(kind: Kind): string {
    match kind
    case Turn => "ash.turns"
    case Model => "ash.model.requests"
    case Tool => "ash.tool.calls"
  }

  /** A terminal event: counted, except for a turn without an open span. */
  function Finished(st: State, e: Event, kind: Kind, key: string, outcome: string, now: real): State {
    var ended := Ended(st, kind, key, outcome, now);
    var counted := if kind.Turn? && key !in st.turns then ended else ended.Counted(CounterOf(kind), 1, outcome);
    if kind.Model? && outcome == "success" then counted.(counts := counted.counts + UsageCounts(e, TOKEN_FIELDS))
    else counted
  }

  /** What an open observer does with an event of a given shape. */
  function Handled(st: State, shape: Shape, e: Event, now: real): State {
    match shape
    case Starts(kind, key) => Started(st, kind, key, SafeString(e, "turn_id", 256), now)
    case Finishes(kind, key, outcome) => Finished(st, e, kind, key, outcome, now)
    case ContextUsage => st.Counted("ash.context.tokens", SafeInt(e, "current"), "")
    case Retrying => st.Counted("ash.provider.retries", 1, "")
    case CircuitOpened => st.Counted("ash.provider.circuit_opened", 1, "")
    case Ignored => st
  }

  function Ticked(st: State): State {
    st.(tick := st.tick + 1)
  }

  function OnEvent(st: State, e: Event, now: real): State {
    Ticked(if st.closed then st else Handled(st, ShapeOf(e), e, now))
  }

  /** Every span that has not ended, ended as a shutdown. */
  function AllEnded(spans: seq<Span>, tick: nat): (r: seq<Span>)
    ensures |r| == |spans|
  {
    seq(|spans|, i requires 0 <= i < |spans| =>
      if spans[i].ends == [] then spans[i].(ends := [End(SHUTDOWN, None, tick)]) else spans[i])
  }

  function Closed(st: State): State {
    if st.closed then Ticked(st)
    else State(map[], map[], map[], true, AllEnded(st.spans, st.tick), st.samples, st.counts, st.tick + 1)
  }

  datatype Call = Event(event: Event, now: real) | Close

  function After(st: State, call: Call): State {
    match call
    case Event(e, now) => OnEvent(st, e, now)
    case Close => Closed(st)
  }

  function Run(calls: seq<Call>): State {
    if calls == [] then INITIAL else After(Run(calls[..|calls| - 1]), calls[|calls| - 1])
  }

  /* What every run keeps. */

  predicate Held(st: State, i: nat)
    requires i < |st.spans|
  {
    st.spans[i].key in st.Open(st.spans[i].kind) && st.Open(st.spans[i].kind)[st.spans[i].key].span == i
  }

  /** A span is held in its one slot, or has ended exactly once. */
  predicate OnceEnded(st: State, i: nat)
    requires i < |st.spans|
  {
    if Held(st, i) then st.spans[i].ends == [] else |st.spans[i].ends| == 1
  }

  /** The slot of a key holds a span started for that key. */
  predicate SlotSound(st: State, kind: Kind, key: string) {
    key in st.Open(kind) ==>
      var i := st.Open(kind)[key].span;
      i < |st.spans| && st.spans[i].kind == kind && st.spans[i].key == key
      && st.Open(kind)[key].startedAt == st.spans[i].startedAt
  }

  predicate Timed(spans: seq<Span>, tick: nat) {
    forall i :: 0 <= i < |spans| ==>
      spans[i].startTick < tick && forall j :: 0 <= j < |spans[i].ends| ==> spans[i].ends[j].tick < tick
  }

  /** The turn span `p` was open when `s` started, and is the turn that `s` named. */
  predicate OpenDuring(p: Span, s: Span) {
    p.kind.Turn? && p.key == s.turn && p.startTick < s.startTick && (p.ends == [] || p.ends[0].tick > s.startTick)
  }

  /** A child's parent is the turn span of its turn that was open when it started; a turn has none. */
  predicate ParentRight(spans: seq<Span>, i: nat)
    requires i < |spans|
  {
    && (spans[i].parent.Some? ==> spans[i].parent.value < |spans|)
    && if spans[i].kind.Turn? then spans[i].parent.None?
       else forall p :: 0 <= p < |spans| ==> (spans[i].parent == Some(p) <==> OpenDuring(spans[p], spans[i]))
  }

  /** The sample times a span of its kind from its start to its one end, which a terminal event made. */
  predicate Times(sample: Sample, s: Span) {
    && s.kind == sample.kind && |s.ends| == 1 && s.ends[0].outcome == sample.outcome != SHUTDOWN
    && s.ends[0].at.Some? && sample.seconds == Elapsed(s.ends[0].at.value, s.startedAt)
  }

  predicate SampleSound(spans: seq<Span>, sample: Sample) {
    sample.span < |spans| && Times(sample, spans[sample.span])
  }

  predicate TerminallyEnded(s: Span) {
    |s.ends| == 1 && s.ends[0].outcome != SHUTDOWN
  }

  function TerminalCount(spans: seq<Span>, kind: Kind): nat {
    if spans == [] then 0
    else
      var last := spans[|spans| - 1];
      TerminalCount(spans[..|spans| - 1], kind) + if last.kind == kind && TerminallyEnded(last) then 1 else 0
  }

  function SampleCount(samples: seq<Sample>, kind: Kind): nat {
    if samples == [] then 0
    else SampleCount(samples[..|samples| - 1], kind) + if samples[|samples| - 1].kind == kind then 1 else 0
  }

  function InstrumentTotal(counts: seq<Count>, instrument: string): nat {
    if counts == [] then 0
    else
      InstrumentTotal(counts[..|counts| - 1], instrument)
      + if counts[|counts| - 1].instrument == instrument then counts[|counts| - 1].amount else 0
  }

  ghost predicate SpansKept(st: State) {
    && (forall i :: 0 <= i < |st.spans| ==> OnceEnded(st, i))
    && (forall kind, key :: SlotSound(st, kind, key))
    && (st.closed ==> st.turns == map[] && st.models == map[] && st.tools == map[])
    && Timed(st.spans, st.tick)
  }

  ghost predicate ParentsKept(st: State) {
    forall i :: 0 <= i < |st.spans| ==> ParentRight(st.spans, i)
  }

  ghost predicate SamplesKept(st: State) {
    && (forall k :: 0 <= k < |st.samples| ==> SampleSound(st.spans, st.samples[k]))
    && (forall j, k :: 0 <= j < k < |st.samples| ==> st.samples[j].span != st.samples[k].span)
    && (forall kind :: SampleCount(st.samples, kind) == TerminalCount(st.spans, kind))
  }

  ghost predicate Valid(st: State) {
    SpansKept(st) && ParentsKept(st) && SamplesKept(st)
  }

  /* Each effect keeps it. */

  lemma StartedOnce(st: State, kind: Kind, key: string, turn: string, now: real, i: nat)
    requires SpansKept(st) && key !in st.Open(kind)
    requires i < |Started(st, kind, key, turn, now).spans|
    ensures OnceEnded(Started(st, kind, key, turn, now), i)
  {
    var next := Started(st, kind, key, turn, now);
    if i < |st.spans| {
      assert OnceEnded(st, i) && next.spans[i] == st.spans[i];
      assert next.Open(st.spans[i].kind) ==
        if st.spans[i].kind == kind then st.Open(kind)[key := OpenSpan(|st.spans|, now)] else st.Open(st.spans[i].kind);
    }
  }

  lemma StartedKeepsSpans(st: State, kind: Kind, key: string, turn: string, now: real)
    requires SpansKept(st) && !st.closed
    ensures SpansKept(Ticked(Started(st, kind, key, turn, now)))
  {
    var next := Ticked(Started(st, kind, key, turn, now));
    if key !in st.Open(kind) {
      forall i | 0 <= i < |next.spans| ensures OnceEnded(next, i) {
        StartedOnce(st, kind, key, turn, now, i);
      }
      forall other, k ensures SlotSound(next, other, k) {
        assert SlotSound(st, other, k);
      }
    } else {
      SpansCarry(st, next);
    }
  }

  lemma SpansCarry(st: State, next: State)
    requires SpansKept(st)
    requires next.turns == st.turns && next.models == st.models && next.tools == st.tools
    requires next.closed == st.closed && next.spans == st.spans && next.tick >= st.tick
    ensures SpansKept(next)
  {
    forall i | 0 <= i < |next.spans| ensures OnceEnded(next, i) {
      assert OnceEnded(st, i);
    }
    forall kind, key ensures SlotSound(next, kind, key) {
      assert SlotSound(st, kind, key);
    }
  }

  lemma EndedOnce(st: State, kind: Kind, key: string, outcome: string, now: real, i: nat)
    requires SpansKept(st) && key in st.Open(kind) && i < |st.spans|
    ensures OnceEnded(Ended(st, kind, key, outcome, now), i)
  {
    var next := Ended(st, kind, key, outcome, now);
    assert OnceEnded(st, i) && SlotSound(st, kind, key);
    assert next.Open(st.spans[i].kind) ==
      if st.spans[i].kind == kind then st.Open(kind) - {key} else st.Open(st.spans[i].kind);
  }

  lemma EndedKeepsSpans(st: State, kind: Kind, key: string, outcome: string, now: real)
    requires SpansKept(st) && !st.closed
    ensures SpansKept(Ticked(Ended(st, kind, key, outcome, now)))
  {
    var next := Ticked(Ended(st, kind, key, outcome, now));
    if key in st.Open(kind) {
      assert SlotSound(st, kind, key);
      forall i | 0 <= i < |next.spans| ensures OnceEnded(next, i) {
        EndedOnce(st, kind, key, outcome, now, i);
      }
      forall other, k ensures SlotSound(next, other, k) {
        assert SlotSound(st, other, k);
      }
      EndedTimed(st.spans, st.Open(kind)[key].span, End(outcome, Some(now), st.tick), st.tick);
    } else {
      SpansCarry(st, next);
    }
  }

  lemma EndedTimed(spans: seq<Span>, i: nat, end: End, tick: nat)
    requires Timed(spans, tick) && i < |spans| && end.tick == tick
    ensures Timed(EndSpan(spans, i, end), tick + 1)
  {
  }

  lemma ClosedKeepsSpans(st: State)
    requires SpansKept(st)
    ensures SpansKept(Closed(st))
  {
    var next := Closed(st);
    if st.closed {
      SpansCarry(st, next);
    } else {
      forall i | 0 <= i < |next.spans| ensures OnceEnded(next, i) {
        assert OnceEnded(st, i);
      }
    }
  }

  lemma StartedKeepsParents(st: State, kind: Kind, key: string, turn: string, now: real)
    requires SpansKept(st) && ParentsKept(st)
    ensures ParentsKept(Started(st, kind, key, turn, now))
  {
    var next := Started(st, kind, key, turn, now);
    if key !in st.Open(kind) {
      forall i | 0 <= i < |next.spans| ensures ParentRight(next.spans, i) {
        if i < |st.spans| {
          assert ParentRight(st.spans, i) && next.spans[i] == st.spans[i];
        } else {
          NewParent(st, kind, turn, next.spans, i);
        }
      }
    }
  }

  lemma NewParent(st: State, kind: Kind, turn: string, spans: seq<Span>, i: nat)
    requires SpansKept(st) && i == |st.spans| && |spans| == i + 1 && spans[..i] == st.spans
    requires spans[i].kind == kind && spans[i].turn == turn && spans[i].startTick == st.tick && spans[i].ends == []
    requires spans[i].parent == ParentOf(st, kind, turn)
    ensures ParentRight(spans, i)
  {
    assert SlotSound(st, Turn, turn);
    if !kind.Turn? {
      forall p | 0 <= p < |spans| ensures spans[i].parent == Some(p) <==> OpenDuring(spans[p], spans[i]) {
        if p < i {
          assert spans[p] == spans[..i][p] == st.spans[p];
          assert OnceEnded(st, p);
        }
      }
    }
  }

  /** Spans of which some have ended at `tick`, after every start so far. */
  ghost predicate LaterEnds(before: seq<Span>, after: seq<Span>, tick: nat) {
    && |after| == |before|
    && forall i :: 0 <= i < |before| ==>
      after[i] == before[i]
      || (before[i].ends == [] && exists outcome, at :: after[i] == before[i].(ends := [End(outcome, at, tick)]))
  }

  lemma EndsKeepParents(before: seq<Span>, after: seq<Span>, tick: nat)
    requires LaterEnds(before, after, tick) && Timed(before, tick)
    requires forall i :: 0 <= i < |before| ==> ParentRight(before, i)
    ensures forall i :: 0 <= i < |after| ==> ParentRight(after, i)
  {
    forall i | 0 <= i < |after| ensures ParentRight(after, i) {
      assert ParentRight(before, i);
      forall p | 0 <= p < |after| ensures OpenDuring(after[p], after[i]) == OpenDuring(before[p], before[i]) {
      }
    }
  }

  lemma EndedKeepsParents(st: State, kind: Kind, key: string, outcome: string, now: real)
    requires SpansKept(st) && ParentsKept(st)
    ensures ParentsKept(Ended(st, kind, key, outcome, now))
  {
    if key in st.Open(kind) {
      assert SlotSound(st, kind, key);
      var i := st.Open(kind)[key].span;
      assert OnceEnded(st, i);
      assert [] + [End(outcome, Some(now), st.tick)] == [End(outcome, Some(now), st.tick)];
      EndsKeepParents(st.spans, EndSpan(st.spans, i, End(outcome, Some(now), st.tick)), st.tick);
    }
  }

  lemma ClosedKeepsParents(st: State)
    requires SpansKept(st) && ParentsKept(st)
    ensures ParentsKept(Closed(st))
  {
    EndsKeepParents(st.spans, AllEnded(st.spans, st.tick), st.tick);
  }

  lemma {:induction false} TerminalUpdate(spans: seq<Span>, i: nat, s: Span, kind: Kind)
    requires i < |spans| && s.kind == spans[i].kind && !TerminallyEnded(spans[i])
    ensures TerminalCount(spans[i := s], kind) ==
      TerminalCount(spans, kind) + if s.kind == kind && TerminallyEnded(s) then 1 else 0
  {
    var n := |spans|;
    if i == n - 1 {
      assert spans[i := s][..n - 1] == spans[..n - 1];
    } else {
      assert spans[i := s][..n - 1] == spans[..n - 1][i := s];
      TerminalUpdate(spans[..n - 1], i, s, kind);
    }
  }

  lemma {:induction false} TerminalSame(a: seq<Span>, b: seq<Span>, kind: Kind)
    requires |a| == |b|
    requires forall i :: 0 <= i < |a| ==> a[i].kind == b[i].kind && TerminallyEnded(a[i]) == TerminallyEnded(b[i])
    ensures TerminalCount(a, kind) == TerminalCount(b, kind)
  {
    if a != [] {
      TerminalSame(a[..|a| - 1], b[..|b| - 1], kind);
    }
  }

  lemma StartedKeepsSamples(st: State, kind: Kind, key: string, turn: string, now: real)
    requires SamplesKept(st)
    ensures SamplesKept(Started(st, kind, key, turn, now))
  {
    var next := Started(st, kind, key, turn, now);
    if key !in st.Open(kind) {
      forall other ensures TerminalCount(next.spans, other) == TerminalCount(st.spans, other) {
        assert next.spans[..|st.spans|] == st.spans;
      }
      forall k | 0 <= k < |next.samples| ensures SampleSound(next.spans, next.samples[k]) {
        assert SampleSound(st.spans, st.samples[k]);
      }
      assert forall other :: SampleCount(st.samples, other) == TerminalCount(st.spans, other);
    }
  }

  lemma SamplesExtend(st: State, i: nat, ended: Span, sample: Sample)
    requires SamplesKept(st) && i < |st.spans| && st.spans[i].ends == []
    requires ended.kind == st.spans[i].kind && sample.span == i && Times(sample, ended)
    ensures SamplesKept(st.(spans := st.spans[i := ended], samples := st.samples + [sample]))
  {
    var spans, samples := st.spans[i := ended], st.samples + [sample];
    forall k | 0 <= k < |samples|
      ensures SampleSound(spans, samples[k]) && (k < |st.samples| ==> samples[k].span != i) {
      if k < |st.samples| {
        assert SampleSound(st.spans, st.samples[k]);
      }
    }
    forall kind ensures SampleCount(samples, kind) == TerminalCount(spans, kind) {
      assert samples[..|st.samples|] == st.samples;
      TerminalUpdate(st.spans, i, ended, kind);
    }
  }

  lemma EndedKeepsSamples(st: State, kind: Kind, key: string, outcome: string, now: real)
    requires SpansKept(st) && SamplesKept(st) && outcome != SHUTDOWN
    ensures SamplesKept(Ended(st, kind, key, outcome, now))
  {
    if key in st.Open(kind) {
      assert SlotSound(st, kind, key);
      var slot := st.Open(kind)[key];
      assert OnceEnded(st, slot.span);
      SamplesExtend(st, slot.span, EndSpan(st.spans, slot.span, End(outcome, Some(now), st.tick))[slot.span],
                    Sample(kind, slot.span, Elapsed(now, slot.startedAt), outcome));
    }
  }

  lemma ClosedKeepsSamples(st: State)
    requires SamplesKept(st)
    ensures SamplesKept(Closed(st))
  {
    var next := Closed(st);
    forall kind ensures SampleCount(next.samples, kind) == TerminalCount(next.spans, kind) {
      TerminalSame(st.spans, next.spans, kind);
      assert SampleCount(st.samples, kind) == TerminalCount(st.spans, kind);
    }
    forall k | 0 <= k < |next.samples| ensures SampleSound(next.spans, next.samples[k]) {
      assert SampleSound(st.spans, st.samples[k]);
    }
  }

  /** Two states that hold the same spans, slots and samples. */
  predicate SameSpans(a: State, b: State) {
    && a.turns == b.turns && a.models == b.models && a.tools == b.tools && a.closed == b.closed
    && a.spans == b.spans && a.samples == b.samples && a.tick == b.tick
  }

  lemma SameSpansValid(a: State, b: State)
    requires SameSpans(a, b) && Valid(a)
    ensures Valid(b)
  {
    SpansCarry(a, b);
    assert forall i :: 0 <= i < |a.spans| ==> ParentRight(a.spans, i);
    assert forall kind :: SampleCount(a.samples, kind) == TerminalCount(a.spans, kind);
  }

  lemma TickedValid(st: State)
    requires Valid(st)
    ensures Valid(Ticked(st))
  {
    SpansCarry(st, Ticked(st));
    assert forall i :: 0 <= i < |st.spans| ==> ParentRight(st.spans, i);
    assert forall kind :: SampleCount(st.samples, kind) == TerminalCount(st.spans, kind);
  }

  lemma StartedKeepsValid(st: State, kind: Kind, key: string, turn: string, now: real)
    requires Valid(st) && !st.closed
    ensures Valid(Ticked(Started(st, kind, key, turn, now)))
  {
    StartedKeepsSpans(st, kind, key, turn, now);
    StartedKeepsParents(st, kind, key, turn, now);
    StartedKeepsSamples(st, kind, key, turn, now);
    SameButTick(Started(st, kind, key, turn, now));
  }

  lemma EndedKeepsValid(st: State, kind: Kind, key: string, outcome: string, now: real)
    requires Valid(st) && !st.closed && outcome != SHUTDOWN
    ensures Valid(Ticked(Ended(st, kind, key, outcome, now)))
  {
    EndedKeepsSpans(st, kind, key, outcome, now);
    EndedKeepsParents(st, kind, key, outcome, now);
    EndedKeepsSamples(st, kind, key, outcome, now);
    SameButTick(Ended(st, kind, key, outcome, now));
  }

  lemma SameButTick(st: State)
    requires ParentsKept(st) && SamplesKept(st)
    ensures ParentsKept(Ticked(st)) && SamplesKept(Ticked(st))
  {
    assert forall i :: 0 <= i < |st.spans| ==> ParentRight(st.spans, i);
    assert forall kind :: SampleCount(st.samples, kind) == TerminalCount(st.spans, kind);
  }

  lemma FinishedIsEnded(st: State, e: Event, kind: Kind, key: string, outcome: string, now: real)
    ensures SameSpans(Finished(st, e, kind, key, outcome, now), Ended(st, kind, key, outcome, now))
  {
  }

  lemma HandledKeepsValid(st: State, shape: Shape, e: Event, now: real)
    requires Valid(st) && !st.closed && (shape.Finishes? ==> shape.outcome != SHUTDOWN)
    ensures Valid(Ticked(Handled(st, shape, e, now)))
  {
    match shape
    case Starts(kind, key) =>
      StartedKeepsValid(st, kind, key, SafeString(e, "turn_id", 256), now);
    case Finishes(kind, key, outcome) =>
      FinishedIsEnded(st, e, kind, key, outcome, now);
      EndedKeepsValid(st, kind, key, outcome, now);
      SameSpansValid(Ticked(Ended(st, kind, key, outcome, now)), Ticked(Handled(st, shape, e, now)));
    case _ =>
      TickedValid(st);
      SameSpansValid(Ticked(st), Ticked(Handled(st, shape, e, now)));
  }

  lemma AfterKeepsValid(st: State, call: Call)
    requires Valid(st)
    ensures Valid(After(st, call))
  {
    match call
    case Close =>
      ClosedKeepsSpans(st);
      ClosedKeepsParents(st);
      ClosedKeepsSamples(st);
    case Event(e, now) =>
      if st.closed {
        TickedValid(st);
      } else {
        HandledKeepsValid(st, ShapeOf(e), e, now);
      }
  }

  lemma InitialValid()
    ensures Valid(INITIAL)
  {
    assert forall kind :: SampleCount([], kind) == 0 && TerminalCount([], kind) == 0;
  }

  /**
   After any sequence of events and closes every started span is held in its one slot or has
   ended exactly once, every parent is the turn that was open, and the histograms time exactly
   the spans that terminal events ended.
   */
  lemma {:induction false} RunsAreValid(calls: seq<Call>)
    ensures Valid(Run(calls))
  {
    if calls == [] {
      InitialValid();
    } else {
      RunsAreValid(calls[..|calls| - 1]);
      AfterKeepsValid(Run(calls[..|calls| - 1]), calls[|calls| - 1]);
    }
  }

  /** Once closed, no span is open and nothing that follows has any effect. */
  lemma {:induction false} ClosedIsFinal(calls: seq<Call>, k: nat)
    requires k < |calls| && calls[k] == Close
    ensures SameEffects(Run(calls), Run(calls[..k + 1])) && Run(calls).closed
    ensures forall i :: 0 <= i < |Run(calls).spans| ==> |Run(calls).spans[i].ends| == 1
    decreases |calls|
  {
    var earlier := calls[..|calls| - 1];
    if k == |calls| - 1 {
      assert calls[..k + 1] == calls;
    } else {
      assert earlier[..k + 1] == calls[..k + 1];
      ClosedIsFinal(earlier, k);
    }
    RunsAreValid(calls);
    forall i | 0 <= i < |Run(calls).spans| ensures |Run(calls).spans[i].ends| == 1 {
      assert OnceEnded(Run(calls), i);
    }
  }

  predicate SameEffects(a: State, b: State) {
    && a.turns == b.turns && a.models == b.models && a.tools == b.tools && a.closed == b.closed
    && a.spans == b.spans && a.samples == b.samples && a.counts == b.counts
  }

  /* What the counters count. */

  predicate IsFinish(call: Call, kind: Kind) {
    call.Event? && ShapeOf(call.event).Finishes? && ShapeOf(call.event).kind == kind
  }

  /** The terminal events of a kind that came before any close. */
  function FinishEvents(calls: seq<Call>, kind: Kind): nat {
    if calls == [] then 0
    else
      var earlier := calls[..|calls| - 1];
      FinishEvents(earlier, kind) + if Close !in earlier && IsFinish(calls[|calls| - 1], kind) then 1 else 0
  }

  lemma HandledStaysOpen(st: State, shape: Shape, e: Event, now: real)
    ensures Handled(st, shape, e, now).closed == st.closed
  {
    if shape.Finishes? {
      EndedOnlySpans(st, shape.kind, shape.key, shape.outcome, now);
    }
  }

  lemma AfterClosed(st: State, call: Call)
    ensures After(st, call).closed <==> st.closed || call == Close
  {
    if call.Event? {
      HandledStaysOpen(st, ShapeOf(call.event), call.event, call.now);
    }
  }

  lemma {:induction false} RunClosed(calls: seq<Call>)
    ensures Run(calls).closed <==> Close in calls
  {
    if calls != [] {
      var earlier := calls[..|calls| - 1];
      RunClosed(earlier);
      AfterClosed(Run(earlier), calls[|calls| - 1]);
      assert calls == earlier + [calls[|calls| - 1]];
    }
  }

  lemma {:induction false} TotalAppend(a: seq<Count>, b: seq<Count>, instrument: string)
    ensures InstrumentTotal(a + b, instrument) == InstrumentTotal(a, instrument) + InstrumentTotal(b, instrument)
  {
    if b == [] {
      assert a + b == a;
    } else {
      assert (a + b)[..|a + b| - 1] == a + b[..|b| - 1];
      TotalAppend(a, b[..|b| - 1], instrument);
    }
  }

  lemma {:induction false} UsageIsTokens(e: Event, fields: seq<(string, string)>, instrument: string)
    requires instrument != "ash.model.tokens"
    ensures InstrumentTotal(UsageCounts(e, fields), instrument) == 0
  {
    if fields != [] {
      UsageIsTokens(e, fields[..|fields| - 1], instrument);
      var last := fields[|fields| - 1];
      var earlier, one := UsageCounts(e, fields[..|fields| - 1]), Count("ash.model.tokens", SafeInt(e, last.0), last.1);
      assert (earlier + [one])[..|earlier|] == earlier && earlier + [] == earlier;
      assert InstrumentTotal(earlier + [one], instrument) == InstrumentTotal(earlier, instrument);
    }
  }

  /** How much an event of this shape adds to the counter of a kind. */
  function Counts(st: State, shape: Shape, kind: Kind): nat {
    if shape.Finishes? && shape.kind == kind && (kind.Turn? ==> shape.key in st.turns) then 1 else 0
  }

  lemma CountedTotal(st: State, instrument: string, amount: nat, detail: string, other: string)
    ensures InstrumentTotal(st.Counted(instrument, amount, detail).counts, other)
         == InstrumentTotal(st.counts, other) + if instrument == other then amount else 0
  {
    assert st.Counted(instrument, amount, detail).counts[..|st.counts|] == st.counts;
  }

  lemma OneCount(one: Count, instrument: string)
    ensures InstrumentTotal([one], instrument) == if one.instrument == instrument then one.amount else 0
  {
    assert [one][..0] == [];
  }

  /** What a terminal event adds to the counters. */
  function Added(e: Event, kind: Kind, found: bool, outcome: string): seq<Count> {
    (if kind.Turn? && !found then [] else [Count(CounterOf(kind), 1, outcome)])
    + if kind.Model? && outcome == "success" then UsageCounts(e, TOKEN_FIELDS) else []
  }

  lemma AddedTotal(e: Event, k: Kind, found: bool, outcome: string, kind: Kind)
    ensures InstrumentTotal(Added(e, k, found, outcome), CounterOf(kind)) ==
      if k == kind && (k.Turn? ==> found) then 1 else 0
  {
    var first := if k.Turn? && !found then [] else [Count(CounterOf(k), 1, outcome)];
    var rest := if k.Model? && outcome == "success" then UsageCounts(e, TOKEN_FIELDS) else [];
    DifferentCounters(k, kind);
    OneCount(Count(CounterOf(k), 1, outcome), CounterOf(kind));
    UsageIsTokens(e, TOKEN_FIELDS, CounterOf(kind));
    TotalAppend(first, rest, CounterOf(kind));
  }

  lemma EndedOnlySpans(st: State, kind: Kind, key: string, outcome: string, now: real)
    ensures Ended(st, kind, key, outcome, now).counts == st.counts
        && Ended(st, kind, key, outcome, now).closed == st.closed
  {
  }

  lemma FinishedAdds(st: State, e: Event, kind: Kind, key: string, outcome: string, now: real)
    ensures Finished(st, e, kind, key, outcome, now).counts == st.counts + Added(e, kind, key in st.turns, outcome)
  {
    EndedOnlySpans(st, kind, key, outcome, now);
  }

  lemma FinishedCounts(st: State, e: Event, k: Kind, key: string, outcome: string, now: real, kind: Kind)
    ensures InstrumentTotal(Finished(st, e, k, key, outcome, now).counts, CounterOf(kind))
         == InstrumentTotal(st.counts, CounterOf(kind)) + Counts(st, Finishes(k, key, outcome), kind)
  {
    FinishedAdds(st, e, k, key, outcome, now);
    AddedTotal(e, k, key in st.turns, outcome, kind);
    TotalAppend(st.counts, Added(e, k, key in st.turns, outcome), CounterOf(kind));
  }

  lemma HandledCounts(st: State, shape: Shape, e: Event, now: real, kind: Kind)
    ensures InstrumentTotal(Handled(st, shape, e, now).counts, CounterOf(kind))
         == InstrumentTotal(st.counts, CounterOf(kind)) + Counts(st, shape, kind)
  {
    match shape
    case Finishes(k, key, outcome) => FinishedCounts(st, e, k, key, outcome, now, kind);
    case ContextUsage => CountedTotal(st, "ash.context.tokens", SafeInt(e, "current"), "", CounterOf(kind));
    case Retrying => CountedTotal(st, "ash.provider.retries", 1, "", CounterOf(kind));
    case CircuitOpened => CountedTotal(st, "ash.provider.circuit_opened", 1, "", CounterOf(kind));
    case _ =>
  }

  lemma HandledSamples(st: State, shape: Shape, e: Event, now: real)
    ensures SampleCount(Handled(st, shape, e, now).samples, Turn)
        == SampleCount(st.samples, Turn) + Counts(st, shape, Turn)
  {
    match shape
    case Finishes(kind, key, outcome) =>
      FinishedIsEnded(st, e, kind, key, outcome, now);
      var after := Ended(st, kind, key, outcome, now).samples;
      assert |after| > |st.samples| ==> after[..|st.samples|] == st.samples;
    case _ =>
  }

  lemma DifferentCounters(a: Kind, b: Kind)
    ensures CounterOf(a) == CounterOf(b) <==> a == b
  {
    assert "ash.turns"[4] == 't' && "ash.turns"[5] == 'u' && "ash.model.requests"[4] == 'm'
        && "ash.tool.calls"[5] == 'o';
  }

  /**
   Model and tool counters count every terminal event before the close, whether or not a span
   was open; the turn counter counts only turns whose span it ended.
   */
  lemma {:induction false} CountersExactly(calls: seq<Call>)
    ensures InstrumentTotal(Run(calls).counts, "ash.model.requests") == FinishEvents(calls, Model)
    ensures InstrumentTotal(Run(calls).counts, "ash.tool.calls") == FinishEvents(calls, Tool)
    ensures InstrumentTotal(Run(calls).counts, "ash.turns") == SampleCount(Run(calls).samples, Turn)
  {
    if calls != [] {
      var earlier, call := calls[..|calls| - 1], calls[|calls| - 1];
      CountersExactly(earlier);
      RunClosed(earlier);
      if call.Event? && !Run(earlier).closed {
        var st, shape := Run(earlier), ShapeOf(call.event);
        HandledCounts(st, shape, call.event, call.now, Model);
        HandledCounts(st, shape, call.event, call.now, Tool);
        HandledCounts(st, shape, call.event, call.now, Turn);
        HandledSamples(st, shape, call.event, call.now);
      }
    }
  }

  /* The observer itself. */

  /** Every open span of one kind, ended as a shutdown. */
  function KindEnded(spans: seq<Span>, kind: Kind, tick: nat): (r: seq<Span>)
    ensures |r| == |spans|
  {
    seq(|spans|, i requires 0 <= i < |spans| =>
      if spans[i].kind == kind && spans[i].ends == [] then spans[i].(ends := [End(SHUTDOWN, None, tick)]) else spans[i])
  }

  lemma KindsEnded(spans: seq<Span>, tick: nat)
    ensures KindEnded(KindEnded(KindEnded(spans, Model, tick), Tool, tick), Turn, tick) == AllEnded(spans, tick)
  {
  }

  /** The slots of one kind hold exactly the spans of that kind that have not ended, under their keys. */
  ghost predicate HoldsOpen(spans: seq<Span>, kind: Kind, slots: Slots) {
    && (forall key :: key in slots ==>
      slots[key].span < |spans| && spans[slots[key].span].kind == kind && spans[slots[key].span].key == key)
    && (forall i :: 0 <= i < |spans| && spans[i].kind == kind ==>
         (spans[i].ends == [] <==> spans[i].key in slots && slots[spans[i].key].span == i))
  }

  lemma SlotsHoldOpen(st: State, kind: Kind)
    requires SpansKept(st)
    ensures HoldsOpen(st.spans, kind, st.Open(kind))
  {
    forall key | key in st.Open(kind) ensures SlotSound(st, kind, key) {
    }
    forall i | 0 <= i < |st.spans| && st.spans[i].kind == kind ensures st.spans[i].ends == [] <==> Held(st, i) {
      assert OnceEnded(st, i);
    }
  }

  lemma OthersHeld(spans: seq<Span>, ended: Kind, kind: Kind, slots: Slots, tick: nat)
    requires HoldsOpen(spans, kind, slots) && ended != kind
    ensures HoldsOpen(KindEnded(spans, ended, tick), kind, slots)
  {
  }

  /** Ending the three collections in turn ends every open span. */
  lemma ClosedByKind(st: State)
    requires SpansKept(st)
    ensures var models := KindEnded(st.spans, Model, st.tick);
      && HoldsOpen(st.spans, Model, st.models) && HoldsOpen(models, Tool, st.tools)
      && HoldsOpen(KindEnded(models, Tool, st.tick), Turn, st.turns)
      && KindEnded(KindEnded(models, Tool, st.tick), Turn, st.tick) == AllEnded(st.spans, st.tick)
  {
    SlotsHoldOpen(st, Model);
    SlotsHoldOpen(st, Tool);
    SlotsHoldOpen(st, Turn);
    OthersHeld(st.spans, Model, Tool, st.tools, st.tick);
    OthersHeld(st.spans, Model, Turn, st.turns, st.tick);
    OthersHeld(KindEnded(st.spans, Model, st.tick), Tool, Turn, st.turns, st.tick);
    KindsEnded(st.spans, st.tick);
  }

  /** Part of ending a collection: the spans whose keys are left are still open. */
  function PartlyEnded(spans: seq<Span>, kind: Kind, left: set<string>, tick: nat): seq<Span> {
    seq(|spans|, i requires 0 <= i < |spans| =>
      if spans[i].kind == kind && spans[i].ends == [] && spans[i].key !in left then
        spans[i].(ends := [End(SHUTDOWN, None, tick)])
      else spans[i])
  }

  lemma EndOneMore(spans: seq<Span>, kind: Kind, slots: Slots, left: set<string>, key: string, tick: nat)
    requires HoldsOpen(spans, kind, slots) && key in left && left <= slots.Keys
    ensures EndSpan(PartlyEnded(spans, kind, left, tick), slots[key].span, End(SHUTDOWN, None, tick))
        == PartlyEnded(spans, kind, left - {key}, tick)
  {
    var now, next := PartlyEnded(spans, kind, left, tick), PartlyEnded(spans, kind, left - {key}, tick);
    var end := End(SHUTDOWN, None, tick);
    forall i | 0 <= i < |spans| ensures EndSpan(now, slots[key].span, end)[i] == next[i] {
      if i == slots[key].span {
        assert spans[i].ends == [] && spans[i].ends + [end] == [end];
      }
    }
  }

  lemma PartlyEnds(spans: seq<Span>, kind: Kind, slots: Slots, tick: nat)
    requires HoldsOpen(spans, kind, slots)
    ensures PartlyEnded(spans, kind, slots.Keys, tick) == spans
        && PartlyEnded(spans, kind, {}, tick) == KindEnded(spans, kind, tick)
  {
  }

  class Observer {
    var turnSpans: Slots
    var modelSpans: Slots
    var toolSpans: Slots
    var closed: bool
    var spans: seq<Span>
    var samples: seq<Sample>
    var counts: seq<Count>
    var tick: nat

    ghost function Now(): State
      reads this
    {
      State(turnSpans, modelSpans, toolSpans, closed, spans, samples, counts, tick)
    }

    constructor ()
      ensures Now() == INITIAL && SpansKept(Now())
    {
      turnSpans, modelSpans, toolSpans, closed := map[], map[], map[], false;
      spans, samples, counts, tick := [], [], [], 0;
    }

    method Add(instrument: string, amount: nat, detail: string)
      modifies this`counts
      ensures Now() == old(Now()).Counted(instrument, amount, detail)
    {
      counts := counts + [Count(instrument, amount, detail)];
    }

    method StartSpan(kind: Kind, key: string, parent: Option<nat>, turn: string, now: real) returns (slot: OpenSpan)
      modifies this`spans
      ensures spans == old(spans) + [Span(kind, key, turn, parent, now, tick, [])]
          && slot == OpenSpan(|old(spans)|, now)
    {
      slot := OpenSpan(|spans|, now);
      spans := spans + [Span(kind, key, turn, parent, now, tick, [])];
    }

    method RecordUsage(event: Event)
      modifies this`counts
      ensures counts == old(counts) + UsageCounts(event, TOKEN_FIELDS)
    {
      for i := 0 to |TOKEN_FIELDS|
        invariant counts == old(counts) + UsageCounts(event, TOKEN_FIELDS[..i])
      {
        var amount := SafeInt(event, TOKEN_FIELDS[i].0);
        assert TOKEN_FIELDS[..i + 1][..i] == TOKEN_FIELDS[..i];
        if amount > 0 {
          Add("ash.model.tokens", amount, TOKEN_FIELDS[i].1);
        }
      }
      assert TOKEN_FIELDS[..|TOKEN_FIELDS|] == TOKEN_FIELDS;
    }

    method EndAndTime(kind: Kind, slot: OpenSpan, outcome: string, now: real)
      modifies this`spans, this`samples
      ensures spans == EndSpan(old(spans), slot.span, End(outcome, Some(now), tick))
      ensures samples == old(samples) + [Sample(kind, slot.span, Elapsed(now, slot.startedAt), outcome)]
    {
      spans := EndSpan(spans, slot.span, End(outcome, Some(now), tick));
      samples := samples + [Sample(kind, slot.span, Elapsed(now, slot.startedAt), outcome)];
    }

    /** `_finish_model`: the request is counted whether or not its span is open. */
    method FinishModel(event: Event, key: string, outcome: string, now: real)
      modifies this`modelSpans, this`spans, this`samples, this`counts
      ensures Now() == Finished(old(Now()), event, Model, key, outcome, now)
    {
      Add("ash.model.requests", 1, outcome);
      if key in modelSpans {
        var slot := modelSpans[key];
        modelSpans := modelSpans - {key};
        if outcome == "success" {
          RecordUsage(event);
        }
        EndAndTime(Model, slot, outcome, now);
      } else if outcome == "success" {
        RecordUsage(event);
      }
    }

    /** `_finish_tool`. */
    method FinishTool(event: Event, key: string, outcome: string, now: real)
      modifies this`toolSpans, this`spans, this`samples, this`counts
      ensures Now() == Finished(old(Now()), event, Tool, key, outcome, now)
    {
      Add("ash.tool.calls", 1, outcome);
      if key !in toolSpans {
        return;
      }
      var slot := toolSpans[key];
      toolSpans := toolSpans - {key};
      EndAndTime(Tool, slot, outcome, now);
    }

    /** `_finish_turn`: only a turn whose span is open is counted. */
    method FinishTurn(event: Event, key: string, outcome: string, now: real)
      modifies this`turnSpans, this`spans, this`samples, this`counts
      ensures Now() == Finished(old(Now()), event, Turn, key, outcome, now)
    {
      if key !in turnSpans {
        return;
      }
      var slot := turnSpans[key];
      turnSpans := turnSpans - {key};
      Add("ash.turns", 1, outcome);
      EndAndTime(Turn, slot, outcome, now);
    }

    method Start(kind: Kind, key: string, turn: string, now: real)
      modifies this`turnSpans, this`modelSpans, this`toolSpans, this`spans
      ensures Now() == Started(old(Now()), kind, key, turn, now)
    {
      var parent := if turn in turnSpans then Some(turnSpans[turn].span) else None;
      match kind {
        case Turn =>
          if key !in turnSpans {
            var slot := StartSpan(Turn, key, None, turn, now);
            turnSpans := turnSpans[key := slot];
          }
        case Model =>
          if key !in modelSpans {
            var slot := StartSpan(Model, key, parent, turn, now);
            modelSpans := modelSpans[key := slot];
          }
        case Tool =>
          if key !in toolSpans {
            var slot := StartSpan(Tool, key, parent, turn, now);
            toolSpans := toolSpans[key := slot];
          }
      }
    }

    method Handle(shape: Shape, event: Event, now: real)
      modifies this
      ensures Now() == Handled(old(Now()), shape, event, now)
    {
      match shape {
        case Starts(kind, key) => Start(kind, key, SafeString(event, "turn_id", 256), now);
        case Finishes(Model, key, outcome) => FinishModel(event, key, outcome, now);
        case Finishes(Tool, key, outcome) => FinishTool(event, key, outcome, now);
        case Finishes(Turn, key, outcome) => FinishTurn(event, key, outcome, now);
        case ContextUsage => Add("ash.context.tokens", SafeInt(event, "current"), "");
        case Retrying => Add("ash.provider.retries", 1, "");
        case CircuitOpened => Add("ash.provider.circuit_opened", 1, "");
        case Ignored =>
      }
    }

    method OnEvent(event: Event, now: real)
      modifies this
      ensures Now() == After(old(Now()), Event(event, now))
    {
      if !closed {
        Handle(ShapeOf(event), event, now);
      }
      tick := tick + 1;
    }

    /** Ending every span of one collection. */
    method EndCollection(kind: Kind, slots: Slots)
      requires HoldsOpen(spans, kind, slots)
      modifies this`spans
      ensures spans == KindEnded(old(spans), kind, tick)
    {
      var left := slots.Keys;
      PartlyEnds(spans, kind, slots, tick);
      while left != {}
        invariant left <= slots.Keys && spans == PartlyEnded(old(spans), kind, left, tick)
      {
        var key :| key in left;
        EndOneMore(old(spans), kind, slots, left, key, tick);
        left := left - {key};
        spans := EndSpan(spans, slots[key].span, End(SHUTDOWN, None, tick));
      }
    }

    method Close()
      requires SpansKept(Now())
      modifies this
      ensures Now() == After(old(Now()), Call.Close)
    {
      if !closed {
        closed := true;
        ClosedByKind(old(Now()));
        EndCollection(Model, modelSpans);
        modelSpans := map[];
        EndCollection(Tool, toolSpans);
        toolSpans := map[];
        EndCollection(Turn, turnSpans);
        turnSpans := map[];
      }
      tick := tick + 1;
    }
  }
}
