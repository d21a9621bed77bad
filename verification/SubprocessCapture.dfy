/**
 Bounded capture of a subprocess's two pipes: two reader threads, an eight-slot queue and one
 consumer. Every interleaving of their atomic steps is a run of `Next`; a queue put or get
 that times out and is retried changes nothing and is not a step.
 */
module SubprocessCapture {
  import opened Common

  const CAPTURE_CHUNK_BYTES := 8192
  const CAPTURE_QUEUE_SIZE := 8

  datatype Stream = Stdout | Stderr

  /** One value for each of the two streams. */
  datatype Both<T> = Both(out: T, err: T) {
    function At(s: Stream): T {
      if s.Stdout? then out else err
    }

    function With(s: Stream, value: T): Both<T> {
      if s.Stdout? then Both(value, err) else Both(out, value)
    }
  }

  datatype Phase = Reading | Holding(chunk: seq<Byte>) | Ending | Finished

  /** A reader: what its pipe has returned so far, what the pipe still holds, and whether a read failed. */
  datatype Reader = Reader(phase: Phase, read: seq<Byte>, left: seq<Byte>, failed: bool)

  datatype Event = Chunk(source: Stream, bytes: seq<Byte>) | End(source: Stream)

  datatype Consumer = Capturing | Waiting | Returned | TimedOut | TooMuch(stream: Stream)

  datatype State = State(
    readers: Both<Reader>,
    queue: seq<Event>,
    captured: Both<seq<Byte>>,
    finished: set<Stream>,
    consumer: Consumer)

  function Start(pipes: Both<seq<Byte>>): State {
    State(Both(Reader(Reading, [], pipes.out, false), Reader(Reading, [], pipes.err, false)),
          [], Both([], []), {}, Capturing)
  }

  /* The readers' steps. */

  ghost predicate ReadsChunk(a: Reader, b: Reader) {
    && a.phase.Reading?
    && b.phase.Holding? && 1 <= |b.phase.chunk| <= CAPTURE_CHUNK_BYTES
    && a.left == b.phase.chunk + b.left && b.read == a.read + b.phase.chunk && b.failed == a.failed
  }

  ghost predicate ReadsEnd(a: Reader, b: Reader) {
    a.phase.Reading? && ((a.left == [] && b == a.(phase := Ending)) || b == a.(phase := Ending, failed := true))
  }

  ghost predicate ReaderReads(a: State, b: State, s: Stream) {
    && (ReadsChunk(a.readers.At(s), b.readers.At(s)) || ReadsEnd(a.readers.At(s), b.readers.At(s)))
    && b == a.(readers := a.readers.With(s, b.readers.At(s)))
  }

  ghost predicate ReaderPuts(a: State, b: State, s: Stream) {
    && |a.queue| < CAPTURE_QUEUE_SIZE
    && match a.readers.At(s).phase
       case Holding(chunk) =>
         b == a.(queue := a.queue + [Chunk(s, chunk)], readers := a.readers.With(s, a.readers.At(s).(phase := Reading)))
       case Ending =>
         b == a.(queue := a.queue + [End(s)], readers := a.readers.With(s, a.readers.At(s).(phase := Finished)))
       case _ => false
  }

  /* The consumer's steps. */

  function Take(a: State, maxBytes: nat): State
    requires a.queue != []
  {
    var rest := a.(queue := a.queue[1..]);
    var s := a.queue[0].source;
    match a.queue[0]
    case End(_) =>
      var finished := a.finished + {s};
      rest.(finished := finished, consumer := if |finished| < 2 then Capturing else Waiting)
    case Chunk(_, bytes) =>
      if |a.captured.At(s)| + |bytes| > maxBytes then rest.(consumer := TooMuch(s))
      else rest.(captured := a.captured.With(s, a.captured.At(s) + bytes))
  }

  ghost predicate ConsumerTakes(a: State, b: State, maxBytes: nat) {
    a.consumer.Capturing? && a.queue != [] && b == Take(a, maxBytes)
  }

  /** The process has exited after both pipes ended. */
  ghost predicate ConsumerReturns(a: State, b: State) {
    a.consumer.Waiting? && b == a.(consumer := Returned)
  }

  ghost predicate ConsumerTimesOut(a: State, b: State) {
    (a.consumer.Capturing? || a.consumer.Waiting?) && b == a.(consumer := TimedOut)
  }

  /** A step that moves the capture forward; only possible before the consumer has stopped. */
  ghost predicate Productive(a: State, b: State, maxBytes: nat) {
    && (a.consumer.Capturing? || a.consumer.Waiting?)
    && (|| (exists s :: ReaderReads(a, b, s)) || (exists s :: ReaderPuts(a, b, s))
        || ConsumerTakes(a, b, maxBytes) || ConsumerReturns(a, b))
  }

  ghost predicate Next(a: State, b: State, maxBytes: nat) {
    Productive(a, b, maxBytes) || ConsumerTimesOut(a, b)
  }

  ghost predicate IsRun(run: seq<State>, pipes: Both<seq<Byte>>, maxBytes: nat)
  {
    run != [] && run[0] == Start(pipes) && forall i :: 0 <= i < |run| - 1 ==> Next(run[i], run[i + 1], maxBytes)
  }

  /* The invariant. */

  function BytesOf(e: Event, s: Stream): seq<Byte> {
    if e.Chunk? && e.source == s then e.bytes else []
  }

  function Queued(queue: seq<Event>, s: Stream): seq<Byte> {
    if queue == [] then [] else BytesOf(queue[0], s) + Queued(queue[1..], s)
  }

  function InHand(r: Reader): seq<Byte> {
    if r.phase.Holding? then r.phase.chunk else []
  }

  /** No event of `s` follows an end marker of `s`. */
  ghost predicate EndIsLast(queue: seq<Event>, s: Stream) {
    forall i, j :: 0 <= i < j < |queue| && queue[i] == End(s) ==> queue[j].source != s
  }

  ghost predicate Conserved(st: State, s: Stream)
  {
    st.captured.At(s) + Queued(st.queue, s) + InHand(st.readers.At(s)) == st.readers.At(s).read
  }

  /** The end marker is queued once, after the reader's last chunk, and taken after all of them. */
  ghost predicate Marked(st: State, s: Stream)
  {
    && EndIsLast(st.queue, s)
    && (End(s) in st.queue || s in st.finished <==> st.readers.At(s).phase.Finished?)
    && (s in st.finished ==> forall i :: 0 <= i < |st.queue| ==> st.queue[i].source != s)
    && (st.readers.At(s).phase.Finished? || st.readers.At(s).phase.Ending? ==>
      st.readers.At(s).failed || st.readers.At(s).left == [])
  }

  ghost predicate Inv(st: State, pipes: Both<seq<Byte>>, maxBytes: nat)
  {
    && |st.queue| <= CAPTURE_QUEUE_SIZE
    && (forall s :: Marked(st, s))
    && (forall s: Stream ::
      st.readers.At(s).read + st.readers.At(s).left == pipes.At(s) && |st.captured.At(s)| <= maxBytes)
    && (st.consumer.TooMuch? ==> |st.readers.At(st.consumer.stream).read| > maxBytes)
    && (!st.consumer.TooMuch? ==> forall s :: Conserved(st, s))
    && (st.consumer.Capturing? ==> |st.finished| < 2)
    && (st.consumer.Waiting? || st.consumer.Returned? ==> st.finished == {Stdout, Stderr})
  }

  lemma {:induction false} QueuedAppend(queue: seq<Event>, e: Event, s: Stream)
    ensures Queued(queue + [e], s) == Queued(queue, s) + BytesOf(e, s)
  {
    if queue == [] {
      assert queue + [e] == [e] && [e][1..] == [];
    } else {
      assert (queue + [e])[0] == queue[0] && (queue + [e])[1..] == queue[1..] + [e];
      QueuedAppend(queue[1..], e, s);
      assert BytesOf(queue[0], s) + (Queued(queue[1..], s) + BytesOf(e, s)) == Queued(queue, s) + BytesOf(e, s);
    }
  }

  lemma {:induction false} NothingQueued(queue: seq<Event>, s: Stream)
    requires forall i :: 0 <= i < |queue| ==> queue[i].source != s
    ensures Queued(queue, s) == []
  {
    if queue != [] {
      NothingQueued(queue[1..], s);
    }
  }

  lemma EitherStream(s: Stream)
    ensures s == Stdout || s == Stderr
  {
  }

  lemma BothStreams(finished: set<Stream>)
    ensures |finished| <= 2 && (|finished| == 2 <==> finished == {Stdout, Stderr})
    ensures |finished| < 2 ==> Stdout !in finished || Stderr !in finished
  {
    forall s | s in finished ensures s in {Stdout, Stderr} {
      EitherStream(s);
    }
    SubsetSize(finished, {Stdout, Stderr});
    if Stdout !in finished {
      SubsetSize(finished, {Stderr});
    } else if Stderr !in finished {
      SubsetSize(finished, {Stdout});
    } else {
      assert finished == {Stdout, Stderr};
    }
  }

  lemma {:induction false} SubsetSize(a: set<Stream>, b: set<Stream>)
    requires a <= b
    ensures |a| <= |b|
  {
    if a != {} {
      var s :| s in a;
      SubsetSize(a - {s}, b - {s});
    }
  }

  lemma ReadConserves(a: State, b: State, s: Stream, t: Stream)
    requires ReaderReads(a, b, s) && Conserved(a, t) && Marked(a, t)
    ensures Conserved(b, t) && Marked(b, t)
    ensures b.readers.At(t).read + b.readers.At(t).left == a.readers.At(t).read + a.readers.At(t).left
  {
    assert t != s ==> b.readers.At(t) == a.readers.At(t);
  }

  lemma ReadKeepsInv(a: State, b: State, s: Stream, pipes: Both<seq<Byte>>, maxBytes: nat)
    requires Inv(a, pipes, maxBytes)
    requires (a.consumer.Capturing? || a.consumer.Waiting?) && ReaderReads(a, b, s)
    ensures Inv(b, pipes, maxBytes)
  {
    forall t ensures Marked(b, t) && Conserved(b, t) && b.readers.At(t).read + b.readers.At(t).left == pipes.At(t) {
      assert Marked(a, t) && Conserved(a, t);
      ReadConserves(a, b, s, t);
    }
  }

  lemma PutMoves(a: State, b: State, s: Stream, t: Stream)
    requires ReaderPuts(a, b, s)
    ensures |b.queue| == |a.queue| + 1 && b.queue == a.queue + [b.queue[|a.queue|]]
    ensures BytesOf(b.queue[|a.queue|], t) + InHand(b.readers.At(t)) == InHand(a.readers.At(t))
    ensures b.captured == a.captured && b.readers.At(t).read == a.readers.At(t).read
  {
    assert t != s ==> b.readers.At(t) == a.readers.At(t);
  }

  lemma PutConserves(a: State, b: State, s: Stream, t: Stream)
    requires ReaderPuts(a, b, s) && Conserved(a, t)
    ensures Conserved(b, t)
  {
    PutMoves(a, b, s, t);
    var e := b.queue[|a.queue|];
    QueuedAppend(a.queue, e, t);
    Regroup(a.captured.At(t), Queued(a.queue, t), BytesOf(e, t), InHand(b.readers.At(t)));
  }

  lemma Regroup(a: seq<Byte>, b: seq<Byte>, c: seq<Byte>, d: seq<Byte>)
    ensures a + (b + c) + d == a + b + (c + d)
  {
  }

  lemma PutMarks(a: State, b: State, s: Stream, t: Stream)
    requires ReaderPuts(a, b, s) && Marked(a, t)
    ensures Marked(b, t)
  {
    var e := b.queue[|a.queue|];
    assert b.queue == a.queue + [e] && e.source == s;
    if t != s {
      assert b.readers.At(t) == a.readers.At(t);
      assert End(t) in b.queue <==> End(t) in a.queue;
    } else {
      assert End(t) in b.queue <==> End(t) in a.queue || e == End(t);
    }
  }

  lemma PutKeepsInv(a: State, b: State, s: Stream, pipes: Both<seq<Byte>>, maxBytes: nat)
    requires Inv(a, pipes, maxBytes)
    requires (a.consumer.Capturing? || a.consumer.Waiting?) && ReaderPuts(a, b, s)
    ensures Inv(b, pipes, maxBytes)
  {
    forall t ensures Marked(b, t) && Conserved(b, t) {
      assert Marked(a, t) && Conserved(a, t);
      PutConserves(a, b, s, t);
      PutMarks(a, b, s, t);
    }
    forall t ensures b.readers.At(t).read + b.readers.At(t).left == pipes.At(t) && |b.captured.At(t)| <= maxBytes {
      assert a.readers.At(t).read + a.readers.At(t).left == pipes.At(t) && |a.captured.At(t)| <= maxBytes;
    }
  }

  lemma TakeConserves(a: State, b: State, maxBytes: nat, t: Stream)
    requires ConsumerTakes(a, b, maxBytes) && Conserved(a, t)
    ensures !b.consumer.TooMuch? ==> Conserved(b, t)
  {
    assert a.queue[1..] == b.queue;
    assert t != a.queue[0].source ==> b.captured.At(t) == a.captured.At(t);
  }

  lemma TakeMarks(a: State, b: State, maxBytes: nat, t: Stream)
    requires ConsumerTakes(a, b, maxBytes) && Marked(a, t)
    ensures Marked(b, t)
  {
    var e := a.queue[0];
    assert a.queue == [e] + b.queue;
    assert forall i :: 0 <= i < |b.queue| ==> b.queue[i] == a.queue[i + 1];
  }

  lemma TakeKeepsInv(a: State, b: State, pipes: Both<seq<Byte>>, maxBytes: nat)
    requires Inv(a, pipes, maxBytes)
    requires ConsumerTakes(a, b, maxBytes)
    ensures Inv(b, pipes, maxBytes)
  {
    BothStreams(b.finished);
    forall t ensures Marked(b, t) && (!b.consumer.TooMuch? ==> Conserved(b, t)) {
      assert Marked(a, t) && Conserved(a, t);
      TakeConserves(a, b, maxBytes, t);
      TakeMarks(a, b, maxBytes, t);
    }
    assert Conserved(a, a.queue[0].source);
  }

  /** Every step keeps the invariant. */
  lemma NextKeepsInv(a: State, b: State, pipes: Both<seq<Byte>>, maxBytes: nat)
    requires Inv(a, pipes, maxBytes) && Next(a, b, maxBytes)
    ensures Inv(b, pipes, maxBytes)
  {
    if s :| ReaderReads(a, b, s) && (a.consumer.Capturing? || a.consumer.Waiting?) {
      ReadKeepsInv(a, b, s, pipes, maxBytes);
    } else if s :| ReaderPuts(a, b, s) && (a.consumer.Capturing? || a.consumer.Waiting?) {
      PutKeepsInv(a, b, s, pipes, maxBytes);
    } else if ConsumerTakes(a, b, maxBytes) {
      TakeKeepsInv(a, b, pipes, maxBytes);
    } else {
      forall t ensures Marked(b, t) && Conserved(b, t) {
        assert Marked(a, t) && Conserved(a, t);
      }
    }
  }

  /** In every interleaving, at every moment, no byte a reader has read is lost, reordered or duplicated. */
  lemma {:induction false} RunsAreConserved(run: seq<State>, pipes: Both<seq<Byte>>, maxBytes: nat, i: nat)
    requires IsRun(run, pipes, maxBytes) && i < |run|
    ensures Inv(run[i], pipes, maxBytes)
  {
    if i == 0 {
      forall s ensures Marked(run[0], s) && Conserved(run[0], s) {
      }
    } else {
      RunsAreConserved(run, pipes, maxBytes, i - 1);
      NextKeepsInv(run[i - 1], run[i], pipes, maxBytes);
    }
  }

  /** A successful return has captured all that both readers read, and the whole pipe where no read failed. */
  lemma ReturnIsComplete(run: seq<State>, pipes: Both<seq<Byte>>, maxBytes: nat, s: Stream)
    requires IsRun(run, pipes, maxBytes)
    requires run[|run| - 1].consumer.Returned?
    ensures var last := run[|run| - 1];
            && last.captured.At(s) == last.readers.At(s).read && |last.captured.At(s)| <= maxBytes
            && (!last.readers.At(s).failed ==> last.captured.At(s) == pipes.At(s))
  {
    var last := run[|run| - 1];
    RunsAreConserved(run, pipes, maxBytes, |run| - 1);
    assert Marked(last, s) && Conserved(last, s);
    NothingQueued(last.queue, s);
    assert last.readers.At(s).read + last.readers.At(s).left == pipes.At(s);
  }

  /** Output is refused only when a stream really holds more than the limit. */
  lemma RefusalIsDeserved(run: seq<State>, pipes: Both<seq<Byte>>, maxBytes: nat)
    requires IsRun(run, pipes, maxBytes)
    requires run[|run| - 1].consumer.TooMuch?
    ensures |pipes.At(run[|run| - 1].consumer.stream)| > maxBytes
  {
    RunsAreConserved(run, pipes, maxBytes, |run| - 1);
    var last := run[|run| - 1];
    var s := last.consumer.stream;
    assert last.readers.At(s).read + last.readers.At(s).left == pipes.At(s);
  }

  /* Progress. */

  function PhaseWeight(p: Phase): nat {
    match p
    case Finished => 0
    case Ending => 2
    case Reading => 3
    case Holding(_) => 5
  }

  function Weight(r: Reader): nat {
    3 * |r.left| + PhaseWeight(r.phase)
  }

  ghost function Remaining(st: State): nat
  {
    Weight(st.readers.At(Stdout)) + Weight(st.readers.At(Stderr)) + |st.queue|
      + if st.consumer.Capturing? then 2 else if st.consumer.Waiting? then 1 else 0
  }

  lemma ReaderDecreases(a: State, b: State, s: Stream)
    requires ReaderReads(a, b, s) || ReaderPuts(a, b, s)
    ensures Weight(b.readers.At(s)) + |b.queue| < Weight(a.readers.At(s)) + |a.queue|
    ensures forall t: Stream :: t != s ==> b.readers.At(t) == a.readers.At(t)
    ensures b.consumer == a.consumer
  {
    assert ReadsChunk(a.readers.At(s), b.readers.At(s))
      ==> |a.readers.At(s).left| == |b.readers.At(s).phase.chunk| + |b.readers.At(s).left|;
  }

  /** Every productive step uses up some of what remains, so no run can avoid stopping for ever. */
  lemma ProductiveDecreases(a: State, b: State, maxBytes: nat)
    requires Productive(a, b, maxBytes)
    ensures Remaining(b) < Remaining(a)
  {
    if s :| ReaderReads(a, b, s) || ReaderPuts(a, b, s) {
      ReaderDecreases(a, b, s);
      EitherStream(s);
    }
  }

  /** Until the consumer stops, the three threads are never all stuck: some productive step is possible. */
  lemma NeverStuck(a: State, pipes: Both<seq<Byte>>, maxBytes: nat) returns (b: State)
    requires Inv(a, pipes, maxBytes)
    requires a.consumer.Capturing? || a.consumer.Waiting?
    ensures Productive(a, b, maxBytes)
  {
    if a.consumer.Waiting? {
      b := a.(consumer := Returned);
      assert ConsumerReturns(a, b);
    } else if a.queue != [] {
      b := Take(a, maxBytes);
      assert ConsumerTakes(a, b, maxBytes);
    } else {
      BothStreams(a.finished);
      var s := if Stdout !in a.finished then Stdout else Stderr;
      assert Marked(a, s);
      var r := a.readers.At(s);
      match r.phase {
        case Reading =>
          var next :=
            if r.left == [] then r.(phase := Ending)
            else Reader(Holding(r.left[..1]), r.read + r.left[..1], r.left[1..], r.failed);
          b := a.(readers := a.readers.With(s, next));
          assert r.left != [] ==> r.left == r.left[..1] + r.left[1..];
          assert ReaderReads(a, b, s);
        case Holding(chunk) =>
          b := a.(queue := a.queue + [Chunk(s, chunk)], readers := a.readers.With(s, r.(phase := Reading)));
          assert ReaderPuts(a, b, s);
        case Ending =>
          b := a.(queue := a.queue + [End(s)], readers := a.readers.With(s, r.(phase := Finished)));
          assert ReaderPuts(a, b, s);
      }
    }
  }

  /** No interleaving takes more productive steps than the pipes' contents allow. */
  lemma {:induction false} RunsAreBounded(run: seq<State>, pipes: Both<seq<Byte>>, maxBytes: nat, i: nat)
    requires IsRun(run, pipes, maxBytes) && i < |run|
    requires forall k :: 0 <= k < i ==> Productive(run[k], run[k + 1], maxBytes)
    ensures i + Remaining(run[i]) <= Remaining(Start(pipes))
  {
    if i > 0 {
      RunsAreBounded(run, pipes, maxBytes, i - 1);
      ProductiveDecreases(run[i - 1], run[i], maxBytes);
    }
  }

  /**
   A run that can go no further and never timed out has decided rightly: without read
   failures it returns both pipes in full if both fit, and refuses if one does not.
   */
  lemma FinalVerdict(run: seq<State>, pipes: Both<seq<Byte>>, maxBytes: nat)
    requires IsRun(run, pipes, maxBytes)
    requires var last := run[|run| - 1];
      !last.consumer.TimedOut? && !(exists b :: Productive(last, b, maxBytes)) && !last.readers.out.failed
      && !last.readers.err.failed
    ensures var last := run[|run| - 1];
      if |pipes.out| <= maxBytes && |pipes.err| <= maxBytes then last.consumer.Returned? && last.captured == pipes
      else last.consumer.TooMuch?
  {
    var last := run[|run| - 1];
    RunsAreConserved(run, pipes, maxBytes, |run| - 1);
    if last.consumer.Capturing? || last.consumer.Waiting? {
      var b := NeverStuck(last, pipes, maxBytes);
    } else if last.consumer.TooMuch? {
      RefusalIsDeserved(run, pipes, maxBytes);
      EitherStream(last.consumer.stream);
    } else {
      ReturnIsComplete(run, pipes, maxBytes, Stdout);
      ReturnIsComplete(run, pipes, maxBytes, Stderr);
    }
  }

  /* The program: one consumer loop interleaved with the readers in any way. */

  /** One step of one reader, if it can take one now. */
  method ReaderMoves(s: Stream, a: State) returns (moved: bool, readers: Both<Reader>, queue: seq<Event>)
    ensures !moved ==> readers == a.readers && queue == a.queue
    ensures moved ==>
      ReaderReads(a, a.(readers := readers, queue := queue), s)
      || ReaderPuts(a, a.(readers := readers, queue := queue), s)
    ensures !a.readers.At(s).phase.Finished? && |a.queue| < CAPTURE_QUEUE_SIZE ==> moved
  {
    moved, readers, queue := false, a.readers, a.queue;
    var r := a.readers.At(s);
    match r.phase {
      case Reading =>
        moved := true;
        if * {
          readers := readers.With(s, r.(phase := Ending, failed := true)); // the read raised
        } else if r.left == [] {
          readers := readers.With(s, r.(phase := Ending));
        } else {
          var n: nat :| 1 <= n <= |r.left| && n <= CAPTURE_CHUNK_BYTES;
          assert r.left == r.left[..n] + r.left[n..];
          readers := readers.With(s, Reader(Holding(r.left[..n]), r.read + r.left[..n], r.left[n..], r.failed));
        }
      case Holding(chunk) =>
        if |queue| < CAPTURE_QUEUE_SIZE {
          moved := true;
          queue, readers := queue + [Chunk(s, chunk)], readers.With(s, r.(phase := Reading));
        }
      case Ending =>
        if |queue| < CAPTURE_QUEUE_SIZE {
          moved := true;
          queue, readers := queue + [End(s)], readers.With(s, r.(phase := Finished));
        }
      case Finished =>
    }
  }

  /** The consumer's handling of one event. */
  method ConsumerMoves(a: State, maxBytes: nat)
    returns (queue: seq<Event>, captured: Both<seq<Byte>>, finished: set<Stream>, consumer: Consumer)
    requires a.consumer.Capturing? && a.queue != []
    ensures State(a.readers, queue, captured, finished, consumer) == Take(a, maxBytes)
  {
    queue, captured, finished, consumer := a.queue[1..], a.captured, a.finished, a.consumer;
    match a.queue[0] {
      case End(s) =>
        finished := finished + {s};
        BothStreams(finished);
        if |finished| == 2 {
          consumer := Waiting;
        }
      case Chunk(s, chunk) =>
        if |captured.At(s)| + |chunk| > maxBytes {
          consumer := TooMuch(s);
        } else {
          captured := captured.With(s, captured.At(s) + chunk);
        }
    }
  }

  method RunBoundedSubprocess(pipes: Both<seq<Byte>>, maxBytes: nat)
    returns (result: Consumer, captured: Both<seq<Byte>>, ghost run: seq<State>)
    ensures IsRun(run, pipes, maxBytes)
    ensures run[|run| - 1].consumer == result && run[|run| - 1].captured == captured
    ensures result.Returned? || result.TimedOut? || result.TooMuch?
  {
    var readers, queue, finished := Start(pipes).readers, [], {};
    captured, result := Both([], []), Capturing;
    run := [Start(pipes)];
    while result.Capturing? || result.Waiting?
      invariant IsRun(run, pipes, maxBytes)
      invariant run[|run| - 1] == State(readers, queue, captured, finished, result)
      decreases Remaining(State(readers, queue, captured, finished, result)),
                if result.Capturing? || result.Waiting? then 1 else 0
    {
      var now := State(readers, queue, captured, finished, result);
      RunsAreConserved(run, pipes, maxBytes, |run| - 1);
      var moved := false;
      if * {
        moved, readers, queue := ReaderMoves(Stdout, now);
      } else if * {
        moved, readers, queue := ReaderMoves(Stderr, now);
      }
      if moved {
      } else if * {
        result := TimedOut;
      } else if result.Waiting? {
        result := Returned;
      } else if queue == [] {
        BothStreams(finished);
        var s := if Stdout !in finished then Stdout else Stderr;
        assert Marked(now, s);
        moved, readers, queue := ReaderMoves(s, now);
      } else {
        queue, captured, finished, result := ConsumerMoves(now, maxBytes);
      }
      ghost var after := State(readers, queue, captured, finished, result);
      assert moved ==> after == now.(readers := readers, queue := queue);
      if !after.consumer.TimedOut? {
        assert !moved && now.consumer.Capturing? ==> ConsumerTakes(now, after, maxBytes);
        ProductiveDecreases(now, after, maxBytes);
      }
      assert Next(now, after, maxBytes);
      run := run + [after];
    }
  }
}
