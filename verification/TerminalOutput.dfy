/**
 The output path of a terminal (crates/nexus-terminal/src/manager.rs): a pump task
 cuts what the channel delivers into chunks and sends them through a bounded queue;
 polling reassembles them into batches, carrying over the part of a chunk that does
 not fit. The pump may send while a poll is under way. The chunks are modelled as
 bytes; the base64 text they travel in is not.
 */
module TerminalOutput {
  import opened Common

  const CHUNK_BYTES: nat := 16 * 1024
  const QUEUE_CAPACITY: nat := 64
  const BATCH_BYTES: nat := 64 * 1024

  type Bytes = seq<byte>

  function Flatten(chunks: seq<Bytes>): Bytes {
    if chunks == [] then [] else chunks[0] + Flatten(chunks[1..])
  }

  lemma {:induction false} FlattenConcat(a: seq<Bytes>, b: seq<Bytes>)
    ensures Flatten(a + b) == Flatten(a) + Flatten(b)
  {
    if a == [] {
      assert a + b == b;
    } else {
      calc {
        Flatten(a + b);
        { assert (a + b)[0] == a[0] && (a + b)[1..] == a[1..] + b; }
        a[0] + Flatten(a[1..] + b);
        { FlattenConcat(a[1..], b); }
        a[0] + (Flatten(a[1..]) + Flatten(b));
        (a[0] + Flatten(a[1..])) + Flatten(b);
        Flatten(a) + Flatten(b);
      }
    }
  }

  lemma Reassociate(a: Bytes, b: Bytes, c: Bytes, d: Bytes, rest: Bytes)
    requires a + b == c + d
    ensures a + (b + rest) == c + (d + rest)
  {
    assert a + (b + rest) == (a + b) + rest;
    assert c + (d + rest) == (c + d) + rest;
  }

  predicate IsChunk(c: Bytes) {
    0 < |c| <= CHUNK_BYTES
  }

  predicate AreChunks(cs: seq<Bytes>) {
    forall i :: 0 <= i < |cs| ==> IsChunk(cs[i])
  }

  lemma NoChunks()
    ensures Flatten([]) == [] && AreChunks([])
  {
  }

  lemma FlattenHead(cs: seq<Bytes>)
    requires AreChunks(cs) && cs != []
    ensures Flatten(cs) == cs[0] + Flatten(cs[1..]) && IsChunk(cs[0]) && AreChunks(cs[1..])
  {
  }

  lemma FlattenEmpty(cs: seq<Bytes>)
    requires AreChunks(cs)
    ensures Flatten(cs) == [] <==> cs == []
  {
    if cs != [] { assert IsChunk(cs[0]); }
  }

  /** Consecutive slices of `CHUNK_BYTES`, the last one shorter if need be. */
  function Chunks(data: Bytes): (r: seq<Bytes>)
    ensures Flatten(r) == data && AreChunks(r)
    ensures forall i :: 0 <= i < |r| - 1 ==> |r[i]| == CHUNK_BYTES
  {
    if data == [] then []
    else if |data| <= CHUNK_BYTES then [data]
    else [data[..CHUNK_BYTES]] + Chunks(data[CHUNK_BYTES..])
  }

  /** A poll under way: the batch so far, and whether its loop has ended. */
  datatype Poll = Poll(chunks: seq<Bytes>, stopped: bool)

  /** Carryover, queue, what the pump has yet to send, whether the pump is running, and a poll under way. */
  datatype Stream = Stream(carryover: Option<Bytes>, queue: seq<Bytes>, pending: seq<Bytes>, open: bool,
                           poll: Option<Poll>)

  const EMPTY := Stream(None, [], [], true, None)

  /** The carryover is in the way of nothing: while a poll is under way, it is set only once the batch is full. */
  ghost predicate Wf(s: Stream) {
    && (s.carryover.Some? ==> IsChunk(s.carryover.value))
    && AreChunks(s.queue) && |s.queue| <= QUEUE_CAPACITY
    && AreChunks(s.pending) && (!s.open ==> s.pending == [])
    && (s.poll.Some? ==> BatchWf(s.poll.value.chunks, s.carryover))
  }

  ghost predicate BatchWf(chunks: seq<Bytes>, carryover: Option<Bytes>) {
    && AreChunks(chunks) && |Flatten(chunks)| <= BATCH_BYTES
    && (carryover.Some? ==> |Flatten(chunks)| == BATCH_BYTES)
  }

  function Carried(carryover: Option<Bytes>): Bytes {
    if carryover.Some? then carryover.value else []
  }

  /** What is in the batch of a poll under way. */
  function InPoll(s: Stream): Bytes {
    if s.poll.Some? then Flatten(s.poll.value.chunks) else []
  }

  /** What a poll could return now. */
  function Available(s: Stream): Bytes {
    Carried(s.carryover) + Flatten(s.queue)
  }

  /** Everything read from the channel and not returned yet. */
  function Waiting(s: Stream): Bytes {
    InPoll(s) + Available(s) + Flatten(s.pending)
  }

  // ----- Steps -----

  datatype Step =
    | Read(data: Bytes)   // the channel delivered data
    | Send                // the queue took one chunk
    | Finish              // the channel ended; the sender is dropped
    | Begin               // a poll takes the carryover
    | Receive             // the poll takes a chunk from the queue
    | Stop                // the poll sees a full batch or an empty queue
    | End                 // the poll returns its batch, and whether the output is drained

  /** A chunk added to a batch, and what does not fit into it. */
  function Appended(chunks: seq<Bytes>, chunk: Bytes): (seq<Bytes>, Option<Bytes>)
    requires |Flatten(chunks)| <= BATCH_BYTES
  {
    var remaining := BATCH_BYTES - |Flatten(chunks)|;
    var head := if |chunk| > remaining then chunk[..remaining] else chunk;
    (if head == [] then chunks else chunks + [head],
     if |chunk| > remaining then Some(chunk[remaining..]) else None)
  }

  predicate Enabled(s: Stream, step: Step) {
    match step
    case Read(_) => s.open && s.pending == []
    case Send => s.pending != [] && |s.queue| < QUEUE_CAPACITY
    case Finish => s.open && s.pending == []
    case Begin => s.poll.None?
    case Receive =>
      && s.poll.Some? && !s.poll.value.stopped && |Flatten(s.poll.value.chunks)| < BATCH_BYTES && s.queue != []
    case Stop =>
      && s.poll.Some? && !s.poll.value.stopped && (|Flatten(s.poll.value.chunks)| >= BATCH_BYTES || s.queue == [])
    case End => s.poll.Some? && s.poll.value.stopped
  }

  function Apply(s: Stream, step: Step): Stream
    requires Enabled(s, step)
  {
    match step
    case Read(data) => s.(pending := Chunks(data))
    case Send => s.(queue := s.queue + [s.pending[0]], pending := s.pending[1..])
    case Finish => s.(open := false)
    case Begin =>
      if s.carryover.None? then s.(poll := Some(Poll([], false)))
      else
        var (chunks, rest) := Appended([], s.carryover.value);
        s.(carryover := rest, poll := Some(Poll(chunks, false)))
    case Receive =>
      var (chunks, rest) := Appended(s.poll.value.chunks, s.queue[0]);
      s.(carryover := if rest.Some? then rest else s.carryover, queue := s.queue[1..],
         poll := Some(Poll(chunks, false)))
    case Stop => s.(poll := Some(s.poll.value.(stopped := true)))
    case End => s.(poll := None)
  }

  /** What the poll reports when it ends. */
  predicate Drained(s: Stream) {
    s.carryover.None? && !s.open && s.queue == []
  }

  /** One more piece at the end of a batch. */
  lemma OneMorePiece(chunks: seq<Bytes>, head: Bytes)
    requires AreChunks(chunks) && IsChunk(head)
    ensures Flatten(chunks + [head]) == Flatten(chunks) + head && AreChunks(chunks + [head])
  {
    FlattenConcat(chunks, [head]);
    assert Flatten([head]) == head;
  }

  lemma AppendedSplits(chunks: seq<Bytes>, chunk: Bytes)
    requires AreChunks(chunks) && IsChunk(chunk) && |Flatten(chunks)| < BATCH_BYTES
    ensures var (more, rest) := Appended(chunks, chunk);
      && Flatten(more) + Carried(rest) == Flatten(chunks) + chunk
      && BatchWf(more, rest)
      && (rest.Some? ==> IsChunk(rest.value))
  {
    hide Flatten, AreChunks;
    var remaining := BATCH_BYTES - |Flatten(chunks)|;
    if |chunk| > remaining {
      var head, tail := chunk[..remaining], chunk[remaining..];
      OneMorePiece(chunks, head);
      assert Flatten(chunks) + head + tail == Flatten(chunks) + chunk;
    } else {
      OneMorePiece(chunks, chunk);
    }
  }

  // ----- The code -----

  /** Doing the steps one after the other leads from `s` to `t`. */
  ghost predicate Does(s: Stream, steps: seq<Step>, t: Stream)
    decreases |steps|
  {
    if steps == [] then s == t
    else Enabled(s, steps[0]) && Does(Apply(s, steps[0]), steps[1..], t)
  }

  lemma {:induction false} DoesMore(s: Stream, steps: seq<Step>, t: Stream, step: Step)
    requires Does(s, steps, t) && Enabled(t, step)
    ensures Does(s, steps + [step], Apply(t, step))
    decreases |steps|
  {
    if steps != [] {
      DoesMore(Apply(s, steps[0]), steps[1..], t, step);
      assert (steps + [step])[1..] == steps[1..] + [step];
    }
  }

  /** A poll that nobody interrupts takes from the front of the available bytes as many as a batch may hold. */
  ghost predicate Polls(s: Stream, batch: seq<Bytes>, drained: bool, t: Stream) {
    && Flatten(batch) + Available(t) == Available(s)
    && |Flatten(batch)| == (if |Available(s)| < BATCH_BYTES then |Available(s)| else BATCH_BYTES)
    && AreChunks(batch)
    && (drained <==> !s.open && |Available(s)| <= BATCH_BYTES)
  }

  /** A batch that is full, or after which nothing is queued, is all that a poll may return. */
  lemma PollIsFull(s: Stream, batch: seq<Bytes>, t: Stream)
    requires Wf(t) && BatchWf(batch, t.carryover) && t.open == s.open
    requires Flatten(batch) + Available(t) == Available(s)
    requires |Flatten(batch)| >= BATCH_BYTES || t.queue == []
    ensures Polls(s, batch, Drained(t), t)
  {
    hide Flatten, AreChunks;
    FlattenEmpty(t.queue);
  }

  class OutputBuffer {
    var carryover: Option<Bytes>
    var queue: seq<Bytes>
    var pending: seq<Bytes>
    var open: bool

    function Contents(): Stream
      reads this
    {
      Stream(carryover, queue, pending, open, None)
    }

    ghost function DuringPoll(chunks: seq<Bytes>): Stream
      reads this
    {
      Contents().(poll := Some(Poll(chunks, false)))
    }

    constructor ()
      ensures Contents() == EMPTY && Wf(Contents())
    {
      carryover, queue, pending, open := None, [], [], true;
    }

    method ReadData(data: Bytes)
      requires Wf(Contents()) && Enabled(Contents(), Read(data))
      modifies this`pending
      ensures Wf(Contents()) && Contents() == Apply(old(Contents()), Read(data))
    {
      pending := Chunks(data);
    }

    method SendChunk()
      requires Wf(Contents()) && Enabled(Contents(), Send)
      modifies this`pending, this`queue
      ensures Wf(Contents()) && Contents() == Apply(old(Contents()), Send)
    {
      queue := queue + [pending[0]];
      pending := pending[1..];
    }

    method DropSender()
      requires Wf(Contents()) && Enabled(Contents(), Finish)
      modifies this`open
      ensures Wf(Contents()) && Contents() == Apply(old(Contents()), Finish)
    {
      open := false;
    }

    /** Adds a chunk to a batch; what does not fit becomes the carryover, which must be free. */
    method AppendChunk(chunk: Bytes, chunks: seq<Bytes>, total: nat)
      returns (newChunks: seq<Bytes>, newTotal: nat)
      requires IsChunk(chunk) && AreChunks(chunks)
      requires total == |Flatten(chunks)| < BATCH_BYTES && carryover.None?
      modifies this`carryover
      ensures (newChunks, carryover) == Appended(chunks, chunk)
      ensures Flatten(newChunks) + Carried(carryover) == Flatten(chunks) + chunk
      ensures newTotal == |Flatten(newChunks)| && BatchWf(newChunks, carryover)
      ensures carryover.Some? ==> IsChunk(carryover.value)
    {
      AppendedSplits(chunks, chunk);
      var head := chunk;
      var remaining := BATCH_BYTES - total;
      if |chunk| > remaining {
        head := chunk[..remaining];
        carryover := Some(chunk[remaining..]);
      }
      newTotal := total + |head|;
      newChunks := chunks;
      if head != [] { newChunks := newChunks + [head]; }
    }

    /** The body of the loop of `poll`. */
    method TakeNext(chunks: seq<Bytes>, total: nat, ghost start: Stream, ghost steps: seq<Step>)
      returns (newChunks: seq<Bytes>, newTotal: nat)
      requires Wf(DuringPoll(chunks)) && total == |Flatten(chunks)| < BATCH_BYTES && queue != []
      requires Does(start, steps, DuringPoll(chunks))
      modifies this`carryover, this`queue
      ensures Wf(DuringPoll(newChunks)) && newTotal == |Flatten(newChunks)| && |queue| < |old(queue)|
      ensures Flatten(newChunks) + Available(Contents()) == Flatten(chunks) + old(Available(Contents()))
      ensures Does(start, steps + [Receive], DuringPoll(newChunks))
    {
      hide Flatten, AreChunks, Does, Appended;
      ghost var now := DuringPoll(chunks);
      var chunk := queue[0];
      FlattenHead(queue);
      queue := queue[1..];
      newChunks, newTotal := AppendChunk(chunk, chunks, total);
      Reassociate(Flatten(newChunks), Carried(carryover), Flatten(chunks), chunk, Flatten(queue));
      DoesMore(start, steps, now, Receive);
    }

    /** `steps` are the poll's steps; other tasks may take theirs between them. */
    method PollBatch() returns (chunks: seq<Bytes>, drained: bool, ghost steps: seq<Step>)
      requires Wf(Contents())
      modifies this`carryover, this`queue
      ensures Wf(Contents()) && Polls(old(Contents()), chunks, drained, Contents())
      ensures drained == Drained(Contents())
      ensures Does(old(Contents()), steps, Contents())
    {
      hide Flatten, AreChunks, Does, Appended, Polls;
      var total := 0;
      chunks := [];
      NoChunks();
      NothingDone(Contents());
      if carryover.Some? {
        var chunk := carryover.value;
        carryover := None;
        chunks, total := AppendChunk(chunk, chunks, total);
        Reassociate(Flatten(chunks), Carried(carryover), [], chunk, Flatten(queue));
      }
      steps := [Begin];
      BeginsPoll(old(Contents()), DuringPoll(chunks));
      while total < BATCH_BYTES && queue != []
        invariant Wf(DuringPoll(chunks)) && total == |Flatten(chunks)|
        invariant Flatten(chunks) + Available(Contents()) == Available(old(Contents()))
        invariant Does(old(Contents()), steps, DuringPoll(chunks))
        decreases |queue|
      {
        chunks, total := TakeNext(chunks, total, old(Contents()), steps);
        steps := steps + [Receive];
      }
      drained := carryover.None? && !open && queue == [];
      PollIsFull(old(Contents()), chunks, Contents());
      EndsPoll(old(Contents()), steps, DuringPoll(chunks));
      steps := steps + [Stop, End];
    }
  }

  lemma NothingDone(s: Stream)
    ensures Does(s, [], s)
  {
  }

  lemma BeginsPoll(s: Stream, t: Stream)
    requires s.poll.None? && t == Apply(s, Begin)
    ensures Does(s, [Begin], t)
  {
    DoesMore(s, [], s, Begin);
  }

  lemma EndsPoll(s: Stream, steps: seq<Step>, t: Stream)
    requires Does(s, steps, t) && Enabled(t, Stop)
    ensures Does(s, steps + [Stop, End], t.(poll := None))
  {
    DoesMore(s, steps, t, Stop);
    DoesMore(s, steps + [Stop], Apply(t, Stop), End);
    assert steps + [Stop] + [End] == steps + [Stop, End];
  }

  // ----- Runs -----

  ghost predicate Becomes(s: Stream, step: Step, t: Stream) {
    Enabled(s, step) && t == Apply(s, step)
  }

  ghost predicate IsRun(states: seq<Stream>, steps: seq<Step>) {
    && |states| == |steps| + 1 && states[0] == EMPTY
    && forall i :: 0 <= i < |steps| ==> Becomes(states[i], steps[i], states[i + 1])
  }

  /** What a step returns to the caller of poll, and what it reads from the channel. */
  function Out(s: Stream, step: Step): Bytes {
    if step.End? then InPoll(s) else []
  }

  function In(step: Step): Bytes {
    if step.Read? then step.data else []
  }

  /** The bytes of all batches returned in the first `n` steps. */
  function Returned(states: seq<Stream>, steps: seq<Step>, n: nat): Bytes
    requires n <= |steps| <= |states|
  {
    if n == 0 then [] else Returned(states, steps, n - 1) + Out(states[n - 1], steps[n - 1])
  }

  /** The bytes read from the channel in the first `n` steps. */
  function Pumped(steps: seq<Step>, n: nat): Bytes
    requires n <= |steps|
  {
    if n == 0 then [] else Pumped(steps, n - 1) + In(steps[n - 1])
  }

  lemma NothingWaits()
    ensures Wf(EMPTY) && Waiting(EMPTY) == []
  {
  }

  lemma SendConserves(s: Stream)
    requires Wf(s) && Enabled(s, Send)
    ensures Wf(Apply(s, Send)) && Waiting(Apply(s, Send)) == Waiting(s)
  {
    var sent, t := s.pending[0], Apply(s, Send);
    FlattenConcat(s.queue, [sent]);
    assert Flatten([sent]) == sent;
    assert Available(t) == Available(s) + sent;
    var rest := Flatten(t.pending);
    assert InPoll(s) + (Available(s) + sent) + rest == InPoll(s) + Available(s) + (sent + rest);
  }

  lemma BeginConserves(s: Stream)
    requires Wf(s) && Enabled(s, Begin)
    ensures Wf(Apply(s, Begin)) && Waiting(Apply(s, Begin)) == Waiting(s)
  {
    NoChunks();
    if s.carryover.Some? {
      AppendedSplits([], s.carryover.value);
      var t := Apply(s, Begin);
      Reassociate(InPoll(t), Carried(t.carryover), [], s.carryover.value, Flatten(s.queue));
    }
  }

  lemma ReceiveConserves(s: Stream)
    requires Wf(s) && Enabled(s, Receive)
    ensures Wf(Apply(s, Receive)) && Waiting(Apply(s, Receive)) == Waiting(s)
  {
    hide Flatten, AreChunks;
    FlattenHead(s.queue);
    AppendedSplits(s.poll.value.chunks, s.queue[0]);
    var t := Apply(s, Receive);
    Reassociate(InPoll(t), Carried(t.carryover), InPoll(s), s.queue[0], Flatten(t.queue));
    assert Available(s) == s.queue[0] + Flatten(t.queue);
  }

  lemma FinishConserves(s: Stream)
    requires Wf(s) && Enabled(s, Finish)
    ensures Wf(Apply(s, Finish)) && Waiting(Apply(s, Finish)) == Waiting(s)
  {
    hide Flatten;
  }

  lemma StopConserves(s: Stream)
    requires Wf(s) && Enabled(s, Stop)
    ensures Wf(Apply(s, Stop)) && Waiting(Apply(s, Stop)) == Waiting(s)
  {
    hide Flatten;
  }

  /** What a finished poll returns is what waited in it. */
  lemma EndConserves(s: Stream)
    requires Wf(s) && Enabled(s, End)
    ensures Wf(Apply(s, End)) && InPoll(s) + Waiting(Apply(s, End)) == Waiting(s)
  {
    hide Flatten;
    var t := Apply(s, End);
    assert InPoll(s) + (Available(t) + Flatten(t.pending)) == Waiting(s);
  }

  lemma StepConserves(s: Stream, step: Step, t: Stream)
    requires Wf(s) && Becomes(s, step, t)
    ensures Wf(t) && Out(s, step) + Waiting(t) == Waiting(s) + In(step)
  {
    hide Wf, Waiting, InPoll, Apply, Enabled;
    match step {
      case Read(data) => ReadConserves(s, data);
      case Send => SendConserves(s);
      case Finish => FinishConserves(s);
      case Begin => BeginConserves(s);
      case Receive => ReceiveConserves(s);
      case Stop => StopConserves(s);
      case End => EndConserves(s);
    }
  }

  lemma ReadConserves(s: Stream, data: Bytes)
    requires Wf(s) && Enabled(s, Read(data))
    ensures Wf(Apply(s, Read(data))) && Waiting(Apply(s, Read(data))) == Waiting(s) + data
  {
    assert Waiting(s) == InPoll(s) + Available(s);
  }

  /**
   The bytes returned, then those in the batch under way, in the carryover, in the queue and
   yet to be sent, are the bytes pumped in, in order.
   */
  lemma {:induction false} RunConserves(states: seq<Stream>, steps: seq<Step>, n: nat)
    requires IsRun(states, steps) && n <= |steps|
    ensures Wf(states[n])
    ensures Returned(states, steps, n) + Waiting(states[n]) == Pumped(steps, n)
  {
    hide Wf, Becomes, Waiting, In, Out;
    if n == 0 {
      NothingWaits();
    } else {
      RunConserves(states, steps, n - 1);
      var s, step := states[n - 1], steps[n - 1];
      assert Becomes(states[n - 1], steps[n - 1], states[n - 1 + 1]);
      StepConserves(s, step, states[n]);
      var before := Returned(states, steps, n - 1);
      assert (before + Out(s, step)) + Waiting(states[n]) == before + (Out(s, step) + Waiting(states[n]));
      assert before + (Waiting(s) + In(step)) == (before + Waiting(s)) + In(step);
    }
  }

  /** A batch is the piece of the pumped stream right after what was returned before, at most 64 KiB of it. */
  lemma BatchIsNext(states: seq<Stream>, steps: seq<Step>, n: nat)
    requires IsRun(states, steps) && n < |steps| && steps[n].End?
    ensures |Out(states[n], steps[n])| <= BATCH_BYTES
    ensures Returned(states, steps, n) + Out(states[n], steps[n]) <= Pumped(steps, n)
  {
    hide Flatten, AreChunks, Returned, Pumped, Available, Apply;
    RunConserves(states, steps, n);
    assert Becomes(states[n], steps[n], states[n + 1]);
    var s, before := states[n], Returned(states, steps, n);
    assert before + Waiting(s) == before + InPoll(s) + (Available(s) + Flatten(s.pending));
  }

  /** Nothing waits, the pump is gone and no batch is lost: only empty polls are left. */
  ghost predicate Dry(s: Stream) {
    !s.open && Waiting(s) == []
  }

  lemma DryStays(s: Stream, step: Step, t: Stream)
    requires Wf(s) && Dry(s) && Becomes(s, step, t)
    ensures Dry(t) && Out(s, step) == [] && In(step) == []
    ensures step.End? ==> Drained(s)
  {
    StepConserves(s, step, t);
    FlattenEmpty(s.queue);
  }

  lemma DrainedIsDry(s: Stream, t: Stream)
    requires Wf(s) && Becomes(s, End, t) && Drained(s)
    ensures Dry(t)
  {
  }

  /** `drained` means that everything has been returned, and that nothing more will come. */
  lemma {:induction false} DrainedIsFinal(states: seq<Stream>, steps: seq<Step>, n: nat, m: nat)
    requires IsRun(states, steps) && n < m <= |steps| && steps[n].End? && Drained(states[n])
    ensures Dry(states[m])
    ensures Returned(states, steps, m) == Pumped(steps, m) == Pumped(steps, n)
    ensures m < |steps| && steps[m].End? ==> Drained(states[m]) && Out(states[m], steps[m]) == []
  {
    hide Wf, Becomes, Waiting, Drained, Out, In;
    RunConserves(states, steps, m - 1);
    RunConserves(states, steps, m);
    assert Becomes(states[m - 1], steps[m - 1], states[m - 1 + 1]);
    if m - 1 == n {
      DrainedIsDry(states[n], states[m]);
      NoInput(steps[n]);
    } else {
      DrainedIsFinal(states, steps, n, m - 1);
      DryStays(states[m - 1], steps[m - 1], states[m]);
    }
    if m < |steps| {
      assert Becomes(states[m], steps[m], states[m + 1]);
      DryStays(states[m], steps[m], states[m + 1]);
    }
  }

  lemma NoInput(step: Step)
    requires step.End?
    ensures In(step) == []
  {
  }

  /** Once the pump has finished, an uninterrupted poll drains the output or returns a full batch of it. */
  lemma PollsReachTheEnd(s: Stream, batch: seq<Bytes>, drained: bool, t: Stream)
    requires Wf(s) && Polls(s, batch, drained, t) && !s.open
    ensures drained ==> Available(t) == []
    ensures !drained ==> |Available(t)| == |Available(s)| - BATCH_BYTES
  {
  }
}
