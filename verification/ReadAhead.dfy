/**
 copyReadAhead (action/reconcile.go): io.Copy with a reader goroutine running a few pooled buffers ahead of
 the writer. Its goroutines, channels and buffer pool are a state machine whose interleavings are all
 considered.
 */
module ReadAhead {
  import opened Volumes

  const READ_AHEAD := 4

  datatype End = More | Eof | Failed

  /** What one call of src.Read returns. */
  datatype Reading = Reading(data: Bytes, end: End)

  /** What dst.Write returns: how much it claims to have taken, and whether it reports an error. */
  datatype Writing = Writing(claimed: int, fails: bool)

  datatype Status = Copied | ReadFailed | WriteFailed

  datatype Result = Result(sunk: Bytes, status: Status)

  /** A source ends exactly at its last read. */
  predicate Ends(input: seq<Reading>) {
    |input| > 0 && forall k :: 0 <= k < |input| ==> (input[k].end.More? <==> k < |input| - 1)
  }

  /** How much of n bytes a write took; a count out of range took nothing and failed. */
  function Taken(w: Writing, n: nat): (t: nat)
    ensures t <= n
  {
    if 0 <= w.claimed <= n then w.claimed else 0
  }

  predicate Refused(w: Writing, n: nat) {
    w.fails || Taken(w, n) < n || w.claimed != Taken(w, n)
  }

  function Prepend(sunk: Bytes, r: Result): Result {
    Result(sunk + r.sunk, r.status)
  }

  /** io.Copy from the i-th read on: read, write, stop at the first short or failed write or ended read. */
  function Copy(input: seq<Reading>, sink: nat -> Writing, i: nat): Result
    requires Ends(input) && i < |input|
    decreases |input| - i
  {
    var data := input[i].data;
    if data != [] && Refused(sink(i), |data|) then Result(data[..Taken(sink(i), |data|)], WriteFailed)
    else match input[i].end
      case Eof => Result(data, Copied)
      case Failed => Result(data, ReadFailed)
      case More => Prepend(data, Copy(input, sink, i + 1))
  }

  /** The bytes of reads i to j. */
  function Span(input: seq<Reading>, i: nat, j: nat): Bytes
    requires i <= j <= |input|
  {
    if i == j then [] else Span(input, i, j - 1) + input[j - 1].data
  }

  /** Every write of reads i to j took all it was given, without an error. */
  predicate AllWritten(input: seq<Reading>, sink: nat -> Writing, i: nat, j: nat)
    requires i <= j <= |input|
  {
    forall k :: i <= k < j && input[k].data != [] ==> !sink(k).fails && sink(k).claimed == |input[k].data|
  }

  /** The k-th write is the first one that was short or failed. */
  predicate FirstBad(input: seq<Reading>, sink: nat -> Writing, i: nat, k: nat)
    requires i <= k < |input|
  {
    AllWritten(input, sink, i, k) && input[k].data != [] && (sink(k).fails || sink(k).claimed != |input[k].data|)
  }

  /** Every write took all it was given, and the outcome is that of the last read; or some write did not. */
  predicate RightStatus(input: seq<Reading>, sink: nat -> Writing, i: nat, status: Status)
    requires Ends(input) && i < |input|
  {
    && (status.Copied? <==> AllWritten(input, sink, i, |input|) && input[|input| - 1].end.Eof?)
    && (status.ReadFailed? <==> AllWritten(input, sink, i, |input|) && input[|input| - 1].end.Failed?)
    && (status.WriteFailed? <==> exists k :: i <= k < |input| && FirstBad(input, sink, i, k))
  }

  /** What a write claims to have taken of its bytes; a claim out of range counts for nothing. */
  function Claimed(w: Writing, data: Bytes): Bytes {
    if 0 <= w.claimed <= |data| then data[..w.claimed] else []
  }

  /** All the bytes read when every write took them; else all before the first bad write, and what that took. */
  predicate RightBytes(input: seq<Reading>, sink: nat -> Writing, i: nat, sunk: Bytes)
    requires i < |input|
  {
    && (AllWritten(input, sink, i, |input|) ==> sunk == Span(input, i, |input|))
    && (forall k :: i <= k < |input| && FirstBad(input, sink, i, k) ==>
          sunk == Span(input, i, k) + Claimed(sink(k), input[k].data))
  }

  /** What io.Copy means. */
  lemma {:induction false} CopyMeans(input: seq<Reading>, sink: nat -> Writing, i: nat)
    requires Ends(input) && i < |input|
    ensures RightStatus(input, sink, i, Copy(input, sink, i).status) && RightBytes(input, sink, i, Copy(input, sink, i).sunk)
    decreases |input| - i
  {
    if FirstBad(input, sink, i, i) {
      BadHere(input, sink, i);
    } else if i + 1 == |input| {
      assert Span(input, i, i + 1) == Span(input, i, i) + input[i].data == input[i].data;
      assert AllWritten(input, sink, i, |input|);
    } else {
      var rest := Copy(input, sink, i + 1);
      CopyMeans(input, sink, i + 1);
      BytesBefore(input, sink, i, rest.sunk);
      StatusBefore(input, sink, i, rest.status);
      assert Copy(input, sink, i) == Prepend(input[i].data, rest);
      hide RightStatus, RightBytes, Copy;
    }
  }

  lemma BadHere(input: seq<Reading>, sink: nat -> Writing, i: nat)
    requires Ends(input) && i < |input| && FirstBad(input, sink, i, i)
    ensures Copy(input, sink, i) == Result(Claimed(sink(i), input[i].data), WriteFailed)
    ensures RightStatus(input, sink, i, WriteFailed) && RightBytes(input, sink, i, Claimed(sink(i), input[i].data))
  {
    assert !AllWritten(input, sink, i, |input|);
    forall k | i <= k < |input| && FirstBad(input, sink, i, k) ensures k == i {}
    assert Span(input, i, i) + Claimed(sink(i), input[i].data) == Claimed(sink(i), input[i].data);
  }

  lemma StatusBefore(input: seq<Reading>, sink: nat -> Writing, i: nat, status: Status)
    requires Ends(input) && i + 1 < |input| && !FirstBad(input, sink, i, i) && RightStatus(input, sink, i + 1, status)
    ensures RightStatus(input, sink, i, status)
  {
    OneEarlier(input, sink, i);
    hide Span, AllWritten, FirstBad;
    var next := i + 1;
    if k :| i <= k < |input| && FirstBad(input, sink, i, k) { assert FirstBad(input, sink, next, k); }
    if k :| next <= k < |input| && FirstBad(input, sink, next, k) { assert FirstBad(input, sink, i, k); }
  }

  lemma BytesBefore(input: seq<Reading>, sink: nat -> Writing, i: nat, sunk: Bytes)
    requires i + 1 < |input| && !FirstBad(input, sink, i, i) && RightBytes(input, sink, i + 1, sunk)
    ensures RightBytes(input, sink, i, input[i].data + sunk)
  {
    OneEarlier(input, sink, i);
    hide Span, AllWritten, FirstBad, Claimed;
    var data := input[i].data;
    forall k | i <= k < |input| && FirstBad(input, sink, i, k)
      ensures data + sunk == Span(input, i, k) + Claimed(sink(k), input[k].data)
    {
      assert data + (Span(input, i + 1, k) + Claimed(sink(k), input[k].data))
        == data + Span(input, i + 1, k) + Claimed(sink(k), input[k].data);
    }
  }

  lemma OneEarlier(input: seq<Reading>, sink: nat -> Writing, i: nat)
    requires i + 1 < |input| && !FirstBad(input, sink, i, i)
    ensures forall k :: i < k <= |input| ==> Span(input, i, k) == input[i].data + Span(input, i + 1, k)
    ensures forall k :: i < k < |input| ==> (FirstBad(input, sink, i, k) <==> FirstBad(input, sink, i + 1, k))
    ensures AllWritten(input, sink, i, |input|) <==> AllWritten(input, sink, i + 1, |input|)
  {
    forall k | i < k <= |input| ensures Span(input, i, k) == input[i].data + Span(input, i + 1, k) {
      SpansJoin(input, i, i + 1, k);
      assert Span(input, i, i + 1) == Span(input, i, i) + input[i].data == input[i].data;
    }
  }

  /** The i-th read, in the buffer the pool gave for it. */
  datatype Chunk = Chunk(buf: nat, i: nat)

  datatype Reader =
    | Checking
    | Sending(chunk: Chunk)
    | Leaving                // it returned; its deferred closes have not run
    | Closed                 // the channel is closed, done is not
    | Finished               // done is closed

  datatype Writer =
    | Receiving
    | Holding(chunk: Chunk)
    | Draining(why: Status)  // stop is closed; what is queued goes back to the pool
    | Joining(why: Status)   // waits for done
    | Returned(why: Status)

  datatype State = State(
    next: nat,               // reads made
    taken: nat,              // chunks the writer received
    reader: Reader,
    queue: seq<Chunk>,
    stop: bool,
    writer: Writer,
    sunk: Bytes,
    mem: map<nat, Bytes>,    // what each buffer holds
    out: set<nat>)           // buffers the pool gave and has not got back

  const START := State(0, 0, Checking, [], false, Receiving, [], map[], {})

  datatype Action =
    | ReadNext(buf: nat)     // or, when stopped, leave
    | Send
    | GiveUp                 // stop won the select
    | CloseFull
    | CloseDone
    | Write

  predicate CanRead(s: State, buf: nat) {
    s.reader.Checking? && (s.stop || buf !in s.out)
  }

  predicate FullClosed(s: State) {
    s.reader.Closed? || s.reader.Finished?
  }

  predicate Left(s: State) {
    s.reader.Leaving? || FullClosed(s)
  }

  predicate Enabled(s: State, a: Action) {
    match a
    case ReadNext(buf) => CanRead(s, buf)
    case Send => s.reader.Sending? && |s.queue| < READ_AHEAD
    case GiveUp => s.reader.Sending? && s.stop
    case CloseFull => s.reader.Leaving?
    case CloseDone => s.reader.Closed?
    case Write =>
      match s.writer
      case Receiving => s.queue != [] || FullClosed(s)
      case Draining(_) => s.queue != [] || FullClosed(s)
      case Holding(_) => true
      case Joining(_) => s.reader.Finished?
      case Returned(_) => false
  }

  /** The writer is done with its chunk: it was written in full or not. */
  function AfterWrite(input: seq<Reading>, sink: nat -> Writing, s: State): State
    requires s.writer.Holding? && s.writer.chunk.i < |input| && s.writer.chunk.buf in s.mem
  {
    var c := s.writer.chunk;
    var data := s.mem[c.buf];
    var back := s.(out := s.out - {c.buf});
    if data != [] && Refused(sink(c.i), |data|) then
      back.(sunk := s.sunk + data[..Taken(sink(c.i), |data|)], stop := true, writer := Draining(WriteFailed))
    else match input[c.i].end
      case Eof => back.(sunk := s.sunk + data, writer := Joining(Copied))
      case Failed => back.(sunk := s.sunk + data, stop := true, writer := Draining(ReadFailed))
      case More => back.(sunk := s.sunk + data, writer := Receiving)
  }

  function WriterStep(input: seq<Reading>, sink: nat -> Writing, s: State): State
    requires Invariant(input, sink, s) && Enabled(s, Write)
  {
    match s.writer
    case Receiving =>
      if s.queue != [] then s.(writer := Holding(s.queue[0]), queue := s.queue[1..], taken := s.taken + 1)
      else s.(writer := Joining(Copied))
    case Holding(_) => AfterWrite(input, sink, s)
    case Draining(why) =>
      if s.queue != [] then s.(queue := s.queue[1..], taken := s.taken + 1, out := s.out - {s.queue[0].buf})
      else s.(writer := Joining(why))
    case Joining(why) => s.(writer := Returned(why))
  }

  function Step(input: seq<Reading>, sink: nat -> Writing, s: State, a: Action): State
    requires Invariant(input, sink, s) && Enabled(s, a)
  {
    match a
    case ReadNext(buf) =>
      if s.stop then s.(reader := Leaving)
      else s.(next := s.next + 1, reader := Sending(Chunk(buf, s.next)),
              mem := s.mem[buf := input[s.next].data], out := s.out + {buf})
    case Send =>
      s.(queue := s.queue + [s.reader.chunk], reader := if input[s.reader.chunk.i].end.More? then Checking else Leaving)
    case GiveUp => s.(reader := Leaving, out := s.out - {s.reader.chunk.buf})
    case CloseFull => s.(reader := Closed)
    case CloseDone => s.(reader := Finished)
    case Write => WriterStep(input, sink, s)
  }

  /** A chunk in flight: its buffer is out of the pool and holds its own read. */
  predicate Owned(input: seq<Reading>, s: State, c: Chunk) {
    c.i < |input| && c.buf in s.out && c.buf in s.mem && s.mem[c.buf] == input[c.i].data
  }

  function Bufs(queue: seq<Chunk>): set<nat> {
    set c | c in queue :: c.buf
  }

  predicate Distinct(queue: seq<Chunk>) {
    forall k, m :: 0 <= k < m < |queue| ==> queue[k].buf != queue[m].buf
  }

  function InHand(s: State): set<nat> {
    (if s.writer.Holding? then {s.writer.chunk.buf} else {}) + (if s.reader.Sending? then {s.reader.chunk.buf} else {})
  }

  /** Every buffer out of the pool is in exactly one hand, and its bytes are its own read's. */
  predicate Buffers(input: seq<Reading>, s: State) {
    && |s.queue| <= READ_AHEAD && Distinct(s.queue)
    && (forall c :: c in s.queue ==> Owned(input, s, c))
    && (s.writer.Holding? ==> Owned(input, s, s.writer.chunk))
    && (s.reader.Sending? ==> Owned(input, s, s.reader.chunk))
    && (s.writer.Holding? && s.reader.Sending? ==> s.writer.chunk.buf != s.reader.chunk.buf)
    && Bufs(s.queue) !! InHand(s)
    && s.out == Bufs(s.queue) + InHand(s)
  }

  lemma Appended(queue: seq<Chunk>, c: Chunk)
    requires Distinct(queue) && c.buf !in Bufs(queue)
    ensures Distinct(queue + [c]) && Bufs(queue + [c]) == Bufs(queue) + {c.buf}
  {
    forall d | d in queue ensures d.buf in Bufs(queue) {}
    assert forall d :: d in queue + [c] <==> d in queue || d == c;
    forall k | 0 <= k < |queue| ensures queue[k].buf != c.buf { assert queue[k] in queue; }
  }

  lemma Popped(queue: seq<Chunk>)
    requires Distinct(queue) && queue != []
    ensures Distinct(queue[1..]) && Bufs(queue[1..]) == Bufs(queue) - {queue[0].buf}
    ensures queue[0].buf in Bufs(queue) && forall c :: c in queue[1..] ==> c in queue
  {
    assert queue == [queue[0]] + queue[1..];
    forall c | c in queue[1..] ensures c.buf != queue[0].buf {
      var k :| 0 <= k < |queue[1..]| && queue[1..][k] == c;
      assert queue[k + 1] == c;
    }
    assert queue[0] in queue;
  }

  /** The flight is the reads between what the writer received and what the reader made, in order. */
  predicate InOrder(input: seq<Reading>, s: State) {
    && s.next <= |input|
    && (forall k :: 0 <= k < |s.queue| ==> s.queue[k].i == s.taken + k)
    && (s.writer.Holding? ==> s.writer.chunk.i + 1 == s.taken)
    && (s.reader.Sending? ==> s.reader.chunk.i + 1 == s.next)
    && (s.reader.Checking? ==> s.next < |input|)
    && (Left(s) && !s.stop ==> s.next == |input|)
    && ((Left(s) && s.stop) || s.next == s.taken + |s.queue| + if s.reader.Sending? then 1 else 0)
  }

  /** What was written so far, with what io.Copy still would write, is io.Copy's result. */
  predicate Refines(input: seq<Reading>, sink: nat -> Writing, s: State)
    requires Ends(input)
  {
    match s.writer
    case Receiving =>
      && !s.stop && s.taken < |input| && s.sunk == Span(input, 0, s.taken)
      && Copy(input, sink, 0) == Prepend(s.sunk, Copy(input, sink, s.taken))
    case Holding(c) =>
      && !s.stop && c.i < |input| && s.sunk == Span(input, 0, c.i)
      && Copy(input, sink, 0) == Prepend(s.sunk, Copy(input, sink, c.i))
    case Draining(why) => s.stop && Copy(input, sink, 0) == Result(s.sunk, why)
    case Joining(why) => Left(s) && s.queue == [] && Copy(input, sink, 0) == Result(s.sunk, why)
    case Returned(why) => s.reader.Finished? && s.queue == [] && Copy(input, sink, 0) == Result(s.sunk, why)
  }

  predicate Invariant(input: seq<Reading>, sink: nat -> Writing, s: State) {
    Ends(input) && Buffers(input, s) && InOrder(input, s) && Refines(input, sink, s)
  }

  lemma Starts(input: seq<Reading>, sink: nat -> Writing)
    requires Ends(input)
    ensures Invariant(input, sink, START)
  {
    assert Prepend([], Copy(input, sink, 0)).sunk == Copy(input, sink, 0).sunk;
  }

  lemma ReaderKeepsBuffers(input: seq<Reading>, sink: nat -> Writing, s: State, a: Action)
    requires Invariant(input, sink, s) && Enabled(s, a) && !a.Write?
    ensures Buffers(input, Step(input, sink, s, a))
  {
    hide Refines;
    forall c | c in s.queue ensures c.buf in Bufs(s.queue) {}
    if a.Send? { Appended(s.queue, s.reader.chunk); }
  }

  lemma ReaderKeepsOrder(input: seq<Reading>, sink: nat -> Writing, s: State, a: Action)
    requires Invariant(input, sink, s) && Enabled(s, a) && !a.Write?
    ensures InOrder(input, Step(input, sink, s, a))
  {
    hide Buffers, Refines, Copy, Bufs, Span;
  }

  lemma ReaderRefines(input: seq<Reading>, sink: nat -> Writing, s: State, a: Action)
    requires Invariant(input, sink, s) && Enabled(s, a) && !a.Write?
    ensures Refines(input, sink, Step(input, sink, s, a))
  {
    hide Buffers, InOrder, Copy, Bufs, Span;
  }

  lemma ReaderKeeps(input: seq<Reading>, sink: nat -> Writing, s: State, a: Action)
    requires Invariant(input, sink, s) && Enabled(s, a) && !a.Write?
    ensures Invariant(input, sink, Step(input, sink, s, a))
  {
    ReaderKeepsBuffers(input, sink, s, a);
    ReaderKeepsOrder(input, sink, s, a);
    ReaderRefines(input, sink, s, a);
    hide Buffers, InOrder, Refines, Step, Enabled;
  }

  lemma WriterReleases(input: seq<Reading>, sink: nat -> Writing, s: State)
    requires Invariant(input, sink, s) && s.writer.Holding?
    ensures Buffers(input, WriterStep(input, sink, s))
  {
    hide Refines, Copy;
    var c := s.writer.chunk;
    forall d | d in s.queue ensures d.buf in Bufs(s.queue) {}
    assert InHand(WriterStep(input, sink, s)) == InHand(s) - {c.buf};
    assert s.out - {c.buf} == Bufs(s.queue) + (InHand(s) - {c.buf});
  }

  lemma WriterTakes(input: seq<Reading>, sink: nat -> Writing, s: State)
    requires Invariant(input, sink, s) && s.writer.Receiving? && s.queue != []
    ensures Buffers(input, WriterStep(input, sink, s))
  {
    hide Refines, Copy, Bufs;
    Popped(s.queue);
    assert s.queue[0] in s.queue;
    assert InHand(WriterStep(input, sink, s)) == InHand(s) + {s.queue[0].buf};
  }

  lemma WriterDrains(input: seq<Reading>, sink: nat -> Writing, s: State)
    requires Invariant(input, sink, s) && s.writer.Draining? && s.queue != []
    ensures Buffers(input, WriterStep(input, sink, s))
  {
    hide Refines, Copy;
    Popped(s.queue);
    forall d | d in s.queue[1..] ensures d.buf in Bufs(s.queue[1..]) {}
    assert InHand(WriterStep(input, sink, s)) == InHand(s);
  }

  lemma WriterKeepsBuffers(input: seq<Reading>, sink: nat -> Writing, s: State)
    requires Invariant(input, sink, s) && Enabled(s, Write)
    ensures Buffers(input, WriterStep(input, sink, s))
  {
    hide Refines, Copy;
    if s.writer.Holding? { WriterReleases(input, sink, s); }
    if s.queue != [] && s.writer.Receiving? { WriterTakes(input, sink, s); }
    if s.queue != [] && s.writer.Draining? { WriterDrains(input, sink, s); }
  }

  lemma Extended(a: Bytes, b: Bytes, r: Result)
    ensures Prepend(a, Prepend(b, r)) == Prepend(a + b, r) && Prepend(a, Result(b, r.status)) == Result(a + b, r.status)
  {
    assert a + (b + r.sunk) == a + b + r.sunk;
  }

  lemma WriterRefines(input: seq<Reading>, sink: nat -> Writing, s: State)
    requires Invariant(input, sink, s) && Enabled(s, Write)
    ensures Refines(input, sink, WriterStep(input, sink, s)) && InOrder(input, WriterStep(input, sink, s))
  {
    if s.writer.Holding? {
      var c := s.writer.chunk;
      var data := s.mem[c.buf];
      Extended(s.sunk, data, Result([], Copied));
      if c.i + 1 < |input| { Extended(s.sunk, data, Copy(input, sink, c.i + 1)); }
      assert data + [] == data;
    }
  }

  /** Each goroutine's every step keeps the invariant, whatever the other has done. */
  lemma StepKeeps(input: seq<Reading>, sink: nat -> Writing, s: State, a: Action)
    requires Invariant(input, sink, s) && Enabled(s, a)
    ensures Invariant(input, sink, Step(input, sink, s, a))
  {
    if a.Write? {
      WriterKeepsBuffers(input, sink, s);
      WriterRefines(input, sink, s);
    } else {
      ReaderKeeps(input, sink, s, a);
    }
  }

  /** The bytes of some queued chunks, as their buffers hold them. */
  function Held(s: State, chunks: seq<Chunk>): Bytes
    requires forall c :: c in chunks ==> c.buf in s.mem
  {
    if chunks == [] then [] else Held(s, chunks[..|chunks| - 1]) + s.mem[chunks[|chunks| - 1].buf]
  }

  /** Chunks in flight, oldest first: in the writer's hand, queued, in the reader's hand. */
  function Flight(s: State): seq<Chunk> {
    (if s.writer.Holding? then [s.writer.chunk] else []) + s.queue + (if s.reader.Sending? then [s.reader.chunk] else [])
  }

  lemma {:induction false} HeldIsSpan(input: seq<Reading>, s: State, chunks: seq<Chunk>, i: nat)
    requires i + |chunks| <= |input| && forall c :: c in chunks ==> c.buf in s.mem
    requires forall k :: 0 <= k < |chunks| ==> Owned(input, s, chunks[k]) && chunks[k].i == i + k
    ensures Held(s, chunks) == Span(input, i, i + |chunks|)
  {
    if chunks != [] {
      HeldIsSpan(input, s, chunks[..|chunks| - 1], i);
    }
  }

  lemma {:induction false} SpansJoin(input: seq<Reading>, i: nat, j: nat, k: nat)
    requires i <= j <= k <= |input|
    ensures Span(input, i, j) + Span(input, j, k) == Span(input, i, k)
    decreases k
  {
    if j < k { SpansJoin(input, i, j, k - 1); }
  }

  /** Nothing read is lost or doubled: what was written, then what is in flight, is what was read so far. */
  lemma Conserved(input: seq<Reading>, sink: nat -> Writing, s: State)
    requires Invariant(input, sink, s) && (s.writer.Receiving? || s.writer.Holding?)
    ensures forall c :: c in Flight(s) ==> c.buf in s.mem
    ensures s.sunk + Held(s, Flight(s)) == Span(input, 0, s.next)
  {
    var first := s.taken - if s.writer.Holding? then 1 else 0;
    forall k | 0 <= k < |Flight(s)| ensures Owned(input, s, Flight(s)[k]) && Flight(s)[k].i == first + k {}
    HeldIsSpan(input, s, Flight(s), first);
    SpansJoin(input, 0, first, s.next);
  }

  /** Work left: every step of either goroutine uses some of it up. */
  function Rank(input: seq<Reading>, s: State): int {
    6 * (|input| - s.next)
    + (match s.reader case Checking => 3 case Sending(_) => 7 case Leaving => 2 case Closed => 1 case Finished => 0)
    + 2 * |s.queue|
    + (match s.writer case Receiving => 3 case Holding(_) => 4 case Draining(_) => 2 case Joining(_) => 1 case Returned(_) => 0)
  }

  lemma StepsEnd(input: seq<Reading>, sink: nat -> Writing, s: State, a: Action)
    requires Invariant(input, sink, s) && Enabled(s, a)
    ensures 0 <= Rank(input, Step(input, sink, s, a)) < Rank(input, s)
  {
  }

  /** No interleaving deadlocks: until the copy returned, some goroutine can go on. */
  lemma SomeStep(input: seq<Reading>, sink: nat -> Writing, s: State) returns (a: Action)
    requires Invariant(input, sink, s) && !s.writer.Returned?
    ensures Enabled(s, a)
  {
    if Enabled(s, Write) {
      a := Write;
    } else if s.reader.Checking? {
      var buf :| buf !in s.out;
      a := ReadNext(buf);
    } else {
      a := if s.reader.Sending? then Send else if s.reader.Leaving? then CloseFull else CloseDone;
    }
  }

  /** The state after these steps of the two goroutines, if each could be taken. */
  function After(input: seq<Reading>, sink: nat -> Writing, steps: seq<Action>): (s: Option<State>)
    requires Ends(input)
    ensures s.Some? ==> Invariant(input, sink, s.value)
    ensures s.Some? ==> 0 <= Rank(input, s.value) && Rank(input, s.value) + |steps| <= Rank(input, START)
  {
    if steps == [] then Starts(input, sink); Some(START)
    else
      var before := After(input, sink, steps[..|steps| - 1]);
      var a := steps[|steps| - 1];
      if before.None? || !Enabled(before.value, a) then None
      else
        StepKeeps(input, sink, before.value, a);
        StepsEnd(input, sink, before.value, a);
        Some(Step(input, sink, before.value, a))
  }

  lemma OneMore(input: seq<Reading>, sink: nat -> Writing, steps: seq<Action>, a: Action)
    requires Ends(input) && After(input, sink, steps).Some? && Enabled(After(input, sink, steps).value, a)
    ensures After(input, sink, steps + [a]).Some?
    ensures |steps| < Rank(input, START)
  {
    hide Invariant, Enabled, Step, Rank;
    assert (steps + [a])[..|steps|] == steps;
    assert 0 <= Rank(input, After(input, sink, steps + [a]).value);
  }

  /** However far the two goroutines are, they can go on to a state in which the copy has returned. */
  lemma {:induction false} Completes(input: seq<Reading>, sink: nat -> Writing, steps: seq<Action>) returns (more: seq<Action>)
    requires Ends(input) && After(input, sink, steps).Some?
    ensures After(input, sink, steps + more).Some? && After(input, sink, steps + more).value.writer.Returned?
    decreases Rank(input, START) - |steps|
  {
    hide Invariant, Enabled, Step, Rank;
    var s := After(input, sink, steps).value;
    if s.writer.Returned? {
      assert steps + [] == steps;
      return [];
    }
    var a := SomeStep(input, sink, s);
    OneMore(input, sink, steps, a);
    var rest := Completes(input, sink, steps + [a]);
    more := [a] + rest;
    assert steps + more == steps + [a] + rest;
  }

  /** copyReadAhead is io.Copy under every interleaving: when it returns, it wrote exactly io.Copy's bytes with
      io.Copy's outcome, its reader has stopped, and every buffer is back in the pool. */
  lemma AnyInterleaving(input: seq<Reading>, sink: nat -> Writing, steps: seq<Action>)
    requires Ends(input) && After(input, sink, steps).Some?
    ensures var s := After(input, sink, steps).value;
      s.writer.Returned? ==>
        && Result(s.sunk, s.writer.why) == Copy(input, sink, 0) && s.reader.Finished? && s.out == {}
        && RightStatus(input, sink, 0, s.writer.why) && RightBytes(input, sink, 0, s.sunk)
    ensures var s := After(input, sink, steps).value;
      !s.writer.Returned? ==> exists a :: Enabled(s, a)
    ensures |steps| <= 6 * |input| + 6
  {
    var s := After(input, sink, steps).value;
    CopyMeans(input, sink, 0);
    if !s.writer.Returned? { var a := SomeStep(input, sink, s); }
  }
}
