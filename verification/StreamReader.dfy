/**
 Incoming ordered streams and the memory budget they share
 (src/core/data_stream.cpp:114-636). Text and byte readers differ only in the
 UTF-8 test, so one Reader with an isText flag stands for both.
 */
module StreamReaders {
  import opened Common
  import Utf8

  const SIZE_MAX: nat := 0xFFFF_FFFF_FFFF_FFFF

  datatype Limits = Limits(
    maxActiveReaders: nat,
    maxBufferedPerReader: nat,
    maxBuffered: nat,
    maxQueuedChunks: nat,
    maxReadAll: nat)

  datatype Budget = Budget(active: nat, buffered: nat)

  datatype Reason =
    | NoReason
    | ActiveReaderLimitExceeded
    | BufferLimitExceeded
    | ChunkLimitExceeded
    | ChunkSequenceMismatch
    | InvalidUtf8
    | ReadAllLimitExceeded
    | DeclaredLengthExceeded
    | LengthMismatch
    | AllocationFailed
    | Given(text: string)

  datatype Reader = Reader(
    isText: bool,
    declared: Option<nat>,
    queue: seq<Bytes>,
    buffered: nat,
    received: nat,
    queuedChunks: nat,
    nextIndex: nat,
    admitted: bool,
    registered: bool,
    closed: bool,
    failed: bool,
    reason: Reason)

  // ------------------------------------------------------------------------
  // The shared budget.
  // ------------------------------------------------------------------------

  predicate HasRoom(l: Limits, b: Budget, bytes: nat)
  {
    bytes <= l.maxBuffered - Min(b.buffered, l.maxBuffered)
  }

  function Reserve(b: Budget, bytes: nat): Budget { b.(buffered := b.buffered + bytes) }

  /** Never below zero, so a release of more than is reserved would be cut off; module SharedBudget shows there is none. */
  function Release(b: Budget, bytes: nat): Budget
  {
    b.(buffered := if bytes <= b.buffered then b.buffered - bytes else 0)
  }

  function ReleaseReader(b: Budget): Budget
  {
    if b.active > 0 then b.(active := b.active - 1) else b
  }

  // ------------------------------------------------------------------------
  // Reader transitions; each holds the reader's mutex throughout.
  // ------------------------------------------------------------------------

  function Create(l: Limits, b: Budget, isText: bool, declared: Option<nat>): (Budget, Reader)
  {
    var newborn := Reader(isText, declared, [], 0, 0, 0, 0, true, true, false, false, NoReason);
    if b.active >= l.maxActiveReaders then
      (b, newborn.(admitted := false, registered := false, closed := true, failed := true,
       reason := ActiveReaderLimitExceeded))
    else (b.(active := b.active + 1), newborn)
  }

  function ReleaseActive(b: Budget, r: Reader): (Budget, Reader)
  {
    if r.registered then (ReleaseReader(b), r.(registered := false)) else (b, r)
  }

  function Fail(b: Budget, r: Reader, reason: Reason): (Budget, Reader)
  {
    if r.closed then (b, r) else ReleaseActive(b, r.(closed := true, failed := true, reason := reason))
  }

  datatype Judgement = Ignore | Deny(reason: Reason) | Skip | Offer

  /** The checks made before the shared budget is asked. */
  ghost function Judge(l: Limits, r: Reader, index: nat, data: Bytes): Judgement
  {
    if r.closed then Ignore
    else if index != r.nextIndex then Deny(ChunkSequenceMismatch)
    else if r.isText && !Utf8.WellFormed(data) then Deny(InvalidUtf8)
    else if data == [] then Skip
    else if |data| > SIZE_MAX - r.received
      || (r.declared.Some? && (r.received > r.declared.value || |data| > r.declared.value - r.received))
    then Deny(DeclaredLengthExceeded)
    else if r.queuedChunks >= l.maxQueuedChunks then Deny(ChunkLimitExceeded)
    else if |data| > l.maxBufferedPerReader - Min(r.buffered, l.maxBufferedPerReader)
    then Deny(BufferLimitExceeded)
    else Offer
  }

  function Enqueue(r: Reader, data: Bytes): Reader
  {
    r.(queue := r.queue + [data], buffered := r.buffered + |data|, received := r.received + |data|,
       queuedChunks := r.queuedChunks + 1, nextIndex := r.nextIndex + 1)
  }

  ghost predicate Accepts(l: Limits, b: Budget, r: Reader, index: nat, data: Bytes, stored: bool)
  {
    Judge(l, r, index, data).Skip?
    || (Judge(l, r, index, data).Offer? && HasRoom(l, b, |data|) && stored)
  }

  ghost function Arrive(l: Limits, b: Budget, r: Reader, index: nat, data: Bytes, stored: bool): (Budget, Reader)
  {
    match Judge(l, r, index, data)
    case Ignore => (b, r)
    case Deny(reason) => Fail(b, r, reason)
    case Skip => (b, r.(nextIndex := r.nextIndex + 1))
    case Offer =>
      if !HasRoom(l, b, |data|) then Fail(b, r, BufferLimitExceeded)
      else if !stored then Fail(Release(Reserve(b, |data|), |data|), r, AllocationFailed)
      else (Reserve(b, |data|), Enqueue(r, data))
  }

  function Dequeue(r: Reader): Reader
    requires r.queue != [] && r.buffered >= |r.queue[0]| && r.queuedChunks > 0
  {
    r.(queue := r.queue[1..], buffered := r.buffered - |r.queue[0]|, queuedChunks := r.queuedChunks - 1)
  }

  function CloseStream(b: Budget, r: Reader, reason: string): (Budget, Reader)
  {
    if r.closed then (b, r)
    else if r.declared.Some? && r.received != r.declared.value then Fail(b, r, LengthMismatch)
    else if reason != "" then Fail(b, r, Given(reason))
    else ReleaseActive(b, r.(closed := true, reason := NoReason))
  }

  function MarkReadAllLimit(b: Budget, r: Reader): (Budget, Reader)
  {
    if r.failed then (b, r)
    else ReleaseActive(b, r.(closed := true, failed := true, reason := ReadAllLimitExceeded))
  }

  function Destroy(b: Budget, r: Reader): Budget
  {
    Release(ReleaseActive(b, r).0, r.buffered)
  }

  // ------------------------------------------------------------------------
  // What one reader always looks like.
  // ------------------------------------------------------------------------

  ghost predicate Coherent(l: Limits, r: Reader)
  {
    && r.buffered == |Concat(r.queue)|
    && r.queuedChunks == |r.queue|
    && r.queuedChunks <= l.maxQueuedChunks
    && r.buffered <= l.maxBufferedPerReader
    && r.registered == (r.admitted && !r.closed)
    && (r.failed ==> r.closed)
    && (r.declared.Some? ==> r.received <= r.declared.value)
    && (r.closed && !r.failed && r.declared.Some? ==> r.received == r.declared.value)
    && (!r.admitted ==> r.closed && r.queue == [])
  }

  lemma DequeueIsSafe(l: Limits, r: Reader)
    requires Coherent(l, r) && r.queue != []
    ensures r.buffered >= |r.queue[0]| && r.queuedChunks > 0
    ensures Coherent(l, Dequeue(r))
  {
  }

  lemma ArriveKeeps(l: Limits, b: Budget, r: Reader, index: nat, data: Bytes, stored: bool)
    requires Coherent(l, r)
    ensures Coherent(l, Arrive(l, b, r, index, data, stored).1)
  {
    hide Utf8.WellFormed, Concat;
    ConcatSnoc(r.queue, data);
  }

  // ------------------------------------------------------------------------
  // The life of one reader, with the rest of the room doing anything to the budget.
  // ------------------------------------------------------------------------

  datatype Event =
    | Chunk(index: nat, data: Bytes, stored: bool)
    | Next            // ReadNext
    | Take            // ReadAll takes a chunk; its bytes stay reserved
    | End(reason: string)
    | Error(reason: string)
    | Overrun(gathered: nat, chunk: nat)    // a ReadAll compares what it has and its next chunk with the limit
    | Others(budget: Budget)

  /** A reader with its past: the chunks it accepted and those it handed out. */
  datatype Life = Life(budget: Budget, reader: Reader, accepted: seq<Bytes>, handed: seq<Bytes>)

  ghost function Step(l: Limits, s: Life, e: Event): Life
    requires Coherent(l, s.reader)
  {
    match e
    case Chunk(index, data, stored) =>
      var (b, r) := Arrive(l, s.budget, s.reader, index, data, stored);
      Life(b, r, if Accepts(l, s.budget, s.reader, index, data, stored) then s.accepted + [data] else s.accepted,
           s.handed)
    case Next =>
      if s.reader.queue == [] then s
      else
        DequeueIsSafe(l, s.reader);
        Life(Release(s.budget, |s.reader.queue[0]|), Dequeue(s.reader), s.accepted, s.handed + [s.reader.queue[0]])
    case Take =>
      if s.reader.queue == [] then s
      else
        DequeueIsSafe(l, s.reader);
        s.(reader := Dequeue(s.reader), handed := s.handed + [s.reader.queue[0]])
    case End(reason) =>
      var (b, r) := CloseStream(s.budget, s.reader, reason);
      s.(budget := b, reader := r)
    case Error(reason) =>
      var (b, r) := Fail(s.budget, s.reader, Given(reason));
      s.(budget := b, reader := r)
    case Overrun(gathered, chunk) =>
      if !OverReadLimit(l, gathered, chunk) then s
      else
        var (b, r) := MarkReadAllLimit(s.budget, s.reader);
        s.(budget := b, reader := r)
    case Others(budget) => s.(budget := budget)
  }

  ghost predicate History(l: Limits, s: Life)
  {
    && Coherent(l, s.reader)
    && Concat(s.handed) + Concat(s.reader.queue) == Concat(s.accepted)
    && s.reader.nextIndex == |s.accepted|
    && s.reader.received == |Concat(s.accepted)|
    && (s.reader.isText ==> forall c :: c in s.accepted ==> Utf8.WellFormed(c))
  }

  /** What a chunk does to the reader, by cases a caller can see. */
  lemma ArriveCases(l: Limits, b: Budget, r: Reader, index: nat, data: Bytes, stored: bool)
    ensures var r' := Arrive(l, b, r, index, data, stored).1;
      if !Accepts(l, b, r, index, data, stored) then
        r'.queue == r.queue && r'.received == r.received && r'.nextIndex == r.nextIndex && r'.isText == r.isText
      else
        && index == r.nextIndex
        && (r.isText ==> Utf8.WellFormed(data))
        && r' == if data == [] then r.(nextIndex := r.nextIndex + 1) else Enqueue(r, data)
  {
  }

  lemma ChunkHistory(l: Limits, s: Life, e: Event)
    requires History(l, s) && e.Chunk?
    ensures History(l, Step(l, s, e))
  {
    ArriveKeeps(l, s.budget, s.reader, e.index, e.data, e.stored);
    ArriveCases(l, s.budget, s.reader, e.index, e.data, e.stored);
    ConcatSnoc(s.reader.queue, e.data);
    ConcatSnoc(s.accepted, e.data);
    AppendAssociates(Concat(s.handed), Concat(s.reader.queue), e.data);
    hide Arrive, Judge, Accepts, Coherent, Concat, Utf8.WellFormed;
  }

  lemma StepHistory(l: Limits, s: Life, e: Event)
    requires History(l, s)
    ensures History(l, Step(l, s, e))
  {
    match e
    case Chunk(_, _, _) => ChunkHistory(l, s, e);
    case Next | Take =>
      if s.reader.queue != [] {
        HandOver(l, s);
      }
    case _ => hide Utf8.WellFormed, Concat;
  }

  /** Handing the oldest chunk out moves it from the queue to the past. */
  lemma HandOver(l: Limits, s: Life)
    requires History(l, s) && s.reader.queue != []
    ensures var r := s.reader;
      && Coherent(l, r) && Coherent(l, Dequeue(r))
      && Concat(s.handed + [r.queue[0]]) + Concat(r.queue[1..]) == Concat(s.accepted)
  {
    DequeueIsSafe(l, s.reader);
    ConcatSnoc(s.handed, s.reader.queue[0]);
    ConcatCons(s.reader.queue);
    hide Concat, Coherent;
    AppendAssociates(Concat(s.handed), s.reader.queue[0], Concat(s.reader.queue[1..]));
  }

  /** A life that starts when the room opens the stream. */
  function Birth(l: Limits, b: Budget, isText: bool, declared: Option<nat>): Life
  {
    var (b', r) := Create(l, b, isText, declared);
    Life(b', r, [], [])
  }

  ghost function Live(l: Limits, birth: Life, events: seq<Event>): (s: Life)
    requires History(l, birth)
    ensures History(l, s)
  {
    if events == [] then birth
    else
      var before := Live(l, birth, events[..|events| - 1]);
      StepHistory(l, before, events[|events| - 1]);
      Step(l, before, events[|events| - 1])
  }

  lemma BirthHistory(l: Limits, b: Budget, isText: bool, declared: Option<nat>)
    ensures History(l, Birth(l, b, isText, declared))
  {
  }

  /**
   In any life of a reader: the octets handed out followed by those queued are
   the accepted chunks in index order, as many as the reader counted, and a
   clean close has received exactly the declared length.
   */
  lemma ReaderHistory(l: Limits, b: Budget, isText: bool, declared: Option<nat>, events: seq<Event>)
    ensures History(l, Birth(l, b, isText, declared))
    ensures var s := Live(l, Birth(l, b, isText, declared), events);
      && Concat(s.handed) + Concat(s.reader.queue) == Concat(s.accepted)
      && |s.accepted| == s.reader.nextIndex
      && |s.reader.queue| <= l.maxQueuedChunks
      && |Concat(s.reader.queue)| <= l.maxBufferedPerReader
      && (s.reader.closed && !s.reader.failed && declared.Some? ==> |Concat(s.accepted)| == declared.value)
  {
    BirthHistory(l, b, isText, declared);
    LiveKeepsHeader(l, Birth(l, b, isText, declared), events);
  }

  lemma {:induction false} LiveKeepsHeader(l: Limits, birth: Life, events: seq<Event>)
    requires History(l, birth)
    ensures Live(l, birth, events).reader.declared == birth.reader.declared
    ensures Live(l, birth, events).reader.isText == birth.reader.isText
  {
    hide Step, History;
    if events != [] {
      var before := Live(l, birth, events[..|events| - 1]);
      LiveKeepsHeader(l, birth, events[..|events| - 1]);
      StepKeepsHeader(l, before, events[|events| - 1]);
    }
  }

  lemma StepKeepsHeader(l: Limits, s: Life, e: Event)
    requires History(l, s)
    ensures Step(l, s, e).reader.declared == s.reader.declared
    ensures Step(l, s, e).reader.isText == s.reader.isText
  {
  }

  predicate GoesOver(l: Limits, e: Event) { e.Overrun? && OverReadLimit(l, e.gathered, e.chunk) }

  /** Some ReadAll found its next chunk over the limit. */
  ghost predicate OverrunIn(l: Limits, events: seq<Event>)
  {
    exists i :: 0 <= i < |events| && GoesOver(l, events[i])
  }

  lemma OverrunSnoc(l: Limits, events: seq<Event>, e: Event)
    ensures OverrunIn(l, events + [e]) <==> OverrunIn(l, events) || GoesOver(l, e)
  {
    if OverrunIn(l, events) {
      var i :| 0 <= i < |events| && GoesOver(l, events[i]);
      assert GoesOver(l, (events + [e])[i]);
    }
    assert (events + [e])[|events|] == e;
  }

  /**
   Closing is final: nothing is accepted afterwards, and a failure keeps its
   first reason. A clean close still turns into a failure exactly when a ReadAll
   finds its next chunk over the limit.
   */
  lemma {:induction false} CloseIsFinal(l: Limits, s: Life, events: seq<Event>)
    requires History(l, s) && s.reader.closed
    ensures var later := Live(l, s, events);
      && later.reader.closed
      && later.accepted == s.accepted
      && (s.reader.failed ==> later.reader.failed && later.reader.reason == s.reader.reason)
      && (!s.reader.failed ==>
            && (later.reader.failed <==> OverrunIn(l, events))
            && (later.reader.failed ==> later.reader.reason == ReadAllLimitExceeded))
  {
    hide Step, History, OverrunIn, GoesOver;
    if events != [] {
      var before := events[..|events| - 1];
      CloseIsFinal(l, s, before);
      StepAfterClose(l, Live(l, s, before), events[|events| - 1]);
      OverrunSnoc(l, before, events[|events| - 1]);
      assert events == before + [events[|events| - 1]];
    } else {
      assert !OverrunIn(l, events) by { NoOverrun(l); }
    }
  }

  lemma NoOverrun(l: Limits)
    ensures !OverrunIn(l, [])
  {
  }

  lemma StepAfterClose(l: Limits, s: Life, e: Event)
    requires History(l, s) && s.reader.closed
    ensures var s' := Step(l, s, e);
      && s'.reader.closed
      && s'.accepted == s.accepted
      && (s.reader.failed ==> s'.reader.failed && s'.reader.reason == s.reader.reason)
      && (!s.reader.failed ==> (s'.reader.failed <==> GoesOver(l, e)))
      && (!s.reader.failed && s'.reader.failed ==> s'.reader.reason == ReadAllLimitExceeded)
  {
  }

  /** A chunk that is not accepted leaves both the queue and the counters as they were. */
  lemma RefusalAddsNothing(l: Limits, b: Budget, r: Reader, index: nat, data: Bytes, stored: bool)
    requires Coherent(l, r) && !Accepts(l, b, r, index, data, stored)
    ensures var (b', r') := Arrive(l, b, r, index, data, stored);
      && r'.closed
      && r'.queue == r.queue && r'.buffered == r.buffered && r'.received == r.received
      && r'.nextIndex == r.nextIndex && b'.buffered == b.buffered
  {
  }

  // ------------------------------------------------------------------------
  // ReadAll, up to its end or to where it waits for the next chunk. Its
  // interleavings with arrivals are the steps of module SharedBudget.
  // ------------------------------------------------------------------------

  datatype ReadAllResult =
    | Complete(data: Bytes)
    | TooLong
    | OutOfMemory
    | StreamFailed(reason: Reason)
    | Waits(gathered: Bytes)        // nothing is queued and the stream is still open

  predicate OverReadLimit(l: Limits, got: nat, chunk: nat)
  {
    chunk > l.maxReadAll - Min(got, l.maxReadAll)
  }

  /** stored(n) says whether appending succeeds once n octets have been gathered. */
  ghost function ReadAllFrom(l: Limits, b: Budget, r: Reader, got: Bytes, stored: nat -> bool)
    : (Budget, Reader, ReadAllResult)
    requires Coherent(l, r)
    decreases |r.queue|
  {
    if r.queue == [] then
      if !r.closed then (b, r, Waits(got))
      else (Release(b, |got|), r, if r.failed then StreamFailed(r.reason) else Complete(got))
    else
      DequeueIsSafe(l, r);
      var chunk, rest := r.queue[0], Dequeue(r);
      if OverReadLimit(l, |got|, |chunk|) then
        var (b', r') := MarkReadAllLimit(b, rest);
        (Release(b', |got| + |chunk|), r', TooLong)
      else if !stored(|got|) then
        var (b', r') := Fail(b, rest, AllocationFailed);
        (Release(b', |got| + |chunk|), r', OutOfMemory)
      else ReadAllFrom(l, b, rest, got + chunk, stored)
  }

  /** What ReadAll does with the first chunk. */
  lemma ReadAllHead(l: Limits, b: Budget, r: Reader, got: Bytes, stored: nat -> bool)
    requires Coherent(l, r) && r.queue != []
    ensures r.buffered >= |r.queue[0]| && r.queuedChunks > 0 && Coherent(l, Dequeue(r))
    ensures var chunk, rest := r.queue[0], Dequeue(r);
      ReadAllFrom(l, b, r, got, stored) ==
        if OverReadLimit(l, |got|, |chunk|) then
          (Release(MarkReadAllLimit(b, rest).0, |got| + |chunk|), MarkReadAllLimit(b, rest).1, TooLong)
        else if !stored(|got|) then
          (Release(Fail(b, rest, AllocationFailed).0, |got| + |chunk|), Fail(b, rest, AllocationFailed).1, OutOfMemory)
        else ReadAllFrom(l, b, rest, got + chunk, stored)
  {
    DequeueIsSafe(l, r);
    hide Coherent, Release, MarkReadAllLimit, Fail;
  }

  lemma ReadAllEnds(l: Limits, b: Budget, r: Reader, got: Bytes, stored: nat -> bool)
    requires Coherent(l, r) && r.queue == []
    ensures ReadAllFrom(l, b, r, got, stored)
         == if !r.closed then (b, r, Waits(got))
            else (Release(b, |got|), r, if r.failed then StreamFailed(r.reason) else Complete(got))
  {
  }

  /**
   With memory available, ReadAll that holds got returns the whole text exactly
   when the stream has ended without failing and the text is within the limit, and
   gives its bytes back to the budget; on a stream still open it waits with all of
   it, and keeps the bytes; over the limit it fails the stream.
   */
  lemma {:induction false} ReadAllExact(l: Limits, b: Budget, r: Reader, got: Bytes, stored: nat -> bool)
    requires Coherent(l, r) && |got| <= l.maxReadAll
    requires forall n :: stored(n)
    requires b.buffered >= |got| + r.buffered
    ensures var (b', r', out) := ReadAllFrom(l, b, r, got, stored);
      var whole := got + Concat(r.queue);
      && (out.Complete? <==> |whole| <= l.maxReadAll && r.closed && !r.failed)
      && (out.Complete? ==> out.data == whole)
      && (out.Waits? <==> |whole| <= l.maxReadAll && !r.closed)
      && (out.Waits? ==> out.gathered == whole && b' == b)
      && (out.TooLong? <==> |whole| > l.maxReadAll)
      && (out.TooLong? ==> r'.failed)
      && (!out.TooLong? ==> r'.queue == [])
      && (!out.Waits? ==> b.buffered - b'.buffered == |got| + r.buffered - r'.buffered)
    decreases |r.queue|
  {
    if r.queue != [] {
      DequeueIsSafe(l, r);
      var chunk, rest := r.queue[0], Dequeue(r);
      if !OverReadLimit(l, |got|, |chunk|) {
        ReadAllExact(l, b, rest, got + chunk, stored);
        assert got + Concat(r.queue) == got + chunk + Concat(rest.queue);
      }
    }
  }

  lemma FailedStays(l: Limits, b: Budget, r: Reader, reason: Reason)
    requires Coherent(l, r)
    ensures Coherent(l, Fail(b, r, reason).1)
  {
  }

  /** A reader that has not failed is failed by ReadAll exactly when what is queued does not fit the limit. */
  lemma {:induction false} ReadAllFailsExactly(l: Limits, b: Budget, r: Reader, got: Bytes, stored: nat -> bool)
    requires Coherent(l, r) && !r.failed && |got| <= l.maxReadAll
    requires forall n :: stored(n)
    ensures ReadAllFrom(l, b, r, got, stored).1.failed <==> |got + Concat(r.queue)| > l.maxReadAll
    decreases |r.queue|
  {
    if r.queue == [] {
      ReadAllEnds(l, b, r, got, stored);
    } else {
      ReadAllHead(l, b, r, got, stored);
      var chunk, rest := r.queue[0], Dequeue(r);
      if !OverReadLimit(l, |got|, |chunk|) {
        ReadAllFailsExactly(l, b, rest, got + chunk, stored);
        assert got + Concat(r.queue) == got + chunk + Concat(rest.queue);
      }
      hide ReadAllFrom;
    }
  }

  // ------------------------------------------------------------------------
  // The objects.
  // ------------------------------------------------------------------------

  class DataStreamReaderBudget {
    const limits: Limits
    var activeReaders: nat
    var bufferedBytes: nat

    function View(): Budget
      reads this
    {
      Budget(activeReaders, bufferedBytes)
    }

    constructor (limits: Limits)
      ensures this.limits == limits && View() == Budget(0, 0)
    {
      this.limits := limits;
      activeReaders, bufferedBytes := 0, 0;
    }

    method TryAcquireReader() returns (ok: bool)
      modifies this
      ensures ok == (old(activeReaders) < limits.maxActiveReaders)
      ensures View() == if ok then old(View()).(active := old(activeReaders) + 1) else old(View())
    {
      if activeReaders >= limits.maxActiveReaders {
        return false;
      }
      activeReaders := activeReaders + 1;
      return true;
    }

    method ReleaseReaderSlot()
      modifies this
      ensures View() == ReleaseReader(old(View()))
    {
      if activeReaders > 0 {
        activeReaders := activeReaders - 1;
      }
    }

    method TryReserveBuffered(bytes: nat) returns (ok: bool)
      modifies this
      ensures ok == HasRoom(limits, old(View()), bytes)
      ensures View() == if ok then Reserve(old(View()), bytes) else old(View())
    {
      if bytes > limits.maxBuffered - Min(bufferedBytes, limits.maxBuffered) {
        return false;
      }
      bufferedBytes := bufferedBytes + bytes;
      return true;
    }

    method ReleaseBuffered(bytes: nat)
      modifies this
      ensures View() == Release(old(View()), bytes)
    {
      bufferedBytes := if bytes <= bufferedBytes then bufferedBytes - bytes else 0;
    }
  }

  datatype ReadResult = WouldBlock | EndOfStream | Got(chunk: Bytes)

  class StreamReader {
    const budget: DataStreamReaderBudget
    const isText: bool
    const declared: Option<nat>
    var queue: seq<Bytes>
    var bufferedBytes: nat
    var receivedBytes: nat
    var queuedChunks: nat
    var nextChunkIndex: nat
    var admitted: bool
    var activeRegistered: bool
    var closed: bool
    var failed: bool
    var closeReason: Reason

    function View(): Reader
      reads this
    {
      Reader(isText, declared, queue, bufferedBytes, receivedBytes, queuedChunks, nextChunkIndex,
             admitted, activeRegistered, closed, failed, closeReason)
    }

    ghost predicate Valid()
      reads this
    {
      Coherent(budget.limits, View())
    }

    constructor (isText: bool, declared: Option<nat>, budget: DataStreamReaderBudget)
      modifies budget
      ensures Valid() && this.budget == budget && this.isText == isText && this.declared == declared
      ensures (budget.View(), View()) == Create(budget.limits, old(budget.View()), isText, declared)
    {
      this.isText, this.declared, this.budget := isText, declared, budget;
      queue, bufferedBytes, receivedBytes, queuedChunks, nextChunkIndex := [], 0, 0, 0, 0;
      closed, failed, closeReason := false, false, NoReason;
      new;
      admitted := budget.TryAcquireReader();
      activeRegistered := admitted;
      if !admitted {
        closed, failed, closeReason := true, true, ActiveReaderLimitExceeded;
      }
    }

    method ReleaseActiveLocked()
      modifies this, budget
      ensures (budget.View(), View()) == ReleaseActive(old(budget.View()), old(View()))
    {
      if !activeRegistered {
        return;
      }
      activeRegistered := false;
      budget.ReleaseReaderSlot();
    }

    method FailLocked(reason: Reason)
      modifies this, budget
      ensures (budget.View(), View()) == Fail(old(budget.View()), old(View()), reason)
    {
      if closed {
        return;
      }
      closed, failed, closeReason := true, true, reason;
      ReleaseActiveLocked();
    }

    method ReadNext() returns (out: ReadResult)
      requires Valid()
      modifies this, budget
      ensures Valid()
      ensures if old(queue) == [] then
          View() == old(View()) && budget.View() == old(budget.View())
          && out == if closed then EndOfStream else WouldBlock
        else
          && out == Got(old(queue)[0])
          && old(bufferedBytes) >= |old(queue)[0]| && old(queuedChunks) > 0
          && View() == Dequeue(old(View()))
          && budget.View() == Release(old(budget.View()), |old(queue)[0]|)
    {
      if queue == [] {
        return if closed then EndOfStream else WouldBlock;
      }
      DequeueIsSafe(budget.limits, View());
      var chunk := queue[0];
      queue := queue[1..];
      bufferedBytes := bufferedBytes - |chunk|;
      queuedChunks := queuedChunks - 1;
      budget.ReleaseBuffered(|chunk|);
      return Got(chunk);
    }

    /** Admission of one chunk; storing the copy may fail for lack of memory. */
    method TryOnChunkUpdate(index: nat, data: Bytes, stored: bool) returns (ok: bool)
      requires Valid()
      modifies this, budget
      ensures Valid()
      ensures ok == Accepts(budget.limits, old(budget.View()), old(View()), index, data, stored)
      ensures (budget.View(), View()) == Arrive(budget.limits, old(budget.View()), old(View()), index, data, stored)
    {
      ArriveKeeps(budget.limits, budget.View(), View(), index, data, stored);
      hide Coherent, Concat, Utf8.WellFormed;
      if closed {
        return false;
      }
      if index != nextChunkIndex {
        FailLocked(ChunkSequenceMismatch);
        return false;
      }
      if isText {
        var wellFormed := Utf8.IsValidUtf8(data);
        if !wellFormed {
          FailLocked(InvalidUtf8);
          return false;
        }
      }
      if data == [] {
        nextChunkIndex := nextChunkIndex + 1;
        return true;
      }
      ok := AdmitBytes(data, stored);
    }

    /** The length, queue and budget checks for a chunk that carries data. */
    method AdmitBytes(data: Bytes, stored: bool) returns (ok: bool)
      requires !closed && data != [] && (isText ==> Utf8.WellFormed(data))
      modifies this, budget
      ensures ok == Accepts(budget.limits, old(budget.View()), old(View()), old(nextChunkIndex), data, stored)
      ensures (budget.View(), View())
           == Arrive(budget.limits, old(budget.View()), old(View()), old(nextChunkIndex), data, stored)
    {
      var limits := budget.limits;
      if |data| > SIZE_MAX - receivedBytes
        || (declared.Some? && (receivedBytes > declared.value || |data| > declared.value - receivedBytes)) {
        FailLocked(DeclaredLengthExceeded);
        return false;
      }
      if queuedChunks >= limits.maxQueuedChunks {
        FailLocked(ChunkLimitExceeded);
        return false;
      }
      if |data| > limits.maxBufferedPerReader - Min(bufferedBytes, limits.maxBufferedPerReader) {
        FailLocked(BufferLimitExceeded);
        return false;
      }
      var reserved := budget.TryReserveBuffered(|data|);
      if !reserved {
        FailLocked(BufferLimitExceeded);
        return false;
      }
      if !stored {
        budget.ReleaseBuffered(|data|);
        FailLocked(AllocationFailed);
        return false;
      }
      queue := queue + [data];
      bufferedBytes := bufferedBytes + |data|;
      receivedBytes := receivedBytes + |data|;
      queuedChunks := queuedChunks + 1;
      nextChunkIndex := nextChunkIndex + 1;
      return true;
    }

    method OnStreamClose(reason: string)
      requires Valid()
      modifies this, budget
      ensures Valid()
      ensures (budget.View(), View()) == CloseStream(old(budget.View()), old(View()), reason)
    {
      if closed {
        return;
      }
      if declared.Some? && receivedBytes != declared.value {
        FailLocked(LengthMismatch);
        return;
      }
      if reason != "" {
        FailLocked(Given(reason));
        return;
      }
      closed, closeReason := true, NoReason;
      ReleaseActiveLocked();
    }

    method OnStreamError(reason: string)
      requires Valid()
      modifies this, budget
      ensures Valid()
      ensures (budget.View(), View()) == Fail(old(budget.View()), old(View()), Given(reason))
    {
      FailLocked(Given(reason));
    }

    method MarkReadAllLimitExceeded()
      requires Valid()
      modifies this, budget
      ensures Valid()
      ensures (budget.View(), View()) == MarkReadAllLimit(old(budget.View()), old(View()))
    {
      if failed {
        return;
      }
      closed, failed, closeReason := true, true, ReadAllLimitExceeded;
      ReleaseActiveLocked();
    }

    /** The chunk leaves the queue, but its bytes stay reserved. */
    method TakeChunk() returns (chunk: Bytes)
      requires Valid() && queue != []
      modifies this`queue, this`bufferedBytes, this`queuedChunks
      ensures old(bufferedBytes) >= |old(queue)[0]| && old(queuedChunks) > 0
      ensures Valid() && View() == Dequeue(old(View())) && chunk == old(queue)[0]
    {
      DequeueIsSafe(budget.limits, View());
      hide Coherent;
      chunk := queue[0];
      queue, bufferedBytes, queuedChunks := queue[1..], bufferedBytes - |chunk|, queuedChunks - 1;
    }

    /** A call that waits goes on with what it has gathered. */
    method ReadAll(gathered: Bytes, stored: nat -> bool) returns (out: ReadAllResult)
      requires Valid()
      modifies this, budget
      ensures Valid()
      ensures (budget.View(), View(), out)
           == ReadAllFrom(budget.limits, old(budget.View()), old(View()), gathered, stored)
    {
      hide Coherent, Concat, ReadAllFrom, Release, MarkReadAllLimit, Fail;
      var result := gathered;
      var accounted := |gathered|;
      while queue != []
        invariant Valid() && accounted == |result|
        invariant ReadAllFrom(budget.limits, old(budget.View()), old(View()), gathered, stored)
               == ReadAllFrom(budget.limits, budget.View(), View(), result, stored)
        decreases |queue|
      {
        ReadAllHead(budget.limits, budget.View(), View(), result, stored);
        var chunk := TakeChunk();
        if |chunk| > budget.limits.maxReadAll - Min(|result|, budget.limits.maxReadAll) {
          MarkReadAllLimitExceeded();
          budget.ReleaseBuffered(accounted + |chunk|);
          return TooLong;
        }
        if !stored(|result|) {
          FailedStays(budget.limits, budget.View(), View(), AllocationFailed);
          FailLocked(AllocationFailed);
          budget.ReleaseBuffered(accounted + |chunk|);
          return OutOfMemory;
        }
        result := result + chunk;
        accounted := accounted + |chunk|;
      }
      ReadAllEnds(budget.limits, budget.View(), View(), result, stored);
      if !closed {
        return Waits(result);
      }
      budget.ReleaseBuffered(accounted);
      return if failed then StreamFailed(closeReason) else Complete(result);
    }

    /** Destruction closes the reader and returns everything it still holds. */
    method Finalize()
      modifies this, budget
      ensures budget.View() == Destroy(old(budget.View()), old(View()))
      ensures closed && !activeRegistered && queue == [] && bufferedBytes == 0
    {
      closed := true;
      ReleaseActiveLocked();
      budget.ReleaseBuffered(bufferedBytes);
      bufferedBytes, queuedChunks, queue := 0, 0, [];
    }
  }
}
