/**
 When a reader accepts, refuses or ends, and what each leaves behind, told of the
 reader and the budget before and after (src/core/data_stream.cpp:120-189, 294-394).
 */
module ReaderVerdicts {
  import opened Common
  import opened StreamReaders
  import Utf8

  /** The reader has ended for this reason, keeps what is queued, and holds no slot. */
  predicate EndedFor(b: Budget, r: Reader, b': Budget, r': Reader, reason: Reason)
  {
    && r' == r.(closed := true, failed := true, reason := reason, registered := false)
    && SlotReturned(b, r, b')
  }

  predicate SlotReturned(b: Budget, r: Reader, b': Budget)
  {
    && b'.buffered == b.buffered
    && b'.active == if r.registered && b.active > 0 then b.active - 1 else b.active
  }

  /** More than was declared, or than can be counted. */
  predicate BeyondDeclared(r: Reader, data: Bytes)
  {
    r.received + |data| > SIZE_MAX || (r.declared.Some? && r.received + |data| > r.declared.value)
  }

  /** More than one reader, or than all of them, may hold. */
  predicate BeyondBuffers(l: Limits, b: Budget, r: Reader, data: Bytes)
  {
    r.buffered + |data| > l.maxBufferedPerReader || b.buffered + |data| > l.maxBuffered
  }

  /** The first thing that is wrong with a chunk for an open reader. */
  ghost function Fault(l: Limits, b: Budget, r: Reader, index: nat, data: Bytes, stored: bool): Option<Reason>
  {
    if index != r.nextIndex then Some(ChunkSequenceMismatch)
    else if r.isText && !Utf8.WellFormed(data) then Some(InvalidUtf8)
    else if |data| == 0 then None
    else if BeyondDeclared(r, data) then Some(DeclaredLengthExceeded)
    else if |r.queue| + 1 > l.maxQueuedChunks then Some(ChunkLimitExceeded)
    else if BeyondBuffers(l, b, r, data) then Some(BufferLimitExceeded)
    else if !stored then Some(AllocationFailed)
    else None
  }

  /**
   A chunk: nothing happens to a closed reader; a fault ends an open one for that
   reason; an empty chunk only counts; any other is queued last and reserved.
   */
  lemma ArriveExactly(l: Limits, b: Budget, r: Reader, index: nat, data: Bytes, stored: bool)
    requires Coherent(l, r) && b.buffered <= l.maxBuffered
    ensures var (b', r') := Arrive(l, b, r, index, data, stored);
      var fault := Fault(l, b, r, index, data, stored);
      && (Accepts(l, b, r, index, data, stored) <==> !r.closed && fault.None?)
      && (r.closed ==> b' == b && r' == r)
      && (!r.closed && fault.Some? ==> EndedFor(b, r, b', r', fault.value))
      && (!r.closed && fault.None? && |data| == 0 ==> b' == b && r' == r.(nextIndex := r.nextIndex + 1))
      && (!r.closed && fault.None? && |data| > 0 ==>
            && b' == b.(buffered := b.buffered + |data|)
            && r' == r.(queue := r.queue + [data], buffered := r.buffered + |data|, received := r.received + |data|,
                        queuedChunks := r.queuedChunks + 1, nextIndex := r.nextIndex + 1))
  {
    hide Utf8.WellFormed;
  }

  /** A new reader has a slot exactly while fewer than the allowed ones are taken; without one it is born failed. */
  lemma CreateExactly(l: Limits, b: Budget, isText: bool, declared: Option<nat>)
    ensures var (b', r) := Create(l, b, isText, declared);
      var admitted := b.active < l.maxActiveReaders;
      && b'.buffered == b.buffered && b'.active == b.active + (if admitted then 1 else 0)
      && r == Reader(isText, declared, [], 0, 0, 0, 0, admitted, admitted, !admitted, !admitted,
                     if admitted then NoReason else ActiveReaderLimitExceeded)
  {
  }

  /** The trailer closes an open reader cleanly exactly when the declared length was met and no reason is given. */
  lemma CloseExactly(b: Budget, r: Reader, text: string)
    ensures var (b', r') := CloseStream(b, r, text);
      if r.closed then b' == b && r' == r
      else if r.declared.Some? && r.received != r.declared.value then EndedFor(b, r, b', r', LengthMismatch)
      else if |text| > 0 then EndedFor(b, r, b', r', Given(text))
      else r' == r.(closed := true, reason := NoReason, registered := false) && SlotReturned(b, r, b')
  {
  }

  /** An error ends an open reader for its reason; the ReadAll limit ends any that has not failed. */
  lemma FailuresExactly(b: Budget, r: Reader, reason: Reason)
    ensures var (b', r') := Fail(b, r, reason);
      if r.closed then b' == b && r' == r else EndedFor(b, r, b', r', reason)
    ensures var (b', r') := MarkReadAllLimit(b, r);
      if r.failed then b' == b && r' == r else EndedFor(b, r, b', r', ReadAllLimitExceeded)
  {
  }

  /** Reading takes the oldest chunk; destruction gives back the slot and everything queued. */
  lemma LeavingExactly(l: Limits, b: Budget, r: Reader)
    requires Coherent(l, r)
    ensures r.queue != [] ==>
      r.buffered >= |r.queue[0]| && r.queuedChunks > 0
      && Dequeue(r) == r.(queue := r.queue[1..], buffered := r.buffered - |r.queue[0]|, queuedChunks := r.queuedChunks - 1)
    ensures b.buffered >= r.buffered ==>
      Destroy(b, r).buffered == b.buffered - |Concat(r.queue)|
      && Destroy(b, r).active == if r.registered && b.active > 0 then b.active - 1 else b.active
  {
    if r.queue != [] {
      DequeueIsSafe(l, r);
    }
  }
}
