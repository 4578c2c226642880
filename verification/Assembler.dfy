/**
 The receiver that reassembles chunks arriving in any order
 (src/core/data_stream_assembler.cpp). Times are integers; 0 is the time point
 the cleanup deadline starts from.
 */
module Assembler {
  import opened Common

  datatype Limits = Limits(
    maxStreams: nat,
    maxStreamSize: nat,
    maxBuffered: nat,
    maxChunks: nat,
    streamTtl: int,
    cleanupInterval: int)

  const SIZE_MAX: nat := 0xFFFF_FFFF_FFFF_FFFF

  datatype About = About(topic: string, senderIdentity: string, senderSid: string)

  datatype Stream = Stream(about: About, total: nat, lastActivity: int, chunks: map<nat, Bytes>, received: nat)

  datatype Assembled = Assembled(payload: Bytes, about: About)

  datatype State = State(streams: map<string, Stream>, buffered: nat, nextCleanup: int)

  // ------------------------------------------------------------------------
  // Transitions.
  // ------------------------------------------------------------------------

  predicate Expired(l: Limits, st: Stream, now: int) { now - st.lastActivity >= l.streamTtl }

  ghost function Live(l: Limits, s: State, now: int): set<string>
  {
    set id | id in s.streams && !Expired(l, s.streams[id], now)
  }

  /** The octets stored in all the streams. */
  ghost function Stored(streams: map<string, Stream>): nat
  {
    Total(map id | id in streams :: streams[id].received)
  }

  ghost function Purged(l: Limits, s: State, now: int): State
  {
    var streams := map id | id in Live(l, s, now) :: s.streams[id];
    State(streams, Stored(streams), now + l.cleanupInterval)
  }

  ghost function Cleaned(l: Limits, s: State, now: int): State
  {
    if s.nextCleanup == 0 || now >= s.nextCleanup then Purged(l, s, now) else s
  }

  function Erase(s: State, id: string): State
    requires id in s.streams && s.streams[id].received <= s.buffered
  {
    s.(streams := s.streams - {id}, buffered := s.buffered - s.streams[id].received)
  }

  ghost predicate Contiguous(chunks: map<nat, Bytes>)
  {
    forall i :: i in chunks <==> 0 <= i < |chunks|
  }

  /** All declared octets are there and the indices are 0, 1, 2, ... without a gap. */
  ghost predicate IsComplete(st: Stream)
  {
    st.received == st.total && st.chunks != map[] && Contiguous(st.chunks)
  }

  /** The chunks 0 .. n-1 one after the other. */
  function Joined(chunks: map<nat, Bytes>, n: nat): Bytes
    requires forall i :: 0 <= i < n ==> i in chunks
  {
    if n == 0 then [] else Joined(chunks, n - 1) + chunks[n - 1]
  }

  datatype Event =
    | Begin(id: string, about: About, total: nat, now: int)
    | AddChunk(id: string, index: nat, content: Bytes, now: int)
    | Finish(id: string, now: int)
    | Purge(now: int)
    | Discard(id: string)

  /** The caps a chunk must respect; over any of them the whole stream is dropped. */
  predicate WithinCaps(l: Limits, s: State, st: Stream, content: Bytes)
  {
    && |st.chunks| < l.maxChunks
    && |content| <= st.total - st.received
    && |content| <= l.maxBuffered - s.buffered
  }

  function Extended(st: Stream, index: nat, content: Bytes, now: int): Stream
  {
    st.(chunks := st.chunks[index := content], received := st.received + |content|, lastActivity := now)
  }

  ghost function Begun(l: Limits, s: State, e: Event): (State, bool)
    requires e.Begin? && Accounted(l, s)
  {
    if e.id == "" || e.total == 0 || e.total > l.maxStreamSize || e.total > SIZE_MAX then (s, false)
    else
      var cleaned := Cleaned(l, s, e.now);
      CleanKeeps(l, s, e.now);
      OneShare(cleaned.streams, e.id);
      var room := if e.id in cleaned.streams then Erase(cleaned, e.id) else cleaned;
      if |room.streams| >= l.maxStreams then (room, false)
      else (room.(streams := room.streams[e.id := Stream(e.about, e.total, e.now, map[], 0)]), true)
  }

  /** A chunk that passed every check is stored; the stream is delivered when that completes it. */
  ghost function StoredIn(s: State, e: Event): (State, Option<Assembled>)
    requires e.AddChunk? && e.id in s.streams && s.streams[e.id].received <= s.buffered
  {
    var st := Extended(s.streams[e.id], e.index, e.content, e.now);
    var s' := s.(streams := s.streams[e.id := st], buffered := s.buffered + |e.content|);
    if !IsComplete(st) then (s', None)
    else (Erase(s', e.id), Some(Assembled(Joined(st.chunks, |st.chunks|), st.about)))
  }

  /** What adding does once expired streams were cleaned up. */
  ghost function AddedTo(l: Limits, s: State, e: Event): (State, Option<Assembled>)
    requires e.AddChunk? && Accounted(l, s)
  {
    if e.id !in s.streams then (s, None)
    else
      var st := s.streams[e.id];
      OneShare(s.streams, e.id);
      if Expired(l, st, e.now) then (Erase(s, e.id), None)
      else if e.index in st.chunks then (s, None)
      else if !WithinCaps(l, s, st, e.content) then (Erase(s, e.id), None)
      else StoredIn(s, e)
  }

  ghost function Added(l: Limits, s: State, e: Event): (State, Option<Assembled>)
    requires e.AddChunk? && Accounted(l, s)
  {
    CleanKeeps(l, s, e.now);
    AddedTo(l, Cleaned(l, s, e.now), e)
  }

  ghost function FinishedOn(s: State, id: string): (State, Option<Assembled>)
    requires id in s.streams ==> s.streams[id].received <= s.buffered
  {
    if id !in s.streams then (s, None)
    else
      var st := s.streams[id];
      (Erase(s, id), if IsComplete(st) then Some(Assembled(Joined(st.chunks, |st.chunks|), st.about)) else None)
  }

  ghost function Finished(l: Limits, s: State, id: string, now: int): (State, Option<Assembled>)
    requires Accounted(l, s)
  {
    CleanKeeps(l, s, now);
    OneShare(Cleaned(l, s, now).streams, id);
    FinishedOn(Cleaned(l, s, now), id)
  }

  ghost function Step(l: Limits, s: State, e: Event): (State, Option<Assembled>)
    requires Accounted(l, s)
  {
    match e
    case Begin(_, _, _, _) => (Begun(l, s, e).0, None)
    case AddChunk(_, _, _, _) => Added(l, s, e)
    case Finish(id, now) => Finished(l, s, id, now)
    case Purge(now) => (Purged(l, s, now), None)
    case Discard(id) =>
      OneShare(s.streams, id);
      (if id in s.streams then Erase(s, id) else s, None)
  }

  // ------------------------------------------------------------------------
  // Accounting.
  // ------------------------------------------------------------------------

  ghost function Sizes(chunks: map<nat, Bytes>): map<nat, nat> { map i | i in chunks :: |chunks[i]| }

  /** A stored stream counts its octets, respects its caps and is never complete. */
  ghost predicate StreamOk(l: Limits, st: Stream)
  {
    && st.received == Total(Sizes(st.chunks))
    && st.received <= st.total
    && 0 < st.total <= l.maxStreamSize
    && |st.chunks| <= l.maxChunks
    && !IsComplete(st)
  }

  ghost predicate Accounted(l: Limits, s: State)
  {
    && s.buffered == Stored(s.streams)
    && s.buffered <= l.maxBuffered
    && |s.streams| <= l.maxStreams
    && forall id :: id in s.streams ==> StreamOk(l, s.streams[id])
  }

  ghost function Weights(streams: map<string, Stream>): map<string, nat>
  {
    map id | id in streams :: streams[id].received
  }

  /** Removing one stream never takes away more than is counted. */
  lemma OneShare(streams: map<string, Stream>, id: string)
    ensures id in streams ==> streams[id].received + Stored(streams - {id}) == Stored(streams)
  {
    if id in streams {
      TotalRemove(Weights(streams), id);
      assert Weights(streams) - {id} == Weights(streams - {id});
    }
  }

  lemma StoredUpdate(streams: map<string, Stream>, id: string, st: Stream)
    ensures Stored(streams[id := st]) == Stored(streams) - (if id in streams then streams[id].received else 0) + st.received
  {
    assert Weights(streams[id := st]) == Weights(streams)[id := st.received];
    TotalUpdate(Weights(streams), id, st.received);
  }

  lemma StoredSubset(part: map<string, Stream>, whole: map<string, Stream>)
    requires forall id :: id in part ==> id in whole && part[id] == whole[id]
    ensures Stored(part) <= Stored(whole)
    ensures |part| <= |whole|
  {
    TotalSubset(Weights(part), Weights(whole));
    SubsetSize(part.Keys, whole.Keys);
  }

  lemma PurgeKeeps(l: Limits, s: State, now: int)
    requires Accounted(l, s)
    ensures Accounted(l, Purged(l, s, now))
    ensures Purged(l, s, now).buffered <= s.buffered
  {
    StoredSubset(Purged(l, s, now).streams, s.streams);
  }

  lemma CleanKeeps(l: Limits, s: State, now: int)
    requires Accounted(l, s)
    ensures Accounted(l, Cleaned(l, s, now))
    ensures Cleaned(l, s, now).buffered <= s.buffered
  {
    PurgeKeeps(l, s, now);
  }

  lemma EraseKeeps(l: Limits, s: State, id: string)
    requires s.buffered == Stored(s.streams) <= l.maxBuffered && |s.streams| <= l.maxStreams && id in s.streams
    requires forall k :: k in s.streams && k != id ==> StreamOk(l, s.streams[k])
    ensures s.streams[id].received <= s.buffered
    ensures Accounted(l, Erase(s, id))
  {
    OneShare(s.streams, id);
    StoredSubset(s.streams - {id}, s.streams);
  }

  lemma BeginKeeps(l: Limits, s: State, e: Event)
    requires Accounted(l, s) && e.Begin?
    ensures Accounted(l, Begun(l, s, e).0)
  {
    hide Cleaned, StreamOk;
    CleanKeeps(l, s, e.now);
    var cleaned := Cleaned(l, s, e.now);
    if e.id in cleaned.streams {
      EraseKeeps(l, cleaned, e.id);
    }
    var room := if e.id in cleaned.streams then Erase(cleaned, e.id) else cleaned;
    var st := Stream(e.about, e.total, e.now, map[], 0);
    StoredUpdate(room.streams, e.id, st);
    if 0 < e.total <= l.maxStreamSize {
      NewbornOk(l, st);
    }
  }

  lemma NewbornOk(l: Limits, st: Stream)
    requires 0 < st.total <= l.maxStreamSize && st.chunks == map[] && st.received == 0
    ensures StreamOk(l, st)
  {
    assert Sizes(st.chunks) == map[];
  }

  lemma ExtendOk(l: Limits, st: Stream, index: nat, content: Bytes, now: int)
    requires StreamOk(l, st) && index !in st.chunks
    requires |st.chunks| < l.maxChunks && |content| <= st.total - st.received
    ensures var st' := Extended(st, index, content, now);
      && st'.received == Total(Sizes(st'.chunks))
      && st'.received <= st'.total
      && |st'.chunks| == |st.chunks| + 1
      && (!IsComplete(st') ==> StreamOk(l, st'))
  {
    var st' := Extended(st, index, content, now);
    assert Sizes(st'.chunks) == Sizes(st.chunks)[index := |content|];
    TotalUpdate(Sizes(st.chunks), index, |content|);
    assert st'.chunks.Keys == st.chunks.Keys + {index};
  }

  /** Storing a chunk that is within the caps keeps the books, complete or not. */
  lemma StoreKeeps(l: Limits, s: State, e: Event)
    requires Accounted(l, s) && e.AddChunk? && e.id in s.streams
    requires e.index !in s.streams[e.id].chunks && WithinCaps(l, s, s.streams[e.id], e.content)
    ensures var st' := Extended(s.streams[e.id], e.index, e.content, e.now);
      var s' := s.(streams := s.streams[e.id := st'], buffered := s.buffered + |e.content|);
      && (!IsComplete(st') ==> Accounted(l, s'))
      && st'.received <= s'.buffered
      && Accounted(l, Erase(s', e.id))
      && forall i :: 0 <= i < |st'.chunks| && IsComplete(st') ==> i in st'.chunks
  {
    var st' := Extended(s.streams[e.id], e.index, e.content, e.now);
    var s' := s.(streams := s.streams[e.id := st'], buffered := s.buffered + |e.content|);
    ExtendOk(l, s.streams[e.id], e.index, e.content, e.now);
    hide StreamOk;
    StoredUpdate(s.streams, e.id, st');
    assert s'.streams.Keys == s.streams.Keys;
    assert |s'.streams| == |s.streams|;
    EraseKeeps(l, s', e.id);
  }

  lemma AddToKeeps(l: Limits, s: State, e: Event)
    requires Accounted(l, s) && e.AddChunk?
    ensures Accounted(l, AddedTo(l, s, e).0)
  {
    hide StreamOk, IsComplete, Expired, Total, WithinCaps;
    if e.id in s.streams {
      EraseKeeps(l, s, e.id);
      if e.index !in s.streams[e.id].chunks && WithinCaps(l, s, s.streams[e.id], e.content) {
        StoreKeeps(l, s, e);
      }
    }
  }

  /** Every call keeps the accounting, so no subtraction of the assembler can underflow. */
  lemma StepKeeps(l: Limits, s: State, e: Event)
    requires Accounted(l, s)
    ensures Accounted(l, Step(l, s, e).0)
  {
    hide StreamOk;
    match e
    case Begin(_, _, _, _) => BeginKeeps(l, s, e);
    case AddChunk(_, _, _, now) => CleanKeeps(l, s, now); AddToKeeps(l, Cleaned(l, s, now), e);
    case Finish(id, now) =>
      CleanKeeps(l, s, now);
      if id in Cleaned(l, s, now).streams { EraseKeeps(l, Cleaned(l, s, now), id); }
    case Purge(now) => PurgeKeeps(l, s, now);
    case Discard(id) => if id in s.streams { EraseKeeps(l, s, id); }
  }

  const EMPTY := State(map[], 0, 0)

  ghost function Next(l: Limits, s: State, e: Event): (s': State)
    requires Accounted(l, s)
    ensures Accounted(l, s')
  {
    StepKeeps(l, s, e);
    Step(l, s, e).0
  }

  ghost function Run(l: Limits, events: seq<Event>): (s: State)
    ensures Accounted(l, s)
  {
    if events == [] then EMPTY else Next(l, Run(l, events[..|events| - 1]), events[|events| - 1])
  }

  /** No stored stream is ever complete, so the trailer never delivers; it only discards. */
  lemma FinishNeverDelivers(l: Limits, events: seq<Event>, id: string, now: int)
    ensures var (s', out) := Step(l, Run(l, events), Finish(id, now));
      out.None? && id !in s'.streams
  {
    FinishNeverDeliversFrom(l, Run(l, events), id, now);
  }

  lemma FinishNeverDeliversFrom(l: Limits, s: State, id: string, now: int)
    requires Accounted(l, s)
    ensures var (s', out) := Step(l, s, Finish(id, now));
      out.None? && id !in s'.streams
  {
    CleanKeeps(l, s, now);
  }

  // ------------------------------------------------------------------------
  // Order independence.
  // ------------------------------------------------------------------------

  function Timed(e: Event): Option<int>
  {
    match e
    case Begin(_, _, _, now) => Some(now)
    case AddChunk(_, _, _, now) => Some(now)
    case Finish(_, now) => Some(now)
    case Purge(now) => Some(now)
    case Discard(_) => None
  }

  /** The call is about another stream, or brings one of the agreed chunks of this one. */
  ghost predicate Concerns(id: string, content: seq<Bytes>, e: Event)
  {
    match e
    case Begin(other, _, _, _) => other != id
    case AddChunk(other, index, data, _) => other == id ==> index < |content| && data == content[index]
    case Finish(other, _) => other != id
    case Purge(_) => true
    case Discard(other) => other != id
  }

  /** The call comes within the stream's time to live, and its chunk finds global room. */
  ghost predicate Punctual(l: Limits, s: State, id: string, e: Event)
  {
    id in s.streams ==>
      && (Timed(e).Some? ==> !Expired(l, s.streams[id], Timed(e).value))
      && (e.AddChunk? && e.id == id && e.index !in s.streams[id].chunks ==>
            |e.content| <= l.maxBuffered - Cleaned(l, s, e.now).buffered)
  }

  ghost predicate AllPunctual(l: Limits, s: State, id: string, content: seq<Bytes>, events: seq<Event>)
    requires Accounted(l, s)
    decreases |events|
  {
    events != [] ==>
      && Concerns(id, content, events[0])
      && Punctual(l, s, id, events[0])
      && AllPunctual(l, Next(l, s, events[0]), id, content, events[1..])
  }

  /** What one call delivers for one stream. */
  ghost function Delivery(l: Limits, s: State, id: string, e: Event): seq<Assembled>
    requires Accounted(l, s)
  {
    var out := Step(l, s, e).1;
    if e.AddChunk? && e.id == id && out.Some? then [out.value] else []
  }

  /** Everything the calls deliver for one stream, in order. */
  ghost function Deliveries(l: Limits, s: State, id: string, events: seq<Event>): seq<Assembled>
    requires Accounted(l, s)
    decreases |events|
  {
    if events == [] then []
    else Delivery(l, s, id, events[0]) + Deliveries(l, Next(l, s, events[0]), id, events[1..])
  }

  ghost function Indices(id: string, events: seq<Event>): set<nat>
  {
    set e | e in events && e.AddChunk? && e.id == id :: e.index
  }

  ghost function Taken(content: seq<Bytes>, seen: set<nat>): map<nat, Bytes>
    requires forall i :: i in seen ==> i < |content|
  {
    map i | i in seen :: content[i]
  }

  /** The stream holds exactly the chunks seen so far. */
  ghost predicate Gathering(s: State, id: string, about: About, content: seq<Bytes>, seen: set<nat>)
  {
    && id in s.streams
    && s.streams[id].about == about
    && s.streams[id].total == |Concat(content)|
    && (forall i :: i in seen ==> i < |content|)
    && s.streams[id].chunks == Taken(content, seen)
  }

  lemma {:induction false} JoinedIsConcat(content: seq<Bytes>, chunks: map<nat, Bytes>, n: nat)
    requires n <= |content| && forall i :: 0 <= i < n ==> i in chunks && chunks[i] == content[i]
    ensures Joined(chunks, n) == Concat(content[..n])
  {
    if n > 0 {
      JoinedIsConcat(content, chunks, n - 1);
      PrefixSnoc(content, n);
    }
  }

  lemma {:induction false} SizesOfPrefix(content: seq<Bytes>, n: nat)
    requires n <= |content|
    ensures Total(Sizes(Taken(content, Below(n)))) == |Concat(content[..n])|
  {
    if n == 0 {
      assert Sizes(Taken(content, Below(0))) == map[];
    } else {
      SizesOfPrefix(content, n - 1);
      PrefixSnoc(content, n);
      OneMoreSize(content, n);
      hide Total, Concat, Taken, Sizes;
      TotalUpdate<nat>(Sizes(Taken(content, Below(n - 1))), n - 1, |content[n - 1]|);
    }
  }

  lemma OneMoreSize(content: seq<Bytes>, n: nat)
    requires 0 < n <= |content|
    ensures var shorter := Sizes(Taken(content, Below(n - 1)));
      n - 1 !in shorter && Sizes(Taken(content, Below(n))) == shorter[n - 1 := |content[n - 1]|]
  {
  }

  lemma PrefixSnoc(content: seq<Bytes>, n: nat)
    requires 0 < n <= |content|
    ensures Concat(content[..n]) == Concat(content[..n - 1]) + content[n - 1]
  {
    assert content[..n] == content[..n - 1] + [content[n - 1]];
    ConcatSnoc(content[..n - 1], content[n - 1]);
  }

  lemma SizesBounded(content: seq<Bytes>, seen: set<nat>)
    requires forall i :: i in seen ==> i < |content|
    ensures Total(Sizes(Taken(content, seen))) <= |Concat(content)|
    ensures |seen| <= |content|
    ensures seen == Below(|content|) ==> Total(Sizes(Taken(content, seen))) == |Concat(content)|
  {
    var all := Below(|content|);
    TotalSubset(Sizes(Taken(content, seen)), Sizes(Taken(content, all)));
    SizesOfPrefix(content, |content|);
    assert content[..|content|] == content;
    BelowSize(|content|);
    SubsetSize(seen, all);
  }

  /** A complete stream spells the whole content, whatever tail of empty chunks is missing. */
  lemma CompleteSpells(l: Limits, st: Stream, content: seq<Bytes>, seen: set<nat>)
    requires forall i :: i in seen ==> i < |content|
    requires st.chunks == Taken(content, seen) && st.total == |Concat(content)|
    requires st.received == Total(Sizes(st.chunks)) && IsComplete(st)
    ensures Joined(st.chunks, |st.chunks|) == Concat(content)
  {
    hide Joined, Total, Concat, Sizes;
    var n := |st.chunks|;
    assert seen == st.chunks.Keys;
    assert seen == Below(n);
    SizesBounded(content, seen);
    hide IsComplete;
    JoinedIsConcat(content, st.chunks, n);
    SizesOfPrefix(content, n);
    hide Taken;
    FullPrefix(content, n);
  }

  /** A prefix that weighs as much as the whole is the whole, but for empty chunks. */
  lemma FullPrefix(content: seq<Bytes>, n: nat)
    requires n <= |content| && |Concat(content[..n])| == |Concat(content)|
    ensures Concat(content[..n]) == Concat(content)
  {
    ConcatAppend(content[..n], content[n..]);
    assert content[..n] + content[n..] == content;
  }

  lemma AllSeenIsComplete(st: Stream, content: seq<Bytes>)
    requires st.chunks == Taken(content, Below(|content|)) && st.total == |Concat(content)| > 0
    requires st.received == Total(Sizes(st.chunks))
    ensures IsComplete(st)
  {
    SizesBounded(content, Below(|content|));
    BelowSize(|content|);
    assert st.chunks.Keys == Below(|content|);
    assert |st.chunks| == |content|;
    assert content != [];
    assert 0 in st.chunks;
  }

  /** Calls about other streams and punctual clean-ups leave this stream alone. */
  lemma OthersLeaveAlone(l: Limits, s: State, id: string, e: Event)
    requires Accounted(l, s) && id in s.streams && Punctual(l, s, id, e)
    requires Concerns(id, [], e)
    ensures var s' := Step(l, s, e).0; id in s'.streams && s'.streams[id] == s.streams[id]
  {
    hide Accounted, Stored, IsComplete;
  }

  lemma CleaningLeavesAlone(l: Limits, s: State, id: string, now: int)
    requires id in s.streams && !Expired(l, s.streams[id], now)
    ensures id in Cleaned(l, s, now).streams && Cleaned(l, s, now).streams[id] == s.streams[id]
  {
  }

  ghost predicate NoRestart(id: string, e: Event) { e.Begin? ==> e.id != id }

  lemma GoneStaysGone(l: Limits, s: State, id: string, e: Event)
    requires Accounted(l, s) && id !in s.streams && NoRestart(id, e)
    ensures id !in Step(l, s, e).0.streams && Delivery(l, s, id, e) == []
  {
    hide Accounted, Stored, IsComplete;
  }

  lemma DeliveryEnds(l: Limits, s: State, id: string, e: Event)
    requires Accounted(l, s) && Delivery(l, s, id, e) != []
    ensures id !in Step(l, s, e).0.streams && |Delivery(l, s, id, e)| == 1
  {
    hide Accounted, Stored, IsComplete;
  }

  lemma {:induction false} NothingOnceGone(l: Limits, s: State, id: string, events: seq<Event>)
    requires Accounted(l, s) && id !in s.streams
    requires forall e :: e in events ==> NoRestart(id, e)
    ensures Deliveries(l, s, id, events) == []
    decreases |events|
  {
    hide Step, Delivery, Accounted;
    if events != [] {
      GoneStaysGone(l, s, id, events[0]);
      NothingOnceGone(l, Next(l, s, events[0]), id, events[1..]);
    }
  }

  /** Between two Begins of a stream there is at most one delivery of it, whatever else is called. */
  lemma {:induction false} AtMostOncePerBegin(l: Limits, s: State, id: string, events: seq<Event>)
    requires Accounted(l, s)
    requires forall e :: e in events ==> NoRestart(id, e)
    ensures |Deliveries(l, s, id, events)| <= 1
    decreases |events|
  {
    hide Step, Delivery, Accounted;
    if events != [] {
      if Delivery(l, s, id, events[0]) != [] {
        DeliveryEnds(l, s, id, events[0]);
        NothingOnceGone(l, Next(l, s, events[0]), id, events[1..]);
      } else {
        AtMostOncePerBegin(l, Next(l, s, events[0]), id, events[1..]);
      }
    }
  }

  lemma {:induction false} PunctualNoRestart(l: Limits, s: State, id: string, content: seq<Bytes>, events: seq<Event>)
    requires Accounted(l, s) && AllPunctual(l, s, id, content, events)
    ensures forall e :: e in events ==> NoRestart(id, e)
    decreases |events|
  {
    hide Step, Punctual, Accounted;
    if events != [] {
      PunctualNoRestart(l, Next(l, s, events[0]), id, content, events[1..]);
    }
  }

  /** One chunk of the stream: seen before, stored, or the one that completes it. */
  lemma ChunkArrives(l: Limits, s: State, id: string, about: About, content: seq<Bytes>, seen: set<nat>, e: Event)
    requires Accounted(l, s) && |content| <= l.maxChunks
    requires Gathering(s, id, about, content, seen)
    requires e.AddChunk? && e.id == id && Concerns(id, content, e) && Punctual(l, s, id, e)
    ensures var (s', out) := Step(l, s, e);
      if out.Some? then id !in s'.streams && out.value == Assembled(Concat(content), about)
      else Gathering(s', id, about, content, seen + {e.index})
  {
    hide Accounted, Stored, Total, Concat, Taken, IsComplete, Joined, Sizes;
    CleanKeeps(l, s, e.now);
    CleaningLeavesAlone(l, s, id, e.now);
    var cleaned := Cleaned(l, s, e.now);
    hide Cleaned;
    var st := cleaned.streams[id];
    if e.index in st.chunks {
      SeenAgain(content, seen, e.index);
    } else {
      FreshChunk(l, cleaned, id, content, seen, e);
    }
  }

  lemma SeenAgain(content: seq<Bytes>, seen: set<nat>, index: nat)
    requires forall i :: i in seen ==> i < |content|
    requires index in Taken(content, seen)
    ensures seen + {index} == seen && index < |content|
  {
  }

  /** A chunk not seen before is within the caps, and completes the stream only when it spells the content. */
  lemma FreshChunk(l: Limits, s: State, id: string, content: seq<Bytes>, seen: set<nat>, e: Event)
    requires Accounted(l, s) && |content| <= l.maxChunks && id in s.streams
    requires forall i :: i in seen ==> i < |content|
    requires s.streams[id].chunks == Taken(content, seen) && s.streams[id].total == |Concat(content)|
    requires e.AddChunk? && e.id == id && Concerns(id, content, e) && e.index !in s.streams[id].chunks
    requires |e.content| <= l.maxBuffered - s.buffered
    ensures WithinCaps(l, s, s.streams[id], e.content)
    ensures var st' := Extended(s.streams[id], e.index, e.content, e.now);
      && st'.chunks == Taken(content, seen + {e.index})
      && (IsComplete(st') ==> Joined(st'.chunks, |st'.chunks|) == Concat(content))
  {
    hide Stored, Total, Concat, IsComplete, Joined, Sizes;
    var st := s.streams[id];
    var st' := Extended(st, e.index, e.content, e.now);
    var seen' := seen + {e.index};
    assert st'.chunks == Taken(content, seen');
    assert seen == st.chunks.Keys;
    SizesBounded(content, seen');
    SubsetSize(seen, seen');
    ExtendSizes(st, e.index, e.content);
    hide Taken;
    ExtendOk(l, st, e.index, e.content, e.now);
    if IsComplete(st') {
      CompleteSpells(l, st', content, seen');
    }
  }

  lemma ExtendSizes(st: Stream, index: nat, content: Bytes)
    requires index !in st.chunks && st.received == Total(Sizes(st.chunks))
    ensures Total(Sizes(st.chunks[index := content])) == st.received + |content|
  {
    assert Sizes(st.chunks[index := content]) == Sizes(st.chunks)[index := |content|];
    TotalUpdate(Sizes(st.chunks), index, |content|);
  }

  /**
   From any point of the reassembly: if the chunks still to come include all
   those not yet seen, there is exactly one delivery, and it is the content in
   index order.
   */
  lemma {:induction false} DeliversOnce(l: Limits, s: State, id: string, about: About, content: seq<Bytes>,
                                        seen: set<nat>, events: seq<Event>)
    requires Accounted(l, s) && |content| <= l.maxChunks
    requires Gathering(s, id, about, content, seen)
    requires AllPunctual(l, s, id, content, events)
    requires Below(|content|) <= seen + Indices(id, events)
    ensures Deliveries(l, s, id, events) == [Assembled(Concat(content), about)]
    decreases |events|
  {
    hide Step, Punctual, Concat, Total, Joined;
    if events == [] {
      assert seen == Below(|content|);
      AllSeenIsComplete(s.streams[id], content);
      assert false;
    } else {
      var e := events[0];
      var (s', out) := (Next(l, s, e), Step(l, s, e).1);
      if e.AddChunk? && e.id == id {
        ChunkArrives(l, s, id, about, content, seen, e);
        if out.Some? {
          PunctualNoRestart(l, s', id, content, events[1..]);
          NothingOnceGone(l, s', id, events[1..]);
        } else {
          assert Indices(id, events) <= {e.index} + Indices(id, events[1..]);
          DeliversOnce(l, s', id, about, content, seen + {e.index}, events[1..]);
        }
      } else {
        OthersLeaveAlone(l, s, id, e);
        assert Indices(id, events) <= Indices(id, events[1..]);
        DeliversOnce(l, s', id, about, content, seen, events[1..]);
      }
    }
  }

  lemma BegunGathers(l: Limits, s: State, id: string, about: About, content: seq<Bytes>, start: int)
    requires Accounted(l, s)
    requires Begun(l, s, Begin(id, about, |Concat(content)|, start)).1
    ensures var begun := Next(l, s, Begin(id, about, |Concat(content)|, start));
      && Gathering(begun, id, about, content, {})
      && begun.streams[id].lastActivity == start
  {
    hide Cleaned, Concat, Accounted;
    assert Taken(content, {}) == map[];
  }

  /**
   Order independence: after a successful Begin, any sequence of calls that
   brings every chunk 0 .. n-1 at least once, in any order, with duplicates and
   calls on other streams in between, delivers exactly once, and what it
   delivers is the concatenation in index order.
   */
  lemma OrderIndependence(l: Limits, s: State, id: string, about: About, content: seq<Bytes>, start: int, events: seq<Event>)
    requires Accounted(l, s) && |content| <= l.maxChunks
    requires Begun(l, s, Begin(id, about, |Concat(content)|, start)).1
    requires var begin := Begin(id, about, |Concat(content)|, start);
      AllPunctual(l, Next(l, s, begin), id, content, events)
    requires Below(|content|) <= Indices(id, events)
    ensures var begin := Begin(id, about, |Concat(content)|, start);
      Deliveries(l, Next(l, s, begin), id, events) == [Assembled(Concat(content), about)]
  {
    BegunGathers(l, s, id, about, content, start);
    hide *;
    var begun := Next(l, s, Begin(id, about, |Concat(content)|, start));
    DeliversOnce(l, begun, id, about, content, {}, events);
  }

  // ------------------------------------------------------------------------
  // A simpler sufficient condition: everything happens in one time window, and
  // the global cap has room for what the streams declare, or for all of them at
  // full size.
  // ------------------------------------------------------------------------

  ghost predicate InWindow(l: Limits, start: int, e: Event)
  {
    Timed(e).Some? ==> start <= Timed(e).value < start + l.streamTtl
  }

  ghost function Totals(streams: map<string, Stream>): map<string, nat> { map id | id in streams :: streams[id].total }

  /** What the stored streams have declared. */
  ghost function Declared(streams: map<string, Stream>): nat { Total(Totals(streams)) }

  function Announces(e: Event): nat { if e.Begin? then e.total else 0 }

  function Announced(events: seq<Event>): nat
    decreases |events|
  {
    if events == [] then 0 else Announces(events[0]) + Announced(events[1..])
  }

  /** The global cap covers what is declared now and by the calls to come, or every stream at full size. */
  ghost predicate RoomAhead(l: Limits, s: State, events: seq<Event>)
  {
    l.maxStreams * l.maxStreamSize <= l.maxBuffered || Declared(s.streams) + Announced(events) <= l.maxBuffered
  }

  ghost predicate KeepsTotals(s: State, s': State)
  {
    forall id :: id in s'.streams ==> id in s.streams && s'.streams[id].total == s.streams[id].total
  }

  ghost predicate KeepsTotalsBut(s: State, s': State, begun: string, total: nat)
  {
    forall id :: id in s'.streams ==>
      (id == begun && s'.streams[id].total == total) || (id in s.streams && s'.streams[id].total == s.streams[id].total)
  }

  /** A step keeps the declared length of every stream, drops streams, or begins one. */
  lemma StepTotals(l: Limits, s: State, e: Event)
    requires Accounted(l, s)
    ensures var s' := Step(l, s, e).0;
      if e.Begin? then KeepsTotalsBut(s, s', e.id, e.total) else KeepsTotals(s, s')
  {
    hide Accounted, Stored, IsComplete, Joined, AddedTo, FinishedOn, Begun, Cleaned, KeepsTotals, KeepsTotalsBut;
    match e
    case Begin(_, _, _, _) => BegunTotals(l, s, e);
    case AddChunk(_, _, _, now) =>
      CleanKeeps(l, s, now);
      CleanedTotals(l, s, now);
      AddedTotals(l, Cleaned(l, s, now), e);
      TotalsChain(s, Cleaned(l, s, now), Step(l, s, e).0);
    case Finish(id, now) =>
      CleanKeeps(l, s, now);
      CleanedTotals(l, s, now);
      OneShare(Cleaned(l, s, now).streams, id);
      FinishedTotals(Cleaned(l, s, now), id);
      TotalsChain(s, Cleaned(l, s, now), Step(l, s, e).0);
    case Purge(now) => PurgedTotals(l, s, now);
    case Discard(id) => DiscardTotals(l, s, id);
  }

  lemma TotalsChain(s: State, mid: State, s': State)
    requires KeepsTotals(s, mid) && KeepsTotals(mid, s')
    ensures KeepsTotals(s, s')
  {
  }

  lemma DiscardTotals(l: Limits, s: State, id: string)
    requires Accounted(l, s)
    ensures KeepsTotals(s, Step(l, s, Discard(id)).0)
  {
    hide Accounted, Stored, IsComplete, Joined;
  }

  lemma BegunTotals(l: Limits, s: State, e: Event)
    requires Accounted(l, s) && e.Begin?
    ensures KeepsTotalsBut(s, Begun(l, s, e).0, e.id, e.total)
  {
    hide Accounted, Stored;
    CleanedTotals(l, s, e.now);
    hide Cleaned;
  }

  lemma AddedTotals(l: Limits, s: State, e: Event)
    requires Accounted(l, s) && e.AddChunk?
    ensures KeepsTotals(s, AddedTo(l, s, e).0)
  {
    hide Accounted, Stored, IsComplete, Joined, Expired, WithinCaps;
  }

  lemma FinishedTotals(s: State, id: string)
    requires id in s.streams ==> s.streams[id].received <= s.buffered
    ensures KeepsTotals(s, FinishedOn(s, id).0)
  {
    hide IsComplete, Joined;
  }

  lemma PurgedTotals(l: Limits, s: State, now: int)
    ensures KeepsTotals(s, Purged(l, s, now))
  {
    hide Stored;
  }

  lemma CleanedTotals(l: Limits, s: State, now: int)
    ensures KeepsTotals(s, Cleaned(l, s, now))
  {
    hide Stored;
  }

  lemma DeclaredStep(l: Limits, s: State, e: Event)
    requires Accounted(l, s)
    ensures Declared(Next(l, s, e).streams) <= Declared(s.streams) + Announces(e)
  {
    StepTotals(l, s, e);
    hide Step, Accounted, Total;
    var after := Totals(Next(l, s, e).streams);
    if e.Begin? {
      TotalUpdate<string>(Totals(s.streams), e.id, e.total);
      TotalSubset(after - {e.id}, Totals(s.streams)[e.id := e.total] - {e.id});
      Dropped(after, e.id);
      Dropped(Totals(s.streams)[e.id := e.total], e.id);
    } else {
      TotalSubset(after, Totals(s.streams));
    }
  }

  lemma Dropped(m: map<string, nat>, id: string)
    ensures Total(m - {id}) == Total(m) - if id in m then m[id] else 0
  {
    if id in m {
      TotalRemove(m, id);
    } else {
      assert m - {id} == m;
    }
  }

  lemma RoomGoesOn(l: Limits, s: State, events: seq<Event>)
    requires Accounted(l, s) && events != [] && RoomAhead(l, s, events)
    ensures RoomAhead(l, Next(l, s, events[0]), events[1..])
  {
    DeclaredStep(l, s, events[0]);
    hide Next, Declared, Accounted;
  }

  lemma {:induction false} TotalBelow(a: map<string, nat>, b: map<string, nat>)
    requires a.Keys == b.Keys && forall k :: k in a ==> a[k] <= b[k]
    ensures Total(a) <= Total(b)
    decreases |a|
  {
    if a.Keys != {} {
      var k :| k in a.Keys;
      TotalRemove(a, k);
      TotalRemove(b, k);
      TotalBelow(a - {k}, b - {k});
    }
  }

  /** A stream that stays within its declaration fits what all have declared. */
  lemma DeclaredRoom(l: Limits, s: State, id: string, bytes: nat)
    requires Accounted(l, s) && id in s.streams && s.streams[id].received + bytes <= s.streams[id].total
    ensures s.buffered + bytes <= Declared(s.streams)
  {
    hide Total, Sizes, IsComplete;
    WeightsBelowTotals(s.streams, id, bytes);
    var st := s.streams[id].(received := s.streams[id].received + bytes);
    StoredUpdate(s.streams, id, st);
  }

  lemma WeightsBelowTotals(streams: map<string, Stream>, id: string, bytes: nat)
    requires forall k :: k in streams ==> streams[k].received <= streams[k].total
    requires id in streams && streams[id].received + bytes <= streams[id].total
    ensures Stored(streams[id := streams[id].(received := streams[id].received + bytes)]) <= Declared(streams)
  {
    hide Total;
    var fuller := streams[id := streams[id].(received := streams[id].received + bytes)];
    assert forall k :: k in fuller ==> fuller[k].received <= fuller[k].total;
    TotalBelow(Weights(fuller), Totals(fuller));
    assert Totals(fuller) == Totals(streams);
  }

  lemma CleanedDeclares(l: Limits, s: State, now: int)
    ensures Declared(Cleaned(l, s, now).streams) <= Declared(s.streams)
  {
    hide Stored, Total;
    TotalSubset(Totals(Cleaned(l, s, now).streams), Totals(s.streams));
  }

  lemma {:induction false} StoredBound(l: Limits, streams: map<string, Stream>)
    requires forall id :: id in streams ==> streams[id].received <= l.maxStreamSize
    ensures Stored(streams) <= |streams| * l.maxStreamSize
    decreases |streams|
  {
    if |streams| > 0 {
      var id :| id in streams;
      OneShare(streams, id);
      assert (streams - {id}).Keys == streams.Keys - {id};
      assert |streams - {id}| == |streams| - 1;
      StoredBound(l, streams - {id});
      hide Stored;
      OneMore(|streams|, l.maxStreamSize);
    } else {
      assert Weights(streams) == map[];
    }
  }

  lemma FullSizeRoom(l: Limits, s: State, id: string, bytes: nat)
    requires Accounted(l, s) && id in s.streams
    requires l.maxStreams * l.maxStreamSize <= l.maxBuffered
    requires s.streams[id].received + bytes <= l.maxStreamSize
    ensures bytes <= l.maxBuffered - s.buffered
  {
    var st := s.streams[id].(received := s.streams[id].received + bytes);
    StoredUpdate(s.streams, id, st);
    var fuller := s.streams[id := st];
    assert fuller.Keys == s.streams.Keys;
    assert |fuller| == |s.streams|;
    StoredBound(l, fuller);
    Scale(|fuller|, l.maxStreams, l.maxStreamSize);
  }

  lemma RoomForOneMore(l: Limits, s: State, now: int, events: seq<Event>, id: string, bytes: nat)
    requires Accounted(l, s) && RoomAhead(l, s, events)
    requires var cleaned := Cleaned(l, s, now).streams;
      id in cleaned && cleaned[id].received + bytes <= cleaned[id].total
    ensures bytes <= l.maxBuffered - Cleaned(l, s, now).buffered
  {
    CleanKeeps(l, s, now);
    CleanedDeclares(l, s, now);
    var cleaned := Cleaned(l, s, now);
    if l.maxStreams * l.maxStreamSize <= l.maxBuffered {
      FullSizeRoom(l, cleaned, id, bytes);
    } else {
      DeclaredRoom(l, cleaned, id, bytes);
    }
    hide Declared, Cleaned, Stored;
  }

  lemma OneMore(a: nat, c: nat)
    requires a > 0
    ensures (a - 1) * c + c == a * c
  {
  }

  lemma Scale(a: nat, b: nat, c: nat)
    requires a <= b
    ensures a * c <= b * c
  {
  }

  lemma WindowIsPunctual(l: Limits, s: State, id: string, about: About, content: seq<Bytes>, seen: set<nat>,
                         start: int, e: Event, events: seq<Event>)
    requires Accounted(l, s) && RoomAhead(l, s, events)
    requires Gathering(s, id, about, content, seen) && start <= s.streams[id].lastActivity
    requires Concerns(id, content, e) && InWindow(l, start, e)
    ensures Punctual(l, s, id, e)
  {
    hide Stored, Total, Concat, RoomAhead;
    if e.AddChunk? && e.id == id && e.index !in s.streams[id].chunks {
      CleanKeeps(l, s, e.now);
      CleaningLeavesAlone(l, s, id, e.now);
      var st := s.streams[id];
      assert st.chunks[e.index := e.content] == Taken(content, seen + {e.index});
      SizesBounded(content, seen + {e.index});
      ExtendSizes(st, e.index, e.content);
      RoomForOneMore(l, s, e.now, events, id, |e.content|);
    }
  }

  lemma ActivityOnlyAdvances(l: Limits, s: State, id: string, content: seq<Bytes>, start: int, e: Event)
    requires Accounted(l, s) && id in s.streams && start <= s.streams[id].lastActivity
    requires Concerns(id, content, e) && InWindow(l, start, e)
    ensures var s' := Step(l, s, e).0; id in s'.streams ==> start <= s'.streams[id].lastActivity
  {
    hide Accounted, Stored, IsComplete;
  }

  lemma {:induction false} WindowAllPunctual(l: Limits, s: State, id: string, about: About, content: seq<Bytes>,
                                             seen: set<nat>, start: int, events: seq<Event>)
    requires Accounted(l, s) && |content| <= l.maxChunks && RoomAhead(l, s, events)
    requires id in s.streams ==> Gathering(s, id, about, content, seen) && start <= s.streams[id].lastActivity
    requires forall e :: e in events ==> Concerns(id, content, e) && InWindow(l, start, e)
    ensures AllPunctual(l, s, id, content, events)
    decreases |events|
  {
    hide Step, Punctual, Concat, Concerns, Accounted, Gathering, InWindow, RoomAhead;
    if events != [] {
      var e := events[0];
      assert Concerns(id, content, e);
      var seen' := WindowStep(l, s, id, about, content, seen, start, e, events);
      RoomGoesOn(l, s, events);
      WindowAllPunctual(l, Next(l, s, e), id, about, content, seen', start, events[1..]);
    }
  }

  lemma WindowStep(l: Limits, s: State, id: string, about: About, content: seq<Bytes>, seen: set<nat>, start: int,
                   e: Event, events: seq<Event>)
    returns (seen': set<nat>)
    requires Accounted(l, s) && |content| <= l.maxChunks && RoomAhead(l, s, events)
    requires id in s.streams ==> Gathering(s, id, about, content, seen) && start <= s.streams[id].lastActivity
    requires Concerns(id, content, e) && InWindow(l, start, e)
    ensures Punctual(l, s, id, e)
    ensures var s' := Next(l, s, e);
      id in s'.streams ==> Gathering(s', id, about, content, seen') && start <= s'.streams[id].lastActivity
  {
    seen' := seen;
    if id !in s.streams {
      GoneStaysGone(l, s, id, e);
    } else {
      WindowIsPunctual(l, s, id, about, content, seen, start, e, events);
      ActivityOnlyAdvances(l, s, id, content, start, e);
      hide Step, Punctual, InWindow, Accounted;
      if e.AddChunk? && e.id == id {
        ChunkArrives(l, s, id, about, content, seen, e);
        seen' := seen + {e.index};
      } else {
        OthersLeaveAlone(l, s, id, e);
      }
    }
  }

  /**
   Order independence with conditions read off the calls: all calls fall in the
   time to live that starts at Begin, and the global cap covers what the streams
   declare, those stored before, this one and those begun meanwhile.
   */
  lemma OrderIndependenceInWindow(l: Limits, s: State, id: string, about: About, content: seq<Bytes>, start: int, events: seq<Event>)
    requires Accounted(l, s) && |content| <= l.maxChunks
    requires RoomAhead(l, s, [Begin(id, about, |Concat(content)|, start)] + events)
    requires Begun(l, s, Begin(id, about, |Concat(content)|, start)).1
    requires forall e :: e in events ==> Concerns(id, content, e) && InWindow(l, start, e)
    requires Below(|content|) <= Indices(id, events)
    ensures var begin := Begin(id, about, |Concat(content)|, start);
      Deliveries(l, Next(l, s, begin), id, events) == [Assembled(Concat(content), about)]
  {
    var begin := Begin(id, about, |Concat(content)|, start);
    BegunGathers(l, s, id, about, content, start);
    hide *;
    var begun := Next(l, s, begin);
    RoomGoesOn(l, s, [begin] + events);
    assert ([begin] + events)[1..] == events;
    WindowAllPunctual(l, begun, id, about, content, {}, start, events);
    OrderIndependence(l, s, id, about, content, start, events);
  }

  // ------------------------------------------------------------------------
  // The object.
  // ------------------------------------------------------------------------

  /** An ordered map is visited by its smallest remaining key. */
  method Smallest(keys: set<nat>) returns (least: nat)
    requires keys != {}
    ensures least in keys && forall k :: k in keys ==> least <= k
  {
    least :| least in keys;
    var rest := keys - {least};
    while rest != {}
      invariant rest <= keys && least in keys
      invariant forall k :: k in keys && k !in rest ==> least <= k
      decreases |rest|
    {
      var k :| k in rest;
      rest := rest - {k};
      if k < least {
        least := k;
      }
    }
  }

  lemma KeysBelow(chunks: map<nat, Bytes>, n: nat)
    requires chunks.Keys == Below(n)
    ensures |chunks| == n && Contiguous(chunks)
  {
    BelowSize(n);
    assert |chunks| == |chunks.Keys|;
  }

  /** A gap at expected below a present key k rules out contiguity. */
  lemma GapIsIncomplete(chunks: map<nat, Bytes>, expected: nat, k: nat)
    requires expected !in chunks && k in chunks && expected < k
    ensures !Contiguous(chunks)
  {
  }

  method IsCompleteLocked(stream: Stream) returns (complete: bool)
    ensures complete == IsComplete(stream)
  {
    if stream.received != stream.total || stream.chunks == map[] {
      return false;
    }
    var remaining := stream.chunks.Keys;
    var expected := 0;
    while remaining != {}
      invariant forall i :: i in remaining <==> i in stream.chunks && i >= expected
      invariant forall i :: 0 <= i < expected ==> i in stream.chunks
      decreases |remaining|
    {
      var index := Smallest(remaining);
      if index != expected {
        GapIsIncomplete(stream.chunks, expected, index);
        return false;
      }
      remaining := remaining - {index};
      expected := expected + 1;
    }
    assert stream.chunks.Keys == Below(expected);
    KeysBelow(stream.chunks, expected);
    return true;
  }

  method AssemblePayload(chunks: map<nat, Bytes>) returns (payload: Bytes)
    requires Contiguous(chunks)
    ensures payload == Joined(chunks, |chunks|)
  {
    payload := [];
    var remaining := chunks.Keys;
    ghost var next := 0;
    while remaining != {}
      invariant next <= |chunks|
      invariant forall i :: i in remaining <==> next <= i < |chunks|
      invariant payload == Joined(chunks, next)
      decreases |remaining|
    {
      assert next < |chunks| by {
        var i :| i in remaining;
      }
      var index := Smallest(remaining);
      assert index == next by {
        assert next in remaining;
      }
      payload := payload + chunks[index];
      remaining := remaining - {index};
      next := next + 1;
    }
    assert next !in remaining;
  }

  /** The streams not in todo have been visited. */
  ghost predicate PurgedSoFar(l: Limits, start: map<string, Stream>, streams: map<string, Stream>, todo: set<string>, now: int)
  {
    && todo <= streams.Keys <= start.Keys
    && (forall id :: id in streams ==> streams[id] == start[id])
    && (forall id :: id in start && id !in todo ==> (id in streams <==> !Expired(l, start[id], now)))
  }

  lemma PurgeVisit(l: Limits, start: map<string, Stream>, streams: map<string, Stream>, todo: set<string>, id: string, now: int)
    requires PurgedSoFar(l, start, streams, todo, now) && id in todo
    ensures id in streams && id in start && streams[id] == start[id]
    ensures PurgedSoFar(l, start, if Expired(l, streams[id], now) then streams - {id} else streams, todo - {id}, now)
  {
  }

  class IncomingDataStreamAssembler {
    const limits: Limits
    var streams: map<string, Stream>
    var bufferedBytes: nat
    var nextCleanup: int

    ghost function View(): State
      reads this
    {
      State(streams, bufferedBytes, nextCleanup)
    }

    ghost predicate Valid()
      reads this
    {
      Accounted(limits, View())
    }

    constructor (limits: Limits)
      ensures Valid() && this.limits == limits && View() == EMPTY
    {
      this.limits := limits;
      streams, bufferedBytes, nextCleanup := map[], 0, 0;
    }

    /** Visiting one stream of the purge. */
    method PurgeOne(id: string, now: int) returns (erased: bool)
      requires id in streams && bufferedBytes == Stored(streams)
      modifies this`streams, this`bufferedBytes
      ensures erased == Expired(limits, old(streams)[id], now)
      ensures streams == if erased then old(streams) - {id} else old(streams)
      ensures bufferedBytes == Stored(streams)
      ensures |streams| == |old(streams)| - (if erased then 1 else 0)
    {
      hide Stored;
      erased := now - streams[id].lastActivity >= limits.streamTtl;
      if erased {
        OneShare(streams, id);
        assert (streams - {id}).Keys == streams.Keys - {id};
        bufferedBytes := bufferedBytes - streams[id].received;
        streams := streams - {id};
      }
    }

    method PurgeExpiredLocked(now: int) returns (removed: nat)
      requires Valid()
      modifies this
      ensures Valid() && View() == Purged(limits, old(View()), now)
      ensures removed == |old(streams)| - |streams|
    {
      ghost var start := streams;
      PurgeKeeps(limits, View(), now);
      assert bufferedBytes == Stored(streams);
      hide *;
      removed := 0;
      var todo := streams.Keys;
      while todo != {}
        invariant PurgedSoFar(limits, start, streams, todo, now)
        invariant bufferedBytes == Stored(streams)
        invariant |streams| == |start| - removed
        decreases |todo|
      {
        var id :| id in todo;
        ghost var was := streams;
        PurgeVisit(limits, start, was, todo, id, now);
        var erased := PurgeOne(id, now);
        todo := todo - {id};
        removed := removed + if erased then 1 else 0;
      }
      nextCleanup := now + limits.cleanupInterval;
      PurgedExactly(limits, old(View()), View(), now);
    }

    method MaybePurgeExpiredLocked(now: int)
      requires Valid()
      modifies this
      ensures Valid() && View() == Cleaned(limits, old(View()), now)
    {
      if nextCleanup == 0 || now >= nextCleanup {
        var removed := PurgeExpiredLocked(now);
      }
    }

    method PurgeExpired(now: int) returns (removed: nat)
      requires Valid()
      modifies this
      ensures Valid() && View() == Step(limits, old(View()), Purge(now)).0
      ensures removed == |old(streams)| - |streams|
    {
      removed := PurgeExpiredLocked(now);
    }

    method EraseLocked(id: string)
      requires id in streams && streams[id].received <= bufferedBytes
      modifies this
      ensures old(streams[id].received <= bufferedBytes) && View() == Erase(old(View()), id)
    {
      bufferedBytes := bufferedBytes - streams[id].received;
      streams := streams - {id};
    }

    method Begin(id: string, about: About, totalLength: nat, now: int) returns (ok: bool)
      requires Valid()
      modifies this
      ensures Valid()
      ensures (View(), ok) == Begun(limits, old(View()), Event.Begin(id, about, totalLength, now))
    {
      BeginKeeps(limits, View(), Event.Begin(id, about, totalLength, now));
      hide Cleaned, StreamOk;
      if id == "" || totalLength == 0 || totalLength > limits.maxStreamSize || totalLength > SIZE_MAX {
        return false;
      }
      MaybePurgeExpiredLocked(now);
      OneShare(streams, id);
      if id in streams {
        EraseLocked(id);
      }
      if |streams| >= limits.maxStreams {
        return false;
      }
      streams := streams[id := Stream(about, totalLength, now, map[], 0)];
      return true;
    }

    method AddChunk(id: string, index: nat, content: Bytes, now: int) returns (out: Option<Assembled>)
      requires Valid()
      modifies this
      ensures Valid()
      ensures (View(), out) == Step(limits, old(View()), Event.AddChunk(id, index, content, now))
    {
      StepKeeps(limits, View(), Event.AddChunk(id, index, content, now));
      hide Accounted, Cleaned, StreamOk;
      MaybePurgeExpiredLocked(now);
      out := AddChunkLocked(id, index, content, now);
    }

    /** The part of AddChunk that follows the clean-up. */
    method AddChunkLocked(id: string, index: nat, content: Bytes, now: int) returns (out: Option<Assembled>)
      requires Valid()
      modifies this
      ensures (View(), out) == AddedTo(limits, old(View()), Event.AddChunk(id, index, content, now))
    {
      OneShare(streams, id);
      if id !in streams {
        return None;
      }
      var stream := streams[id];
      if now - stream.lastActivity >= limits.streamTtl {
        EraseLocked(id);
        return None;
      }
      if index in stream.chunks {
        return None;
      }
      if |stream.chunks| >= limits.maxChunks || |content| > stream.total - stream.received
        || |content| > limits.maxBuffered - bufferedBytes {
        EraseLocked(id);
        return None;
      }
      out := StoreChunkLocked(id, index, content, now);
    }

    /** Storing a chunk that passed every check, and delivering if that completes the stream. */
    method StoreChunkLocked(id: string, index: nat, content: Bytes, now: int) returns (out: Option<Assembled>)
      requires id in streams && streams[id].received <= bufferedBytes
      modifies this
      ensures (View(), out) == StoredIn(old(View()), Event.AddChunk(id, index, content, now))
    {
      hide IsComplete, Joined;
      var stream := Extended(streams[id], index, content, now);
      streams := streams[id := stream];
      bufferedBytes := bufferedBytes + |content|;
      var complete := IsCompleteLocked(stream);
      if !complete {
        return None;
      }
      out := AssembleAndEraseLocked(id);
    }

    method AssembleAndEraseLocked(id: string) returns (out: Option<Assembled>)
      requires id in streams && IsComplete(streams[id]) && streams[id].received <= bufferedBytes
      modifies this
      ensures old(streams[id].received <= bufferedBytes) && View() == Erase(old(View()), id)
      ensures out == Some(Assembled(Joined(old(streams)[id].chunks, |old(streams)[id].chunks|), old(streams)[id].about))
    {
      var payload := AssemblePayload(streams[id].chunks);
      out := Some(Assembled(payload, streams[id].about));
      EraseLocked(id);
    }

    method Finish(id: string, now: int) returns (out: Option<Assembled>)
      requires Valid()
      modifies this
      ensures Valid()
      ensures (View(), out) == Step(limits, old(View()), Event.Finish(id, now))
      ensures out.None?
    {
      StepKeeps(limits, View(), Event.Finish(id, now));
      CleanKeeps(limits, View(), now);
      OneShare(Cleaned(limits, View(), now).streams, id);
      FinishNeverDeliversFrom(limits, View(), id, now);
      hide Cleaned, IsComplete, Accounted;
      MaybePurgeExpiredLocked(now);
      out := FinishLocked(id);
    }

    /** A complete stream is assembled, an incomplete one discarded. */
    method FinishLocked(id: string) returns (out: Option<Assembled>)
      requires id in streams ==> streams[id].received <= bufferedBytes
      modifies this
      ensures (View(), out) == FinishedOn(old(View()), id)
    {
      if id !in streams {
        return None;
      }
      var complete := IsCompleteLocked(streams[id]);
      if !complete {
        EraseLocked(id);
        return None;
      }
      out := AssembleAndEraseLocked(id);
    }

    method Discard(id: string) returns (found: bool)
      requires Valid()
      modifies this
      ensures Valid() && View() == Step(limits, old(View()), Event.Discard(id)).0
      ensures found == (id in old(streams))
    {
      hide StreamOk, Stored;
      StepKeeps(limits, View(), Event.Discard(id));
      OneShare(streams, id);
      if id !in streams {
        return false;
      }
      EraseLocked(id);
      return true;
    }
  }

  /** A map with the live streams, their bytes counted and the deadline set is the purged state. */
  lemma PurgedExactly(l: Limits, s: State, s': State, now: int)
    requires s'.streams.Keys <= s.streams.Keys
    requires forall id :: id in s'.streams ==> s'.streams[id] == s.streams[id]
    requires forall id :: id in s.streams ==> (id in s'.streams <==> !Expired(l, s.streams[id], now))
    requires s'.buffered == Stored(s'.streams) && s'.nextCleanup == now + l.cleanupInterval
    ensures s' == Purged(l, s, now)
  {
    assert s'.streams == Purged(l, s, now).streams;
  }
}
