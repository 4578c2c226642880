/**
 What each call of the reassembly does, told of the streams before and after
 (src/core/data_stream_assembler.cpp:14-187).
 */
module AssemblerCalls {
  import opened Common
  import opened Assembler

  /** Clean-up is due on the first call and when its time has come. */
  predicate CleanupDue(s: State, now: int) { s.nextCleanup == 0 || now >= s.nextCleanup }

  /** Stored, and not taken by a clean-up that is due. */
  predicate Survives(l: Limits, s: State, now: int, id: string)
  {
    id in s.streams && (CleanupDue(s, now) ==> now - s.streams[id].lastActivity < l.streamTtl)
  }

  ghost function SurvivorsBut(l: Limits, s: State, now: int, id: string): set<string>
  {
    set k | k in s.streams && k != id && Survives(l, s, now, k)
  }

  /** The octets stored once a due clean-up is done. */
  ghost function SurvivingBytes(l: Limits, s: State, now: int): nat
  {
    Total(map k | k in s.streams && Survives(l, s, now, k) :: s.streams[k].received)
  }

  /** All other streams are as a due clean-up leaves them, and the next one is set. */
  ghost predicate OthersAsCleaned(l: Limits, s: State, s': State, now: int, id: string)
  {
    && (forall k :: k != id ==> (k in s'.streams <==> Survives(l, s, now, k)))
    && (forall k :: k != id && k in s'.streams ==> s'.streams[k] == s.streams[k])
    && s'.nextCleanup == if CleanupDue(s, now) then now + l.cleanupInterval else s.nextCleanup
  }

  lemma CleanedMeans(l: Limits, s: State, now: int)
    requires Accounted(l, s)
    ensures var c := Cleaned(l, s, now);
      && (forall k :: k in c.streams <==> Survives(l, s, now, k))
      && (forall k :: k in c.streams ==> k in s.streams && c.streams[k] == s.streams[k])
      && c.nextCleanup == (if CleanupDue(s, now) then now + l.cleanupInterval else s.nextCleanup)
      && c.buffered == SurvivingBytes(l, s, now)
      && Accounted(l, c)
  {
    hide Accounted, Cleaned, SurvivingBytes, Survives;
    CleanKeeps(l, s, now);
    StreamsLeft(l, s, now);
    BytesLeft(l, s, now);
  }

  lemma StreamsLeft(l: Limits, s: State, now: int)
    ensures var c := Cleaned(l, s, now);
      && (forall k :: k in c.streams <==> Survives(l, s, now, k))
      && (forall k :: k in c.streams ==> k in s.streams && c.streams[k] == s.streams[k])
      && c.nextCleanup == (if CleanupDue(s, now) then now + l.cleanupInterval else s.nextCleanup)
  {
    hide Stored;
  }

  lemma BytesLeft(l: Limits, s: State, now: int)
    requires Accounted(l, s)
    ensures Cleaned(l, s, now).buffered == SurvivingBytes(l, s, now)
  {
    hide Accounted, Cleaned, Total, CleanupDue;
    CleanKeeps(l, s, now);
    StreamsLeft(l, s, now);
    var c := Cleaned(l, s, now);
    BooksOf(l, c);
    assert Weights(c.streams) == map k | k in s.streams && Survives(l, s, now, k) :: s.streams[k].received;
  }

  lemma BooksOf(l: Limits, s: State)
    requires Accounted(l, s)
    ensures s.buffered == Total(Weights(s.streams))
  {
  }

  /** A header worth storing. */
  predicate Sane(l: Limits, id: string, total: nat)
  {
    |id| > 0 && 0 < total && total <= l.maxStreamSize && total <= SIZE_MAX
  }

  /**
   A Begin succeeds exactly when its header is sane and fewer than the allowed
   streams, not counting an earlier one of that name, are left after a due
   clean-up. Then the stream is stored empty; any sane header ends an earlier one.
   */
  lemma BeginExactly(l: Limits, s: State, id: string, about: About, total: nat, now: int)
    requires Accounted(l, s)
    ensures var (s', ok) := Begun(l, s, Begin(id, about, total, now));
      && (ok <==> Sane(l, id, total) && |SurvivorsBut(l, s, now, id)| < l.maxStreams)
      && (!Sane(l, id, total) ==> s' == s)
      && (Sane(l, id, total) ==> OthersAsCleaned(l, s, s', now, id))
      && (Sane(l, id, total) && !ok ==> id !in s'.streams)
      && (ok ==> id in s'.streams && s'.streams[id] == Stream(about, total, now, map[], 0))
  {
    hide Accounted, Cleaned, SurvivingBytes, Survives, SurvivorsBut, Stored, OthersAsCleaned;
    CleanedMeans(l, s, now);
    var c := Cleaned(l, s, now);
    OneShare(c.streams, id);
    CountSurvivors(l, s, now, id, c.streams);
    BegunOthers(l, s, now, id, c, Begun(l, s, Begin(id, about, total, now)).0);
  }

  /** Whatever becomes of the one stream. */
  lemma BegunOthers(l: Limits, s: State, now: int, id: string, c: State, s': State)
    requires forall k :: k in c.streams <==> Survives(l, s, now, k)
    requires forall k :: k in c.streams ==> k in s.streams && c.streams[k] == s.streams[k]
    requires c.nextCleanup == if CleanupDue(s, now) then now + l.cleanupInterval else s.nextCleanup
    ensures s'.nextCleanup == c.nextCleanup && (s'.streams - {id} == c.streams - {id}) ==> OthersAsCleaned(l, s, s', now, id)
  {
    hide Survives, CleanupDue;
    if s'.streams - {id} == c.streams - {id} {
      forall k | k != id ensures k in s'.streams <==> k in c.streams {
        assert k in s'.streams <==> k in s'.streams - {id};
        assert k in c.streams <==> k in c.streams - {id};
      }
      forall k | k != id && k in s'.streams ensures s'.streams[k] == c.streams[k] {
        assert s'.streams[k] == (s'.streams - {id})[k] && c.streams[k] == (c.streams - {id})[k];
      }
    }
  }

  lemma CountSurvivors(l: Limits, s: State, now: int, id: string, left: map<string, Stream>)
    requires forall k :: k in left <==> Survives(l, s, now, k)
    ensures |left - {id}| == |SurvivorsBut(l, s, now, id)|
    ensures id !in left ==> left - {id} == left
  {
    assert (left - {id}).Keys == SurvivorsBut(l, s, now, id);
    assert |left - {id}| == |(left - {id}).Keys|;
  }

  // ------------------------------------------------------------------------
  // Chunks.
  // ------------------------------------------------------------------------

  /** More chunks, more octets than declared, or more than the whole assembler may hold. */
  predicate OverCaps(l: Limits, st: Stream, stored: nat, content: Bytes)
  {
    || |st.chunks| + 1 > l.maxChunks
    || st.received + |content| > st.total
    || stored + |content| > l.maxBuffered
  }

  function Grown(st: Stream, index: nat, content: Bytes, now: int): Stream
  {
    Stream(st.about, st.total, now, st.chunks[index := content], st.received + |content|)
  }

  /** All declared octets in chunks 0, 1, 2, ... */
  ghost predicate Whole(st: Stream)
  {
    st.received == st.total && |st.chunks| > 0 && forall i :: i in st.chunks <==> 0 <= i < |st.chunks|
  }

  /**
   One chunk: other streams are as a due clean-up leaves them. Of its own stream,
   if that is left: an expired one goes; a chunk seen before changes nothing; one
   over a cap drops the stream; any other is stored, and when that makes the stream
   whole it is handed out and goes.
   */
  lemma ChunkExactly(l: Limits, s: State, id: string, index: nat, content: Bytes, now: int)
    requires Accounted(l, s)
    ensures var (s', out) := Step(l, s, AddChunk(id, index, content, now));
      && OthersAsCleaned(l, s, s', now, id)
      && if !Survives(l, s, now, id) || now - s.streams[id].lastActivity >= l.streamTtl then id !in s'.streams && out.None?
         else
           var st := s.streams[id];
           if index in st.chunks then id in s'.streams && s'.streams[id] == st && out.None?
           else if OverCaps(l, st, SurvivingBytes(l, s, now), content) then id !in s'.streams && out.None?
           else
             var st' := Grown(st, index, content, now);
             if Whole(st') then id !in s'.streams && out == Some(Assembled(Joined(st'.chunks, |st'.chunks|), st.about))
             else id in s'.streams && s'.streams[id] == st' && out.None?
  {
    hide Accounted, Cleaned, SurvivingBytes, Stored, CleanupDue;
    CleanedMeans(l, s, now);
    CleanKeeps(l, s, now);
    AddedMeans(l, Cleaned(l, s, now), AddChunk(id, index, content, now));
  }

  /** The same once the clean-up is done. */
  lemma AddedMeans(l: Limits, c: State, e: Event)
    requires Accounted(l, c) && e.AddChunk?
    ensures var (s', out) := AddedTo(l, c, e);
      && s'.nextCleanup == c.nextCleanup
      && (forall k :: k != e.id ==> (k in s'.streams <==> k in c.streams))
      && (forall k :: k != e.id && k in s'.streams ==> s'.streams[k] == c.streams[k])
      && if e.id !in c.streams || e.now - c.streams[e.id].lastActivity >= l.streamTtl then e.id !in s'.streams && out.None?
         else
           var st := c.streams[e.id];
           if e.index in st.chunks then e.id in s'.streams && s'.streams[e.id] == st && out.None?
           else if OverCaps(l, st, c.buffered, e.content) then e.id !in s'.streams && out.None?
           else
             var st' := Grown(st, e.index, e.content, e.now);
             if Whole(st') then e.id !in s'.streams && out == Some(Assembled(Joined(st'.chunks, |st'.chunks|), st.about))
             else e.id in s'.streams && s'.streams[e.id] == st' && out.None?
  {
    hide Stored, StreamOk, Joined;
    if e.id in c.streams {
      WholeMeans(Grown(c.streams[e.id], e.index, e.content, e.now));
      hide IsComplete, Whole;
    }
  }

  lemma WholeMeans(st: Stream)
    ensures Whole(st) <==> IsComplete(st)
  {
  }

  /** The trailer drops its stream and hands out nothing; other streams are as a due clean-up leaves them. */
  lemma FinishExactly(l: Limits, s: State, id: string, now: int)
    requires Accounted(l, s)
    ensures var (s', out) := Step(l, s, Finish(id, now));
      OthersAsCleaned(l, s, s', now, id) && id !in s'.streams && out.None?
  {
    hide Accounted, Cleaned, Stored, CleanupDue, IsComplete, Joined, OthersAsCleaned, Survives;
    FinishNeverDeliversFrom(l, s, id, now);
    CleanedMeans(l, s, now);
    OneShare(Cleaned(l, s, now).streams, id);
    BegunOthers(l, s, now, id, Cleaned(l, s, now), Step(l, s, Finish(id, now)).0);
  }

  /** An explicit purge takes exactly the expired streams, whether or not a clean-up is due. */
  lemma PurgeExactly(l: Limits, s: State, now: int)
    requires Accounted(l, s)
    ensures var s' := Step(l, s, Purge(now)).0;
      && (forall k :: k in s'.streams <==> k in s.streams && now - s.streams[k].lastActivity < l.streamTtl)
      && (forall k :: k in s'.streams ==> s'.streams[k] == s.streams[k])
      && s'.nextCleanup == now + l.cleanupInterval
  {
    hide Accounted, Stored;
  }

  /** Discarding takes exactly the named stream, and cleans nothing up. */
  lemma DiscardExactly(l: Limits, s: State, id: string)
    requires Accounted(l, s)
    ensures var s' := Step(l, s, Discard(id)).0;
      && (forall k :: k in s'.streams <==> k in s.streams && k != id)
      && (forall k :: k in s'.streams ==> s'.streams[k] == s.streams[k])
      && s'.nextCleanup == s.nextCleanup
  {
    hide Accounted, Stored;
  }
}
