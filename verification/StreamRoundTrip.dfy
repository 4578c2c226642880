/**
 From a writer to a reader: the packets of any sequence of writes and a normal
 close, delivered in order, with reads and the traffic of other readers
 interleaved in every possible way
 (src/core/data_stream.cpp:191-252, 294-364, 740-777, 809-865).
 */
module StreamRoundTrip {
  import opened Common
  import W = StreamWriters
  import R = StreamReaders
  import Utf8

  // ------------------------------------------------------------------------
  // The sending side over a publisher that takes every packet.
  // ------------------------------------------------------------------------

  ghost predicate Reliable(e: W.Setup)
  {
    W.Usable(e) && e.publisher.Some? && forall h, p :: e.publisher.value(h, p) == W.Accept
  }

  ghost predicate TextOp(op: W.Op)
  {
    op.WriteText? ==> Utf8.WellFormed(op.text)
  }

  ghost predicate TextOnly(op: W.Op)
  {
    !op.WriteBytes? && TextOp(op)
  }

  /** Every chunk packet is non-empty, within the chunk size and, for text, well formed. */
  ghost predicate GoodChunks(e: W.Setup, isText: bool, packets: seq<W.Packet>)
  {
    forall p :: p in packets && p.Chunk? ==>
      0 < |p.content| <= e.chunkSize && (isText ==> Utf8.WellFormed(p.content))
  }

  lemma {:induction false} SendAllReliable(e: W.Setup, w: W.Writer, chunks: seq<Bytes>, isText: bool)
    requires Reliable(e) && W.Inv(e, w) && w.phase == W.Open && GoodChunks(e, isText, w.accepted)
    requires forall c :: c in chunks ==> 0 < |c| <= e.chunkSize && (isText ==> Utf8.WellFormed(c))
    ensures var (w', out) := W.SendAll(e, w, chunks);
      out == W.Done && w'.phase == W.Open && GoodChunks(e, isText, w'.accepted)
    decreases |chunks|
  {
    if chunks != [] {
      W.SendChunkKeeps(e, w, chunks[0]);
      var w' := W.SendChunk(e, w, chunks[0]).0;
      SendAllReliable(e, w', chunks[1..], isText);
    }
  }

  lemma StepReliable(e: W.Setup, w: W.Writer, op: W.Op, isText: bool)
    requires Reliable(e) && W.Inv(e, w) && w.phase != W.Failed && GoodChunks(e, isText, w.accepted)
    requires isText ==> TextOnly(op)
    ensures var w' := W.Step(e, w, op).0;
      && w'.phase != W.Failed
      && GoodChunks(e, isText, w'.accepted)
      && (W.Ends(op) ==> w'.phase == W.Closed)
      && (w.phase == W.Closed ==> w' == w)
  {
    hide Utf8.WellFormed;
    if w.phase == W.Open {
      var pieces := W.Pieces(e, op);
      W.PiecesAddUp(e, op);
      if op.WriteText? && isText {
        Utf8.ChunksAreWellFormed(op.text, e.chunkSize);
      }
      hide W.Pieces, W.SendAll, W.CloseWith, GoodChunks;
      match op
      case WriteText(_) | WriteBytes(_) => SendAllReliable(e, w, pieces, isText);
      case Close(reason) => CloseReliable(e, w, reason, isText);
      case Cancel(reason) => CloseReliable(e, w, if reason == "" then "cancelled" else reason, isText);
      case Destroy => CloseReliable(e, w, "", isText);
    }
  }

  lemma CloseReliable(e: W.Setup, w: W.Writer, reason: string, isText: bool)
    requires Reliable(e) && w.phase == W.Open && GoodChunks(e, isText, w.accepted)
    ensures var (w', out) := W.CloseWith(e, w, reason);
      out == W.Done && w'.phase == W.Closed && GoodChunks(e, isText, w'.accepted)
  {
    hide Utf8.WellFormed;
  }

  /** What a closed writer has put on the wire. */
  lemma {:induction false} SentPackets(e: W.Setup, ops: seq<W.Op>, isText: bool)
    requires Reliable(e)
    requires isText ==> forall op :: op in ops ==> TextOnly(op)
    ensures W.Run(e, ops).phase != W.Failed
    ensures GoodChunks(e, isText, W.Run(e, ops).accepted)
  {
    hide W.Step, Utf8.WellFormed;
    if ops != [] {
      var before, op := ops[..|ops| - 1], ops[|ops| - 1];
      assert forall o :: o in before ==> o in ops;
      SentPackets(e, before, isText);
      W.RunKeeps(e, before);
      StepReliable(e, W.Run(e, before), op, isText);
    }
  }

  // ------------------------------------------------------------------------
  // The receiving side.
  // ------------------------------------------------------------------------

  datatype Move =
    | Deliver                    // the next packet arrives
    | Read                       // ReadNext
    | OthersHold(bytes: nat)     // other readers' share of the budget becomes this

  /** next counts the packets delivered; the header has created the reader. */
  datatype Link = Link(next: nat, others: nat, reader: R.Reader, handed: seq<Bytes>)

  ghost predicate RoomFor(l: R.Limits, k: Link, data: Bytes)
  {
    && k.reader.queuedChunks < l.maxQueuedChunks
    && k.reader.buffered + |data| <= l.maxBufferedPerReader
    && k.others + k.reader.buffered + |data| <= l.maxBuffered
  }

  ghost function Delivered(l: R.Limits, k: Link, p: W.Packet): Link
  {
    var b := R.Budget(1, k.others + k.reader.buffered);
    match p
    case Chunk(_, index, content) =>
      k.(next := k.next + 1, reader := R.Arrive(l, b, k.reader, index, content, true).1)
    case Trailer(_, reason) => k.(next := k.next + 1, reader := R.CloseStream(b, k.reader, reason).1)
    case Header(_, _) => k.(next := k.next + 1)
  }

  ghost function StepLink(l: R.Limits, packets: seq<W.Packet>, k: Link, m: Move): Link
    requires R.Coherent(l, k.reader)
  {
    match m
    case Deliver => if k.next < |packets| then Delivered(l, k, packets[k.next]) else k
    case Read =>
      if k.reader.queue == [] then k
      else
        R.DequeueIsSafe(l, k.reader);
        k.(reader := R.Dequeue(k.reader), handed := k.handed + [k.reader.queue[0]])
    case OthersHold(bytes) => k.(others := bytes)
  }

  /** A complete stream: header, numbered chunks that fit the declaration, normal trailer. */
  ghost predicate Complete(e: W.Setup, isText: bool, packets: seq<W.Packet>)
  {
    && W.Transcript(e, packets)
    && W.Ended(packets)
    && |packets| >= 2
    && packets[|packets| - 1].reason == ""
    && GoodChunks(e, isText, packets)
    && |W.Payload(packets)| <= R.SIZE_MAX
    && (e.totalSize.Some? ==> e.totalSize.value == |W.Payload(packets)|)
  }

  ghost function Opened(l: R.Limits, e: W.Setup, isText: bool): Link
  {
    Link(1, 0, R.Create(l, R.Budget(0, 0), isText, e.totalSize).1, [])
  }

  /** The reader keeps up with the wire: all delivered octets, in order, or a limit was met. */
  ghost predicate InStep(l: R.Limits, e: W.Setup, isText: bool, packets: seq<W.Packet>, k: Link)
  {
    && R.Coherent(l, k.reader)
    && 1 <= k.next <= |packets|
    && k.reader.isText == isText
    && k.reader.declared == e.totalSize
    && if k.reader.failed then
         && k.reader.reason in {R.ChunkLimitExceeded, R.BufferLimitExceeded}
         && Concat(k.handed) + Concat(k.reader.queue) <= W.Payload(packets)
       else
         && Concat(k.handed) + Concat(k.reader.queue) == W.Payload(packets[..k.next])
         && k.reader.received == |W.Payload(packets[..k.next])|
         && (k.reader.closed <==> k.next == |packets|)
         && (!k.reader.closed ==> k.reader.nextIndex == k.next - 1)
  }

  lemma {:induction false} PayloadPrefix(packets: seq<W.Packet>, k: nat)
    requires k <= |packets|
    ensures W.Payload(packets[..k]) <= W.Payload(packets)
  {
    if k < |packets| {
      var before := packets[..|packets| - 1];
      PayloadPrefix(before, k);
      assert before[..k] == packets[..k];
    } else {
      assert packets[..k] == packets;
    }
  }

  lemma PayloadNext(packets: seq<W.Packet>, k: nat)
    requires k < |packets|
    ensures W.Payload(packets[..k + 1])
         == W.Payload(packets[..k]) + (if packets[k].Chunk? then packets[k].content else [])
  {
    assert packets[..k + 1] == packets[..k] + [packets[k]];
    W.PayloadSnoc(packets[..k], packets[k]);
  }

  /** A chunk in its turn is refused for lack of room or taken; nothing else can be wrong with it. */
  lemma ChunkDelivered(l: R.Limits, e: W.Setup, isText: bool, packets: seq<W.Packet>, k: Link)
    requires Complete(e, isText, packets) && InStep(l, e, isText, packets, k)
    requires k.next < |packets| && packets[k.next].Chunk?
    ensures var k' := Delivered(l, k, packets[k.next]);
      && InStep(l, e, isText, packets, k')
      && (k'.reader.failed <==> k.reader.failed || !RoomFor(l, k, packets[k.next].content))
  {
    hide W.Payload, Utf8.WellFormed;
    var p := packets[k.next];
    assert p in packets;
    PayloadNext(packets, k.next);
    PayloadPrefix(packets, k.next + 1);
    PayloadPrefix(packets, k.next);
    var b := R.Budget(1, k.others + k.reader.buffered);
    if !k.reader.failed {
      assert W.Fits(e, p, k.next, k.next == |packets| - 1);
      ConcatSnoc(k.reader.queue, p.content);
      R.ArriveKeeps(l, b, k.reader, p.index, p.content, true);
      hide Concat;
      AppendAssociates(Concat(k.handed), Concat(k.reader.queue), p.content);
    }
  }

  lemma TrailerDelivered(l: R.Limits, e: W.Setup, isText: bool, packets: seq<W.Packet>, k: Link)
    requires Complete(e, isText, packets) && InStep(l, e, isText, packets, k)
    requires k.next < |packets| && !packets[k.next].Chunk?
    ensures var k' := Delivered(l, k, packets[k.next]);
      && InStep(l, e, isText, packets, k')
      && k'.reader.failed == k.reader.failed
  {
    hide W.Payload, Utf8.WellFormed;
    assert W.Fits(e, packets[k.next], k.next, k.next == |packets| - 1);
    PayloadNext(packets, k.next);
    assert packets[..|packets|] == packets;
  }

  lemma ReadInStep(l: R.Limits, e: W.Setup, isText: bool, packets: seq<W.Packet>, k: Link)
    requires Complete(e, isText, packets) && InStep(l, e, isText, packets, k)
    ensures InStep(l, e, isText, packets, StepLink(l, packets, k, Read))
  {
    hide W.Payload, Utf8.WellFormed;
    if k.reader.queue != [] {
      R.DequeueIsSafe(l, k.reader);
      ConcatSnoc(k.handed, k.reader.queue[0]);
      assert Concat(k.handed) + k.reader.queue[0] + Concat(k.reader.queue[1..])
          == Concat(k.handed) + Concat(k.reader.queue);
    }
  }

  lemma MoveInStep(l: R.Limits, e: W.Setup, isText: bool, packets: seq<W.Packet>, k: Link, m: Move)
    requires Complete(e, isText, packets) && InStep(l, e, isText, packets, k)
    ensures InStep(l, e, isText, packets, StepLink(l, packets, k, m))
    ensures StepLink(l, packets, k, m).reader.failed <==> k.reader.failed || Overflows(l, packets, k, m)
  {
    match m
    case Deliver =>
      if k.next < |packets| {
        if packets[k.next].Chunk? {
          ChunkDelivered(l, e, isText, packets, k);
        } else {
          TrailerDelivered(l, e, isText, packets, k);
        }
      }
    case Read => ReadInStep(l, e, isText, packets, k);
    case OthersHold(_) =>
  }

  /** The guard a sender's peer could check: this delivery finds no room. */
  ghost predicate Overflows(l: R.Limits, packets: seq<W.Packet>, k: Link, m: Move)
  {
    m.Deliver? && k.next < |packets| && packets[k.next].Chunk? && !RoomFor(l, k, packets[k.next].content)
  }

  ghost function Follow(l: R.Limits, e: W.Setup, isText: bool, packets: seq<W.Packet>, moves: seq<Move>): (k: Link)
    requires l.maxActiveReaders > 0 && Complete(e, isText, packets)
    ensures InStep(l, e, isText, packets, k)
  {
    if moves == [] then
      StartInStep(l, e, isText, packets);
      Opened(l, e, isText)
    else
      var k, m := Follow(l, e, isText, packets, moves[..|moves| - 1]), moves[|moves| - 1];
      MoveInStep(l, e, isText, packets, k, m);
      StepLink(l, packets, k, m)
  }

  lemma StartInStep(l: R.Limits, e: W.Setup, isText: bool, packets: seq<W.Packet>)
    requires l.maxActiveReaders > 0 && Complete(e, isText, packets)
    ensures InStep(l, e, isText, packets, Opened(l, e, isText))
  {
    assert W.Fits(e, packets[0], 0, false);
    PayloadNext(packets, 0);
  }

  /** Some delivery of the schedule found no room. */
  ghost predicate Overflowed(l: R.Limits, e: W.Setup, isText: bool, packets: seq<W.Packet>, moves: seq<Move>)
    requires l.maxActiveReaders > 0 && Complete(e, isText, packets)
  {
    moves != [] &&
    (var before := moves[..|moves| - 1];
     || Overflowed(l, e, isText, packets, before)
     || Overflows(l, packets, Follow(l, e, isText, packets, before), moves[|moves| - 1]))
  }

  lemma {:induction false} FailsOnlyByOverflow(l: R.Limits, e: W.Setup, isText: bool, packets: seq<W.Packet>, moves: seq<Move>)
    requires l.maxActiveReaders > 0 && Complete(e, isText, packets)
    ensures Follow(l, e, isText, packets, moves).reader.failed <==> Overflowed(l, e, isText, packets, moves)
  {
    if moves != [] {
      var n := |moves| - 1;
      var before := moves[..n];
      FailsOnlyByOverflow(l, e, isText, packets, before);
      MoveInStep(l, e, isText, packets, Follow(l, e, isText, packets, before), moves[n]);
      hide StepLink, Complete, Overflows;
    }
  }

  // ------------------------------------------------------------------------
  // The round trip.
  // ------------------------------------------------------------------------

  /** A session: writes, then a normal close; the declared length, when given, is honest. */
  ghost predicate Session(e: W.Setup, isText: bool, writes: seq<W.Op>)
  {
    && Reliable(e)
    && (forall op :: op in writes ==> op.WriteText? || op.WriteBytes?)
    && (isText ==> forall op :: op in writes ==> TextOnly(op))
    && |W.Written(writes)| <= R.SIZE_MAX
    && (e.totalSize.Some? ==> e.totalSize.value == |W.Written(writes)|)
  }

  function Wire(e: W.Setup, writes: seq<W.Op>): seq<W.Packet>
    requires W.Usable(e)
  {
    W.Run(e, writes + [W.Op.Close("")]).accepted
  }

  lemma WireIsComplete(e: W.Setup, isText: bool, writes: seq<W.Op>)
    requires Session(e, isText, writes)
    ensures Complete(e, isText, Wire(e, writes))
    ensures W.Payload(Wire(e, writes)) == W.Written(writes)
  {
    hide W.Payload, Utf8.WellFormed, W.Pieces;
    var close := W.Op.Close("");
    var ops := writes + [close];
    assert ops[..|ops| - 1] == writes;
    SentPackets(e, writes, isText);
    W.PayloadIsWritten(e, writes);
    W.RunKeeps(e, writes);
    var w := W.Run(e, writes);
    assert w.phase == W.Open by { NothingEnds(writes); }
    StepReliable(e, w, close, isText);
    W.RunKeeps(e, ops);
    W.ClosePayload(e, w, "");
    ClosingPackets(e, w);
  }

  lemma NothingEnds(writes: seq<W.Op>)
    requires forall op :: op in writes ==> op.WriteText? || op.WriteBytes?
    ensures !W.HasEnd(writes)
  {
    forall i | 0 <= i < |writes| ensures !W.Ends(writes[i]) {
      assert writes[i] in writes;
    }
  }

  lemma ClosingPackets(e: W.Setup, w: W.Writer)
    requires Reliable(e) && W.Inv(e, w) && w.phase == W.Open
    ensures var sent := W.CloseWith(e, w, "").0.accepted;
      |sent| >= 2 && sent[|sent| - 1] == W.Trailer(e.streamId, "")
  {
  }

  /**
   The round trip: however reads and other readers interleave with the arrivals,
   the reader fails exactly when some arrival found no room, and then only for a
   limit. Otherwise, once the wire is drained, it has closed cleanly, and what
   was read followed by what is still queued is exactly what was written.
   */
  lemma RoundTrip(l: R.Limits, e: W.Setup, isText: bool, writes: seq<W.Op>, moves: seq<Move>)
    requires l.maxActiveReaders > 0 && Session(e, isText, writes)
    ensures Complete(e, isText, Wire(e, writes))
    ensures var packets := Wire(e, writes);
      var k := Follow(l, e, isText, packets, moves);
      && (k.reader.failed <==> Overflowed(l, e, isText, packets, moves))
      && (k.reader.failed ==> k.reader.reason in {R.ChunkLimitExceeded, R.BufferLimitExceeded})
      && Concat(k.handed) + Concat(k.reader.queue) <= W.Written(writes)
      && (!k.reader.failed && k.next == |packets| ==>
            k.reader.closed && Concat(k.handed) + Concat(k.reader.queue) == W.Written(writes))
  {
    WireIsComplete(e, isText, writes);
    var packets := Wire(e, writes);
    hide W.Run, W.Payload, W.Written, Complete;
    FailsOnlyByOverflow(l, e, isText, packets, moves);
    var k := Follow(l, e, isText, packets, moves);
    assert InStep(l, e, isText, packets, k);
    PayloadPrefix(packets, k.next);
    if k.next == |packets| {
      assert packets[..k.next] == packets;
    }
  }

  /** A queue that holds nothing loses the first chunk of every session that writes anything. */
  lemma FirstChunkOverflows(l: R.Limits, e: W.Setup, isText: bool, writes: seq<W.Op>)
    requires l.maxActiveReaders > 0 && l.maxQueuedChunks == 0
    requires Session(e, isText, writes) && W.Written(writes) != []
    ensures Complete(e, isText, Wire(e, writes))
    ensures Follow(l, e, isText, Wire(e, writes), [Deliver]).reader.failed
  {
    var packets := Wire(e, writes);
    RoundTrip(l, e, isText, writes, [Deliver]);
    WireIsComplete(e, isText, writes);
    hide W.Run, W.Written, Utf8.WellFormed;
    SecondIsChunk(e, isText, packets);
    assert [Deliver][..0] == [];
    assert Overflows(l, packets, Follow(l, e, isText, packets, []), Deliver);
  }

  lemma SecondIsChunk(e: W.Setup, isText: bool, packets: seq<W.Packet>)
    requires Complete(e, isText, packets) && W.Payload(packets) != []
    ensures packets[1].Chunk?
  {
    hide Utf8.WellFormed;
    assert W.Fits(e, packets[0], 0, false) && W.Fits(e, packets[1], 1, 1 == |packets| - 1);
    PayloadNext(packets, 0);
    PayloadNext(packets, 1);
    assert packets[..|packets|] == packets;
  }

  /** Such a session: one octet is written. */
  lemma OverflowExample() returns (l: R.Limits, e: W.Setup, writes: seq<W.Op>)
    ensures l.maxActiveReaders > 0 && Session(e, false, writes) && Complete(e, false, Wire(e, writes))
    ensures Follow(l, e, false, Wire(e, writes), [Deliver]).reader.failed
  {
    l := R.Limits(1, 10, 10, 0, 10);
    e := W.Setup(Some((_, _) => W.Accept), "S", None, 4);
    writes := [W.WriteBytes([1])];
    assert W.Written(writes) == [1] by { assert writes[1..] == []; }
    FirstChunkOverflows(l, e, false, writes);
  }

  /** Enough room for the whole stream next to the others is enough under every schedule. */
  lemma {:induction false} RoomyNeverOverflows(l: R.Limits, e: W.Setup, isText: bool, packets: seq<W.Packet>,
                                               moves: seq<Move>, othersMax: nat)
    requires l.maxActiveReaders > 0 && Complete(e, isText, packets)
    requires |packets| <= l.maxQueuedChunks
    requires |W.Payload(packets)| <= l.maxBufferedPerReader
    requires othersMax + |W.Payload(packets)| <= l.maxBuffered
    requires forall m :: m in moves && m.OthersHold? ==> m.bytes <= othersMax
    ensures var k := Follow(l, e, isText, packets, moves);
      !k.reader.failed && k.others <= othersMax && |k.handed| + |k.reader.queue| == k.next - 1 - (if k.next == |packets| then 1 else 0)
  {
    hide Complete, W.Payload;
    if moves != [] {
      var before, m := moves[..|moves| - 1], moves[|moves| - 1];
      RoomyNeverOverflows(l, e, isText, packets, before, othersMax);
      var k := Follow(l, e, isText, packets, before);
      RoomyMove(l, e, isText, packets, k, m, othersMax);
    }
  }

  lemma RoomyMove(l: R.Limits, e: W.Setup, isText: bool, packets: seq<W.Packet>, k: Link, m: Move, othersMax: nat)
    requires Complete(e, isText, packets) && InStep(l, e, isText, packets, k)
    requires |packets| <= l.maxQueuedChunks
    requires |W.Payload(packets)| <= l.maxBufferedPerReader
    requires othersMax + |W.Payload(packets)| <= l.maxBuffered
    requires m.OthersHold? ==> m.bytes <= othersMax
    requires !k.reader.failed && k.others <= othersMax
    requires |k.handed| + |k.reader.queue| == k.next - 1 - (if k.next == |packets| then 1 else 0)
    ensures var k' := StepLink(l, packets, k, m);
      && !k'.reader.failed && k'.others <= othersMax
      && |k'.handed| + |k'.reader.queue| == k'.next - 1 - (if k'.next == |packets| then 1 else 0)
  {
    hide W.Payload, Utf8.WellFormed, Complete;
    MoveInStep(l, e, isText, packets, k, m);
    if m.Deliver? && k.next < |packets| {
      DeliveryFits(l, e, isText, packets, k);
    }
  }

  lemma DeliveryFits(l: R.Limits, e: W.Setup, isText: bool, packets: seq<W.Packet>, k: Link)
    requires Complete(e, isText, packets) && InStep(l, e, isText, packets, k)
    requires k.next < |packets| && !k.reader.failed
    ensures var p := packets[k.next];
      && (p.Chunk? <==> k.next < |packets| - 1)
      && (p.Chunk? ==> k.reader.buffered + |p.content| <= |W.Payload(packets)|)
      && (p.Chunk? ==> p.content != [])
  {
    hide W.Payload, Utf8.WellFormed;
    assert W.Fits(e, packets[k.next], k.next, k.next == |packets| - 1);
    PayloadNext(packets, k.next);
    PayloadPrefix(packets, k.next + 1);
    assert packets[k.next] in packets;
  }
}
