/**
 What a writer puts on the wire, packet by packet, and why it fails: the planned
 packets are read off the operations alone, without any publisher
 (src/core/data_stream.cpp:673-865).
 */
module StreamWire {
  import opened Common
  import opened StreamWriters
  import Utf8

  // ------------------------------------------------------------------------
  // The plan.
  // ------------------------------------------------------------------------

  /** The pieces of the writes before the stream ends. */
  function AllPieces(e: Setup, ops: seq<Op>): seq<Bytes>
    requires Usable(e)
  {
    if ops == [] then []
    else
      var rest := AllPieces(e, ops[..|ops| - 1]);
      if HasEnded(ops[..|ops| - 1]) then rest else rest + Pieces(e, ops[|ops| - 1])
  }

  function HasEnded(ops: seq<Op>): bool { EndOf(ops).Some? }

  /** The reason of the operation that ends the stream. */
  function EndOf(ops: seq<Op>): Option<string>
  {
    if ops == [] then None
    else if EndOf(ops[..|ops| - 1]).Some? then EndOf(ops[..|ops| - 1])
    else
      match ops[|ops| - 1]
      case Close(reason) => Some(reason)
      case Cancel(reason) => Some(if |reason| == 0 then "cancelled" else reason)
      case Destroy => Some("")
      case _ => None
  }

  function Numbered(e: Setup, pieces: seq<Bytes>): (packets: seq<Packet>)
    ensures |packets| == |pieces|
    ensures forall i :: 0 <= i < |pieces| ==> packets[i] == Chunk(e.streamId, i, pieces[i])
  {
    if pieces == [] then []
    else Numbered(e, pieces[..|pieces| - 1]) + [Chunk(e.streamId, |pieces| - 1, pieces[|pieces| - 1])]
  }

  function Opened(e: Setup, pieces: seq<Bytes>): seq<Packet>
  {
    [Header(e.streamId, e.totalSize)] + Numbered(e, pieces)
  }

  /** One header with the declared length, the pieces in numbered chunks, one trailer with the reason; nothing without need. */
  function Planned(e: Setup, ops: seq<Op>): seq<Packet>
    requires Usable(e)
  {
    var pieces, end := AllPieces(e, ops), EndOf(ops);
    if end.Some? then Opened(e, pieces) + [Trailer(e.streamId, end.value)]
    else if pieces == [] then []
    else Opened(e, pieces)
  }

  // ------------------------------------------------------------------------
  // Failing.
  // ------------------------------------------------------------------------

  function StageOf(p: Packet): Stage { if p.Header? then AtHeader else if p.Chunk? then AtChunk else AtTrailer }

  /** What the publisher says of the packet that comes after these. */
  function Answer(e: Setup, before: seq<Packet>, p: Packet): Verdict
    requires e.publisher.Some?
  {
    e.publisher.value(before, p)
  }

  /** Every packet taken was accepted in its turn. */
  ghost predicate TakenInTurn(e: Setup, packets: seq<Packet>)
  {
    packets != [] ==> e.publisher.Some? && forall i :: 0 <= i < |packets| ==> AcceptedAt(e, packets, i)
  }

  ghost predicate AcceptedAt(e: Setup, packets: seq<Packet>, i: nat)
  {
    i < |packets| && e.publisher.Some? && Answer(e, packets[..i], packets[i]) == Accept
  }

  /** The failure is the one of the packet that was offered last, or of a missing publisher. */
  ghost predicate FailedFor(e: Setup, w: Writer, f: Failure)
  {
    if e.publisher.None? then w.offered == [] && f == Unavailable(AtHeader)
    else
      && w.offered != [] && w.accepted == w.offered[..|w.offered| - 1]
      && var p := w.offered[|w.offered| - 1];
         match Answer(e, w.accepted, p)
         case Accept => false
         case Refuse => f == Rejected(StageOf(p))
         case Throw(code) => f == Thrown(code)
  }

  /** The writer is open with these pieces sent, or has failed on the way to planned. */
  ghost predicate OpenWith(e: Setup, w: Writer, pieces: seq<Bytes>)
  {
    && w.phase == Open && w.failure.None? && w.accepted == w.offered && TakenInTurn(e, w.accepted)
    && w.nextIndex == |pieces| && w.headerSent == (pieces != [])
    && w.accepted == if pieces == [] then [] else Opened(e, pieces)
  }

  ghost predicate FailedOnTheWay(e: Setup, w: Writer, planned: seq<Packet>)
  {
    && w.phase == Failed && w.failure.Some? && FailedFor(e, w, w.failure.value)
    && w.offered <= planned && TakenInTurn(e, w.accepted)
  }

  /** Publishing the next planned packet. */
  lemma PublishNext(e: Setup, w: Writer, p: Packet, stage: Stage)
    requires w.phase == Open && w.accepted == w.offered && TakenInTurn(e, w.accepted) && stage == StageOf(p)
    requires e.publisher.None? ==> w.offered == [] && p.Header?
    ensures var (w', out) := Publish(e, w, p, stage);
      if out.Done? then
        w' == w.(accepted := w.accepted + [p], offered := w.offered + [p]) && TakenInTurn(e, w'.accepted)
      else FailedOnTheWay(e, w', w.accepted + [p]) && w'.failure == Some(out.failure)
  {
    if e.publisher.Some? {
      var more := w.accepted + [p];
      assert more[..|w.accepted|] == w.accepted;
      forall i | 0 <= i < |w.accepted| ensures AcceptedAt(e, more, i) || !TakenInTurn(e, w.accepted) {
        assert AcceptedAt(e, w.accepted, i);
        assert more[..i] == w.accepted[..i];
      }
    }
  }

  lemma HeaderFirst(e: Setup, w: Writer, pieces: seq<Bytes>)
    requires OpenWith(e, w, pieces)
    ensures var (h, out) := EnsureHeader(e, w);
      if out.Done? then
        && h.phase == Open && h.failure.None? && h.accepted == h.offered == Opened(e, pieces) && TakenInTurn(e, h.accepted)
        && h.headerSent && h.nextIndex == |pieces| && e.publisher.Some?
      else FailedOnTheWay(e, h, Opened(e, pieces)) && h.failure == Some(out.failure)
  {
    hide TakenInTurn, FailedFor;
    if !w.headerSent {
      assert Opened(e, pieces) == [] + [Header(e.streamId, e.totalSize)];
      assert TakenInTurn(e, []) by { NothingTaken(e); }
      PublishNext(e, w, HeaderPacket(e), AtHeader);
    } else {
      SomebodyTook(e, w.accepted);
    }
  }

  lemma NothingTaken(e: Setup)
    ensures TakenInTurn(e, [])
  {
  }

  lemma SomebodyTook(e: Setup, packets: seq<Packet>)
    requires TakenInTurn(e, packets) && packets != []
    ensures e.publisher.Some?
  {
  }

  lemma ShorterPlan(e: Setup, w: Writer, planned: seq<Packet>, more: seq<Packet>)
    requires FailedOnTheWay(e, w, planned) && planned <= more
    ensures FailedOnTheWay(e, w, more)
  {
  }

  lemma OpenedOneMore(e: Setup, pieces: seq<Bytes>, content: Bytes)
    ensures Opened(e, pieces + [content]) == Opened(e, pieces) + [Chunk(e.streamId, |pieces|, content)]
  {
    assert (pieces + [content])[..|pieces|] == pieces;
  }

  lemma ChunkNext(e: Setup, w: Writer, pieces: seq<Bytes>, content: Bytes)
    requires OpenWith(e, w, pieces)
    ensures var (w', out) := SendChunk(e, w, content);
      if out.Done? then OpenWith(e, w', pieces + [content])
      else FailedOnTheWay(e, w', Opened(e, pieces + [content])) && w'.failure == Some(out.failure)
  {
    hide TakenInTurn, FailedFor, Opened, Publish, EnsureHeader;
    HeaderFirst(e, w, pieces);
    OpenedOneMore(e, pieces, content);
    var (h, out) := EnsureHeader(e, w);
    if out.Done? {
      PublishNext(e, h, Chunk(e.streamId, h.nextIndex, content), AtChunk);
      var (w1, sent) := Publish(e, h, Chunk(e.streamId, h.nextIndex, content), AtChunk);
      assert sent.Done? ==> SendChunk(e, w, content).0 == w1.(nextIndex := |pieces| + 1) && w1.offered == w1.accepted;
    } else {
      ShorterPlan(e, h, Opened(e, pieces), Opened(e, pieces + [content]));
    }
  }

  lemma {:induction false} ChunksNext(e: Setup, w: Writer, pieces: seq<Bytes>, chunks: seq<Bytes>)
    requires OpenWith(e, w, pieces)
    ensures var (w', out) := SendAll(e, w, chunks);
      if out.Done? then OpenWith(e, w', pieces + chunks)
      else chunks != [] && FailedOnTheWay(e, w', Opened(e, pieces + chunks)) && w'.failure == Some(out.failure)
    decreases |chunks|
  {
    hide OpenWith, FailedOnTheWay, SendChunk, Opened;
    if chunks == [] {
      assert pieces + chunks == pieces;
    } else {
      ChunkNext(e, w, pieces, chunks[0]);
      var (w', out) := SendChunk(e, w, chunks[0]);
      assert pieces + [chunks[0]] + chunks[1..] == pieces + chunks;
      if out.Done? {
        ChunksNext(e, w', pieces + [chunks[0]], chunks[1..]);
      } else {
        OpenedPrefix(e, pieces + [chunks[0]], chunks[1..]);
        ShorterPlan(e, w', Opened(e, pieces + [chunks[0]]), Opened(e, pieces + chunks));
      }
    }
  }

  lemma OpenedPrefix(e: Setup, pieces: seq<Bytes>, more: seq<Bytes>)
    ensures Opened(e, pieces) <= Opened(e, pieces + more)
  {
  }

  /** A stream that ended as planned. */
  ghost predicate ClosedWith(e: Setup, w: Writer, pieces: seq<Bytes>, reason: string)
  {
    && w.phase == Closed && w.failure.None? && w.accepted == w.offered == Opened(e, pieces) + [Trailer(e.streamId, reason)]
    && TakenInTurn(e, w.accepted)
  }

  lemma TrailerNext(e: Setup, w: Writer, pieces: seq<Bytes>, reason: string)
    requires OpenWith(e, w, pieces)
    ensures var (w', out) := CloseWith(e, w, reason);
      if out.Done? then ClosedWith(e, w', pieces, reason)
      else FailedOnTheWay(e, w', Opened(e, pieces) + [Trailer(e.streamId, reason)]) && w'.failure == Some(out.failure)
  {
    hide TakenInTurn, FailedFor, Opened, Publish, EnsureHeader;
    HeaderFirst(e, w, pieces);
    var (h, out) := EnsureHeader(e, w);
    if out.Done? {
      PublishNext(e, h, Trailer(e.streamId, reason), AtTrailer);
      var (w1, o1) := Publish(e, h, Trailer(e.streamId, reason), AtTrailer);
      assert o1.Done? ==> CloseWith(e, w, reason).0 == w1.(phase := Closed) && w1.offered == w1.accepted;
    } else {
      ShorterPlan(e, h, Opened(e, pieces), Opened(e, pieces) + [Trailer(e.streamId, reason)]);
    }
  }

  // ------------------------------------------------------------------------
  // Whole lives.
  // ------------------------------------------------------------------------

  /** Where a writer stands after these operations. */
  ghost predicate AsPlanned(e: Setup, ops: seq<Op>, w: Writer)
    requires Usable(e)
  {
    match w.phase
    case Open => EndOf(ops).None? && OpenWith(e, w, AllPieces(e, ops))
    case Closed => EndOf(ops).Some? && ClosedWith(e, w, AllPieces(e, ops), EndOf(ops).value)
    case Failed => FailedOnTheWay(e, w, Planned(e, ops))
  }

  lemma PlanGrows(e: Setup, ops: seq<Op>, op: Op)
    requires Usable(e)
    ensures Planned(e, ops) <= Planned(e, ops + [op])
    ensures EndOf(ops).Some? ==> EndOf(ops + [op]) == EndOf(ops) && AllPieces(e, ops + [op]) == AllPieces(e, ops)
    ensures EndOf(ops).None? ==> AllPieces(e, ops + [op]) == AllPieces(e, ops) + Pieces(e, op)
  {
    hide Pieces, Opened;
    assert (ops + [op])[..|ops|] == ops;
    OpenedPrefix(e, AllPieces(e, ops), Pieces(e, op));
  }

  lemma StepAsPlanned(e: Setup, ops: seq<Op>, w: Writer, op: Op)
    requires Usable(e) && AsPlanned(e, ops, w)
    ensures var (w', out) := Step(e, w, op);
      && AsPlanned(e, ops + [op], w')
      && out == if w'.phase == Failed && !op.Destroy? then Raised(w'.failure.value) else Done
  {
    hide OpenWith, ClosedWith, FailedFor, Pieces, Opened, SendAll, CloseWith, AllPieces, Planned;
    PlanGrows(e, ops, op);
    assert (ops + [op])[..|ops|] == ops;
    match w.phase
    case Failed => ShorterPlan(e, w, Planned(e, ops), Planned(e, ops + [op]));
    case Closed =>
    case Open => OpenStep(e, ops, w, op);
  }

  lemma OpenStep(e: Setup, ops: seq<Op>, w: Writer, op: Op)
    requires Usable(e) && w.phase == Open && AsPlanned(e, ops, w)
    ensures var (w', out) := Step(e, w, op);
      && AsPlanned(e, ops + [op], w')
      && out == if w'.phase == Failed && !op.Destroy? then Raised(w'.failure.value) else Done
  {
    hide TakenInTurn, FailedFor, Pieces, Opened, SendAll, CloseWith, AllPieces, Planned, EndOf;
    var pieces, ops' := AllPieces(e, ops), ops + [op];
    PlanGrows(e, ops, op);
    PlanReads(e, ops, op);
    match op
    case WriteText(_) => ChunksNext(e, w, pieces, Pieces(e, op));
    case WriteBytes(_) => ChunksNext(e, w, pieces, Pieces(e, op));
    case Close(reason) => TrailerNext(e, w, pieces, reason);
    case Cancel(reason) => TrailerNext(e, w, pieces, if reason == "" then "cancelled" else reason);
    case Destroy => TrailerNext(e, w, pieces, "");
  }

  /** The last operation as the plan reads it. */
  lemma PlanReads(e: Setup, ops: seq<Op>, op: Op)
    requires Usable(e) && EndOf(ops).None?
    ensures var ops', pieces := ops + [op], AllPieces(e, ops);
      match op
      case WriteText(_) => EndOf(ops').None? && (Pieces(e, op) != [] ==> Planned(e, ops') == Opened(e, pieces + Pieces(e, op)))
      case WriteBytes(_) => EndOf(ops').None? && (Pieces(e, op) != [] ==> Planned(e, ops') == Opened(e, pieces + Pieces(e, op)))
      case Close(reason) => EndsWith(e, ops', pieces, reason)
      case Cancel(reason) => EndsWith(e, ops', pieces, if reason == "" then "cancelled" else reason)
      case Destroy => EndsWith(e, ops', pieces, "")
  {
    hide Opened, AllPieces;
    assert (ops + [op])[..|ops|] == ops;
    PlanGrows(e, ops, op);
    if Ends(op) {
      assert AllPieces(e, ops) + [] == AllPieces(e, ops);
    }
  }

  predicate EndsWith(e: Setup, ops: seq<Op>, pieces: seq<Bytes>, reason: string)
    requires Usable(e)
  {
    && EndOf(ops) == Some(reason) && AllPieces(e, ops) == pieces
    && Planned(e, ops) == Opened(e, pieces) + [Trailer(e.streamId, reason)]
  }

  lemma {:induction false} RunAsPlanned(e: Setup, ops: seq<Op>)
    requires Usable(e)
    ensures AsPlanned(e, ops, Run(e, ops))
  {
    hide Step, AsPlanned;
    if ops == [] {
      FreshAsPlanned(e);
    } else {
      var before, op := ops[..|ops| - 1], ops[|ops| - 1];
      assert before + [op] == ops;
      RunAsPlanned(e, before);
      StepAsPlanned(e, before, Run(e, before), op);
    }
  }

  lemma FreshAsPlanned(e: Setup)
    requires Usable(e)
    ensures AsPlanned(e, [], FRESH)
  {
  }

  /**
   The whole wire, under any publisher and any operations: as long as nothing
   failed exactly the planned packets were offered and taken; after a failure they
   are a beginning of the plan in which every packet but the last was taken, and
   the failure is what the publisher said of that one. The plan has ended exactly
   when the writer is closed.
   */
  lemma WireExactly(e: Setup, ops: seq<Op>)
    requires Usable(e)
    ensures var w := Run(e, ops);
      && TakenInTurn(e, w.accepted)
      && (w.phase != Failed ==> w.accepted == w.offered == Planned(e, ops) && (w.phase == Closed <==> EndOf(ops).Some?))
      && (w.phase == Failed ==> w.failure.Some? && w.offered <= Planned(e, ops) && FailedFor(e, w, w.failure.value))
  {
    RunAsPlanned(e, ops);
    hide TakenInTurn, FailedFor, Pieces, Opened, AllPieces;
  }

  /** An operation raises exactly the failure the writer then has; destruction raises nothing. */
  lemma RaisesExactly(e: Setup, ops: seq<Op>, op: Op)
    requires Usable(e)
    ensures var (w', out) := Step(e, Run(e, ops), op);
      && (out.Raised? <==> w'.phase == Failed && !op.Destroy?)
      && (out.Raised? ==> w'.failure == Some(out.failure))
  {
    RunAsPlanned(e, ops);
    StepAsPlanned(e, ops, Run(e, ops), op);
    hide TakenInTurn, FailedFor, Pieces, Opened, AllPieces, Step, Run;
  }

  // ------------------------------------------------------------------------
  // How the pieces are cut.
  // ------------------------------------------------------------------------

  /** All but the last piece have this length at least. */
  predicate LongButLast(pieces: seq<Bytes>, bound: nat)
  {
    forall i :: 0 <= i < |pieces| - 1 ==> |pieces[i]| >= bound
  }

  lemma LongerByOne(first: Bytes, rest: seq<Bytes>, bound: nat)
    requires LongButLast(rest, bound) && (rest != [] ==> |first| >= bound)
    ensures LongButLast([first] + rest, bound)
  {
  }

  /** Byte chunks are full but for the last one. */
  lemma {:induction false} SlicesAreFull(data: Bytes, limit: nat)
    requires limit > 0
    ensures LongButLast(Slices(data, limit), limit)
    decreases |data|
  {
    hide LongButLast;
    if data != [] {
      var n := Min(|data|, limit);
      SlicesAreFull(data[n..], limit);
      LongerByOne(data[..n], Slices(data[n..], limit), limit);
    } else {
      NothingIsShort(limit);
    }
  }

  lemma NothingIsShort(bound: nat)
    ensures LongButLast([], bound)
  {
  }

  lemma CutIsLong(text: Bytes, limit: nat)
    requires Utf8.Valid(text) && limit >= 4
    ensures Utf8.CutSize(text, limit) >= if |text| <= limit then |text| else limit - 3
  {
    hide Utf8.Valid;
    if |text| > limit {
      var lead := Utf8.LeadWithinFour(text, limit);
      assert Utf8.Backtrack(text, limit) >= lead > 0;
    }
  }

  /** Text chunks but the last lack at most three octets, those of a character that would be cut. */
  lemma {:induction false} CutsAreLong(text: Bytes, limit: nat)
    requires Utf8.Valid(text) && limit >= 4
    ensures LongButLast(Utf8.Chunks(text, limit), limit - 3)
    decreases |text|
  {
    hide LongButLast, Utf8.Valid, Utf8.CutSize;
    if text != [] {
      var n := Utf8.CutSize(text, limit);
      Utf8.CutKeepsCharacters(text, limit);
      CutIsLong(text, limit);
      CutsAreLong(text[n..], limit);
      LongerByOne(text[..n], Utf8.Chunks(text[n..], limit), limit - 3);
    } else {
      NothingIsShort(limit - 3);
    }
  }
}
