/**
 Outgoing data streams (src/core/data_stream.cpp:642-865). The publisher is an
 arbitrary function of what it was offered before, so every pattern of refusals
 and exceptions is covered. A C++ exception is an Outcome here.
 */
module StreamWriters {
  import opened Common
  import Utf8

  datatype Packet =
    | Header(streamId: string, totalLength: Option<nat>)
    | Chunk(streamId: string, index: nat, content: Bytes)
    | Trailer(streamId: string, reason: string)

  datatype Stage = AtHeader | AtChunk | AtTrailer

  datatype Failure =
    | Unavailable(stage: Stage)
    | Rejected(stage: Stage)
    | Thrown(code: int)

  datatype Verdict = Accept | Refuse | Throw(code: int)

  type Publisher = (seq<Packet>, Packet) -> Verdict

  datatype Outcome = Done | Raised(failure: Failure) {
    predicate IsFailure() { Raised? }
    function PropagateFailure(): Outcome requires Raised? { this }
  }

  datatype Phase = Open | Closed | Failed

  /** What a writer is constructed with. */
  datatype Setup = Setup(publisher: Option<Publisher>, streamId: string, totalSize: Option<nat>, chunkSize: nat)

  ghost predicate Usable(e: Setup) { e.chunkSize >= 4 }

  datatype Writer = Writer(
    phase: Phase,
    failure: Option<Failure>,
    headerSent: bool,
    nextIndex: nat,
    offered: seq<Packet>,   // every packet handed to the publisher
    accepted: seq<Packet>)  // those it took

  const FRESH := Writer(Open, None, false, 0, [], [])

  // ------------------------------------------------------------------------
  // One packet.
  // ------------------------------------------------------------------------

  function Fail(w: Writer, f: Failure): (Writer, Outcome)
  {
    if w.phase == Failed && w.failure.Some? then (w, Raised(w.failure.value))
    else (w.(phase := Failed, failure := Some(f)), Raised(f))
  }

  function Publish(e: Setup, w: Writer, p: Packet, stage: Stage): (Writer, Outcome)
  {
    if e.publisher.None? then Fail(w, Unavailable(stage))
    else
      var tried := w.(offered := w.offered + [p]);
      match e.publisher.value(w.offered, p)
      case Accept => (tried.(accepted := w.accepted + [p]), Done)
      case Refuse => Fail(tried, Rejected(stage))
      case Throw(code) => Fail(tried, Thrown(code))
  }

  function HeaderPacket(e: Setup): Packet { Header(e.streamId, e.totalSize) }

  function EnsureHeader(e: Setup, w: Writer): (Writer, Outcome)
  {
    if w.headerSent then (w, Done)
    else
      var (w', out) := Publish(e, w, HeaderPacket(e), AtHeader);
      if out.Raised? then (w', out) else (w'.(headerSent := true), Done)
  }

  function SendChunk(e: Setup, w: Writer, content: Bytes): (Writer, Outcome)
  {
    var (h, out) := EnsureHeader(e, w);
    if out.Raised? then (h, out)
    else
      var (w', sent) := Publish(e, h, Chunk(e.streamId, h.nextIndex, content), AtChunk);
      if sent.Raised? then (w', sent) else (w'.(nextIndex := h.nextIndex + 1), Done)
  }

  function SendTrailer(e: Setup, w: Writer, reason: string): (Writer, Outcome)
  {
    var (h, out) := EnsureHeader(e, w);
    if out.Raised? then (h, out) else Publish(e, h, Trailer(e.streamId, reason), AtTrailer)
  }

  /** Chunks are sent until one raises. */
  function SendAll(e: Setup, w: Writer, chunks: seq<Bytes>): (Writer, Outcome)
    decreases |chunks|
  {
    if chunks == [] then (w, Done)
    else
      var (w', out) := SendChunk(e, w, chunks[0]);
      if out.Raised? then (w', out) else SendAll(e, w', chunks[1..])
  }

  /** Byte payloads are cut at the chunk size alone. */
  function Slices(data: Bytes, limit: nat): (slices: seq<Bytes>)
    requires limit > 0
    decreases |data|
  {
    if data == [] then []
    else var n := Min(|data|, limit); [data[..n]] + Slices(data[n..], limit)
  }

  // ------------------------------------------------------------------------
  // The public operations, and whole lives of a writer.
  // ------------------------------------------------------------------------

  datatype Op =
    | WriteText(text: Bytes)
    | WriteBytes(data: Bytes)
    | Close(reason: string)
    | Cancel(reason: string)
    | Destroy

  function Pieces(e: Setup, op: Op): seq<Bytes>
    requires Usable(e)
  {
    match op
    case WriteText(text) => Utf8.Chunks(text, e.chunkSize)
    case WriteBytes(data) => Slices(data, e.chunkSize)
    case _ => []
  }

  function CloseWith(e: Setup, w: Writer, reason: string): (Writer, Outcome)
  {
    var (w', out) := SendTrailer(e, w, reason);
    if out.Raised? then (w', out) else (w'.(phase := Closed), Done)
  }

  function Step(e: Setup, w: Writer, op: Op): (Writer, Outcome)
    requires Usable(e)
  {
    match w.phase
    case Failed =>
      if op.Destroy? || w.failure.None? then (w, Done) else (w, Raised(w.failure.value))
    case Closed => (w, Done)
    case Open =>
      match op
      case WriteText(_) => SendAll(e, w, Pieces(e, op))
      case WriteBytes(_) => SendAll(e, w, Pieces(e, op))
      case Close(reason) => CloseWith(e, w, reason)
      case Cancel(reason) => CloseWith(e, w, if reason == "" then "cancelled" else reason)
      case Destroy => (CloseWith(e, w, "").0, Done)
  }

  function Run(e: Setup, ops: seq<Op>): (w: Writer)
    requires Usable(e)
  {
    if ops == [] then FRESH else Step(e, Run(e, ops[..|ops| - 1]), ops[|ops| - 1]).0
  }

  // ------------------------------------------------------------------------
  // The wire grammar.
  // ------------------------------------------------------------------------

  /** A prefix of one header, chunks numbered 0, 1, 2, ..., one trailer. */
  ghost predicate Transcript(e: Setup, packets: seq<Packet>)
  {
    forall i :: 0 <= i < |packets| ==> Fits(e, packets[i], i, i == |packets| - 1)
  }

  /** Packet number i of a stream; only the last packet may be a trailer. */
  predicate Fits(e: Setup, p: Packet, i: nat, last: bool)
  {
    && p.streamId == e.streamId
    && if i == 0 then p == HeaderPacket(e) else (p.Chunk? && p.index == i - 1) || (p.Trailer? && last)
  }

  ghost predicate Ended(packets: seq<Packet>)
  {
    packets != [] && packets[|packets| - 1].Trailer?
  }

  ghost predicate Inv(e: Setup, w: Writer)
  {
    && Transcript(e, w.offered)
    && (w.phase == Failed <==> w.failure.Some?)
    && (w.phase != Failed ==> w.offered == w.accepted)
    && (w.offered == w.accepted || (w.offered != [] && w.offered[..|w.offered| - 1] == w.accepted))
    && (w.phase == Open ==> !Ended(w.offered) && w.headerSent == (w.offered != []))
    && (w.phase == Open && w.headerSent ==> w.nextIndex == |w.offered| - 1)
    && (w.phase == Open && !w.headerSent ==> w.nextIndex == 0)
    && (w.phase == Closed ==> Ended(w.accepted))
    && (w.phase == Failed ==> !Ended(w.accepted))
  }

  lemma EnsureHeaderKeeps(e: Setup, w: Writer)
    requires Inv(e, w) && w.phase == Open
    ensures var (h, out) := EnsureHeader(e, w);
      && Inv(e, h)
      && (out.Done? ==> h.phase == Open && h.headerSent)
      && (out.Raised? ==> h.phase == Failed && h.failure == Some(out.failure))
  {
  }

  lemma SendChunkKeeps(e: Setup, w: Writer, content: Bytes)
    requires Inv(e, w) && w.phase == Open
    ensures var (w', out) := SendChunk(e, w, content);
      && Inv(e, w')
      && (out.Done? ==> w'.phase == Open)
      && (out.Raised? ==> w'.phase == Failed && w'.failure == Some(out.failure))
  {
    EnsureHeaderKeeps(e, w);
    hide EnsureHeader;
  }

  lemma {:induction false} SendAllKeeps(e: Setup, w: Writer, chunks: seq<Bytes>)
    requires Inv(e, w) && w.phase == Open
    ensures var (w', out) := SendAll(e, w, chunks);
      && Inv(e, w')
      && (out.Done? ==> w'.phase == Open)
      && (out.Raised? ==> w'.phase == Failed && w'.failure == Some(out.failure))
    decreases |chunks|
  {
    if chunks != [] {
      SendChunkKeeps(e, w, chunks[0]);
      var (w', out) := SendChunk(e, w, chunks[0]);
      if out.Done? {
        SendAllKeeps(e, w', chunks[1..]);
      }
    }
  }

  lemma CloseKeeps(e: Setup, w: Writer, reason: string)
    requires Inv(e, w) && w.phase == Open
    ensures var (w', out) := CloseWith(e, w, reason);
      && Inv(e, w')
      && (out.Done? ==> w'.phase == Closed)
      && (out.Raised? ==> w'.phase == Failed && w'.failure == Some(out.failure))
  {
    EnsureHeaderKeeps(e, w);
    hide EnsureHeader;
  }

  /** Every operation keeps the grammar; the failure it raises is the one that sticks. */
  lemma StepKeeps(e: Setup, w: Writer, op: Op)
    requires Usable(e) && Inv(e, w)
    ensures var (w', out) := Step(e, w, op);
      && Inv(e, w')
      && (out.Raised? ==> w'.phase == Failed && w'.failure == Some(out.failure))
  {
    if w.phase == Open {
      match op
      case WriteText(_) => SendAllKeeps(e, w, Pieces(e, op));
      case WriteBytes(_) => SendAllKeeps(e, w, Pieces(e, op));
      case Close(reason) => CloseKeeps(e, w, reason);
      case Cancel(reason) => CloseKeeps(e, w, if reason == "" then "cancelled" else reason);
      case Destroy => CloseKeeps(e, w, "");
    }
  }

  lemma {:induction false} RunKeeps(e: Setup, ops: seq<Op>)
    requires Usable(e)
    ensures Inv(e, Run(e, ops))
  {
    if ops != [] {
      RunKeeps(e, ops[..|ops| - 1]);
      StepKeeps(e, Run(e, ops[..|ops| - 1]), ops[|ops| - 1]);
    }
  }

  /**
   Whatever the publisher does and whatever is called: the packets offered follow
   the grammar, at most the last one was not taken, and a clean end is a trailer.
   */
  lemma WriterGrammar(e: Setup, ops: seq<Op>)
    requires Usable(e)
    ensures var w := Run(e, ops);
      && Transcript(e, w.offered)
      && Transcript(e, w.accepted)
      && (w.offered == w.accepted || exists p :: w.offered == w.accepted + [p] && w.phase == Failed)
      && (w.phase == Closed <==> Ended(w.accepted))
  {
    RunKeeps(e, ops);
    var w := Run(e, ops);
    if w.offered != w.accepted {
      assert w.offered == w.accepted + [w.offered[|w.offered| - 1]];
    }
  }

  /** After a failure nothing is ever offered again and every explicit call raises that same failure. */
  lemma {:induction false} FailureSticks(e: Setup, ops: seq<Op>, later: seq<Op>)
    requires Usable(e) && Run(e, ops).phase == Failed
    ensures Run(e, ops + later) == Run(e, ops)
    ensures forall op: Op :: !op.Destroy? ==>
      Run(e, ops).failure.Some? && Step(e, Run(e, ops + later), op) == (Run(e, ops), Raised(Run(e, ops).failure.value))
    decreases |later|
  {
    RunKeeps(e, ops);
    if later == [] {
      assert ops + later == ops;
    } else {
      var shorter := later[..|later| - 1];
      FailureSticks(e, ops, shorter);
      assert (ops + later)[..|ops + later| - 1] == ops + shorter;
    }
  }

  // ------------------------------------------------------------------------
  // What arrives is what was written.
  // ------------------------------------------------------------------------

  function Payload(packets: seq<Packet>): Bytes
  {
    if packets == [] then []
    else
      var last := packets[|packets| - 1];
      Payload(packets[..|packets| - 1]) + (if last.Chunk? then last.content else [])
  }

  function Ends(op: Op): bool { op.Close? || op.Cancel? || op.Destroy? }

  function Data(op: Op): Bytes
  {
    match op
    case WriteText(text) => text
    case WriteBytes(data) => data
    case _ => []
  }

  /** The data of the writes up to the first operation that ends the stream. */
  function Written(ops: seq<Op>): Bytes
  {
    if ops == [] then []
    else if Ends(ops[0]) then []
    else Data(ops[0]) + Written(ops[1..])
  }

  lemma {:induction false} SlicesAddUp(data: Bytes, limit: nat)
    requires limit > 0
    ensures Concat(Slices(data, limit)) == data
    ensures forall c :: c in Slices(data, limit) ==> 0 < |c| <= limit
    decreases |data|
  {
    if data != [] {
      var n := Min(|data|, limit);
      SlicesAddUp(data[n..], limit);
      assert Slices(data, limit)[1..] == Slices(data[n..], limit);
      assert data[..n] + data[n..] == data;
    }
  }

  lemma PiecesAddUp(e: Setup, op: Op)
    requires Usable(e)
    ensures Concat(Pieces(e, op)) == Data(op)
    ensures forall c :: c in Pieces(e, op) ==> 0 < |c| <= e.chunkSize
  {
    match op
    case WriteText(text) => Utf8.ChunksAddUp(text, e.chunkSize);
    case WriteBytes(data) => SlicesAddUp(data, e.chunkSize);
    case _ =>
  }

  lemma PayloadSnoc(packets: seq<Packet>, p: Packet)
    ensures Payload(packets + [p]) == Payload(packets) + (if p.Chunk? then p.content else [])
  {
    assert (packets + [p])[..|packets|] == packets;
  }

  lemma PublishPayload(e: Setup, w: Writer, p: Packet, stage: Stage)
    ensures var (w', out) := Publish(e, w, p, stage);
      Payload(w'.accepted) == Payload(w.accepted) + (if out.Done? && p.Chunk? then p.content else [])
  {
    PayloadSnoc(w.accepted, p);
  }

  lemma HeaderPayload(e: Setup, w: Writer)
    ensures Payload(EnsureHeader(e, w).0.accepted) == Payload(w.accepted)
  {
    PublishPayload(e, w, HeaderPacket(e), AtHeader);
  }

  lemma SendChunkPayload(e: Setup, w: Writer, content: Bytes)
    ensures var (w', out) := SendChunk(e, w, content);
      Payload(w'.accepted) == Payload(w.accepted) + (if out.Done? then content else [])
  {
    HeaderPayload(e, w);
    var h := EnsureHeader(e, w).0;
    PublishPayload(e, h, Chunk(e.streamId, h.nextIndex, content), AtChunk);
  }

  lemma {:induction false} SendAllPayload(e: Setup, w: Writer, chunks: seq<Bytes>)
    ensures var (w', out) := SendAll(e, w, chunks);
      && Payload(w.accepted) <= Payload(w'.accepted) <= Payload(w.accepted) + Concat(chunks)
      && (out.Done? ==> Payload(w'.accepted) == Payload(w.accepted) + Concat(chunks))
    decreases |chunks|
  {
    hide SendChunk, Payload;
    if chunks != [] {
      SendChunkPayload(e, w, chunks[0]);
      var (w', out) := SendChunk(e, w, chunks[0]);
      if out.Done? {
        SendAllPayload(e, w', chunks[1..]);
        AppendAssociates(Payload(w.accepted), chunks[0], Concat(chunks[1..]));
      }
    }
  }

  lemma ClosePayload(e: Setup, w: Writer, reason: string)
    ensures Payload(CloseWith(e, w, reason).0.accepted) == Payload(w.accepted)
  {
    HeaderPayload(e, w);
    PublishPayload(e, EnsureHeader(e, w).0, Trailer(e.streamId, reason), AtTrailer);
  }

  ghost predicate HasEnd(ops: seq<Op>) { exists i :: 0 <= i < |ops| && Ends(ops[i]) }

  lemma {:induction false} WrittenSnoc(ops: seq<Op>, op: Op)
    ensures Written(ops + [op]) == Written(ops) + (if HasEnd(ops) || Ends(op) then [] else Data(op))
  {
    if ops != [] {
      assert (ops + [op])[1..] == ops[1..] + [op];
      if !Ends(ops[0]) {
        WrittenSnoc(ops[1..], op);
        if HasEnd(ops) {
          var i :| 0 <= i < |ops| && Ends(ops[i]);
          assert Ends(ops[1..][i - 1]);
        }
        if HasEnd(ops[1..]) {
          var i :| 0 <= i < |ops[1..]| && Ends(ops[1..][i]);
          assert Ends(ops[i + 1]);
        }
      }
    }
  }

  lemma HasEndSnoc(ops: seq<Op>, op: Op)
    ensures HasEnd(ops + [op]) <==> HasEnd(ops) || Ends(op)
  {
    if HasEnd(ops) {
      var i :| 0 <= i < |ops| && Ends(ops[i]);
      assert Ends((ops + [op])[i]);
    }
    assert (ops + [op])[|ops|] == op;
  }

  /**
   No octet is lost, repeated or reordered: the accepted payload is a prefix of
   what was written, and all of it as long as no packet failed.
   */
  lemma {:induction false} PayloadIsWritten(e: Setup, ops: seq<Op>)
    requires Usable(e)
    ensures var w := Run(e, ops);
      && Payload(w.accepted) <= Written(ops)
      && (w.phase != Failed ==> Payload(w.accepted) == Written(ops))
      && (w.phase == Open ==> !HasEnd(ops))
      && (w.phase == Closed ==> HasEnd(ops))
  {
    hide Step, Inv;
    if ops != [] {
      var before, op := ops[..|ops| - 1], ops[|ops| - 1];
      assert ops == before + [op];
      PayloadIsWritten(e, before);
      RunKeeps(e, before);
      assert Run(e, ops) == Step(e, Run(e, before), op).0;
      hide Run, Payload, Written, HasEnd;
      WrittenSnoc(before, op);
      HasEndSnoc(before, op);
      StepPayload(e, Run(e, before), op);
      StepPhase(e, Run(e, before), op);
    }
  }

  lemma WritePayload(e: Setup, w: Writer, pieces: seq<Bytes>, data: Bytes)
    requires Inv(e, w) && w.phase == Open && Concat(pieces) == data
    ensures var w' := SendAll(e, w, pieces).0;
      && Payload(w.accepted) <= Payload(w'.accepted) <= Payload(w.accepted) + data
      && (w'.phase != Failed ==> Payload(w'.accepted) == Payload(w.accepted) + data)
  {
    SendAllKeeps(e, w, pieces);
    SendAllPayload(e, w, pieces);
  }

  lemma StepPayload(e: Setup, w: Writer, op: Op)
    requires Usable(e) && Inv(e, w)
    ensures var (w', out) := Step(e, w, op);
      var added := if w.phase == Open then Data(op) else [];
      && Payload(w.accepted) <= Payload(w'.accepted) <= Payload(w.accepted) + added
      && (w'.phase != Failed ==> Payload(w'.accepted) == Payload(w.accepted) + added)
  {
    if w.phase == Open {
      match op
      case WriteText(text) =>
        PiecesAddUp(e, op);
        WritePayload(e, w, Pieces(e, op), text);
      case WriteBytes(data) =>
        PiecesAddUp(e, op);
        WritePayload(e, w, Pieces(e, op), data);
      case Close(reason) => ClosePayload(e, w, reason);
      case Cancel(reason) => ClosePayload(e, w, if reason == "" then "cancelled" else reason);
      case Destroy => ClosePayload(e, w, "");
    }
  }

  lemma StepPhase(e: Setup, w: Writer, op: Op)
    requires Usable(e) && Inv(e, w)
    ensures var w' := Step(e, w, op).0;
      && (w'.phase == Open ==> w.phase == Open && !Ends(op))
      && (w'.phase == Closed ==> w.phase == Closed || Ends(op))
      && (w.phase == Failed ==> w' == w)
  {
    if w.phase == Open {
      match op
      case WriteText(_) => SendAllKeeps(e, w, Pieces(e, op));
      case WriteBytes(_) => SendAllKeeps(e, w, Pieces(e, op));
      case Close(reason) => CloseKeeps(e, w, reason);
      case Cancel(reason) => CloseKeeps(e, w, if reason == "" then "cancelled" else reason);
      case Destroy => CloseKeeps(e, w, "");
    }
  }

  // ------------------------------------------------------------------------
  // The writer object. Each method holds the write mutex throughout.
  // ------------------------------------------------------------------------

  lemma SendAllHead(e: Setup, w: Writer, first: Bytes, rest: seq<Bytes>)
    ensures SendAll(e, w, [first] + rest) ==
      var (w', out) := SendChunk(e, w, first); if out.Raised? then (w', out) else SendAll(e, w', rest)
  {
    assert ([first] + rest)[1..] == rest;
  }

  lemma SendAllDone(e: Setup, w: Writer, text: Bytes)
    requires Usable(e) && text == []
    ensures SendAll(e, w, Utf8.Chunks(text, e.chunkSize)) == (w, Done)
  {
  }

  lemma SlicesDone(e: Setup, w: Writer, data: Bytes)
    requires Usable(e) && data == []
    ensures SendAll(e, w, Slices(data, e.chunkSize)) == (w, Done)
  {
  }

  lemma SlicesStep(data: Bytes, offset: nat, limit: nat)
    requires offset < |data| && limit > 0
    ensures var size := Min(|data| - offset, limit);
      && Slices(data[offset..], limit) == [data[offset..offset + size]] + Slices(data[offset + size..], limit)
  {
    var size := Min(|data| - offset, limit);
    assert data[offset..][..size] == data[offset..offset + size];
    assert data[offset..][size..] == data[offset + size..];
  }

  lemma ChunksStep(text: Bytes, offset: nat, limit: nat)
    requires offset < |text| && limit > 0
    ensures var size := Utf8.CutSize(text[offset..], limit);
      && size <= |text| - offset
      && Utf8.Chunks(text[offset..], limit)
         == [text[offset..offset + size]] + Utf8.Chunks(text[offset + size..], limit)
  {
    hide Utf8.CutSize;
    var size := Utf8.CutSize(text[offset..], limit);
    RestOfRest(text, offset, size);
  }

  lemma RestOfRest(text: Bytes, offset: nat, size: nat)
    requires offset + size <= |text|
    ensures text[offset..][..size] == text[offset..offset + size]
    ensures text[offset..][size..] == text[offset + size..]
  {
  }

  class BaseStreamWriter {
    const setup: Setup
    var phase: Phase
    var firstFailure: Option<Failure>
    var headerSent: bool
    var nextChunkIndex: nat
    var offered: seq<Packet>
    var accepted: seq<Packet>

    function View(): Writer
      reads this
    {
      Writer(phase, firstFailure, headerSent, nextChunkIndex, offered, accepted)
    }

    ghost predicate Valid()
      reads this
    {
      setup.chunkSize >= 4 && (phase == Failed <==> firstFailure.Some?)
    }

    constructor (setup: Setup)
      requires Usable(setup)
      ensures Valid() && this.setup == setup && View() == FRESH
    {
      this.setup := setup;
      phase, firstFailure, headerSent, nextChunkIndex := Open, None, false, 0;
      offered, accepted := [], [];
    }

    method FailLocked(error: Failure) returns (out: Outcome)
      requires Valid()
      modifies this
      ensures Valid() && (View(), out) == Fail(old(View()), error)
    {
      if phase != Failed {
        firstFailure := Some(error);
        phase := Failed;
      }
      return Raised(firstFailure.value);
    }

    method PublishPacket(packet: Packet, stage: Stage) returns (out: Outcome)
      requires Valid()
      modifies this
      ensures Valid() && (View(), out) == Publish(setup, old(View()), packet, stage)
    {
      if setup.publisher.None? {
        out := FailLocked(Unavailable(stage));
        return;
      }
      var verdict := setup.publisher.value(offered, packet);
      offered := offered + [packet];
      match verdict
      case Accept =>
        accepted := accepted + [packet];
        return Done;
      case Refuse => out := FailLocked(Rejected(stage));
      case Throw(code) => out := FailLocked(Thrown(code));
    }

    method EnsureHeaderSent() returns (out: Outcome)
      requires Valid()
      modifies this
      ensures Valid() && (View(), out) == EnsureHeader(setup, old(View()))
    {
      if headerSent {
        return Done;
      }
      :- PublishPacket(HeaderPacket(setup), AtHeader);
      headerSent := true;
      return Done;
    }

    method Send(content: Bytes) returns (out: Outcome)
      requires Valid()
      modifies this
      ensures Valid() && (View(), out) == SendChunk(setup, old(View()), content)
    {
      out := EnsureHeaderSent();
      if out.Raised? {
        return;
      }
      :- PublishPacket(Chunk(setup.streamId, nextChunkIndex, content), AtChunk);
      nextChunkIndex := nextChunkIndex + 1;
      return Done;
    }

    method Close(reason: string) returns (out: Outcome)
      requires Valid()
      modifies this
      ensures Valid() && (View(), out) == Step(setup, old(View()), Op.Close(reason))
    {
      if phase == Failed {
        return Raised(firstFailure.value);
      }
      if phase == Closed {
        return Done;
      }
      :- EnsureHeaderSent();
      :- PublishPacket(Trailer(setup.streamId, reason), AtTrailer);
      phase := Closed;
      return Done;
    }

    method Cancel(reason: string) returns (out: Outcome)
      requires Valid()
      modifies this
      ensures Valid() && (View(), out) == Step(setup, old(View()), Op.Cancel(reason))
    {
      out := Close(if reason == "" then "cancelled" else reason);
    }

    /** Destruction closes an open stream and swallows what that raises. */
    method Finalize()
      requires Valid()
      modifies this
      ensures Valid() && View() == Step(setup, old(View()), Destroy).0
    {
      if phase == Open {
        var ignored := Close("");
      }
    }

    method WriteText(text: Bytes) returns (out: Outcome)
      requires Valid()
      modifies this
      ensures Valid() && (View(), out) == Step(setup, old(View()), Op.WriteText(text))
    {
      if phase == Failed {
        return Raised(firstFailure.value);
      }
      if phase == Closed || text == [] {
        return Done;
      }
      out := SendText(text);
    }

    /** The cutting loop of the text write. */
    method SendText(text: Bytes) returns (out: Outcome)
      requires Valid()
      modifies this
      ensures Valid() && (View(), out) == SendAll(setup, old(View()), Utf8.Chunks(text, setup.chunkSize))
    {
      hide SendAll, SendChunk, Utf8.Chunks, Utf8.CutSize;
      var offset := 0;
      assert text[offset..] == text;
      ghost var all := Utf8.Chunks(text, setup.chunkSize);
      ghost var rest := all;
      while offset < |text|
        invariant Valid() && offset <= |text|
        invariant rest == Utf8.Chunks(text[offset..], setup.chunkSize)
        invariant SendAll(setup, old(View()), all) == SendAll(setup, View(), rest)
      {
        var size := Utf8.Utf8AwareChunkSize(text, offset, setup.chunkSize);
        ChunksStep(text, offset, setup.chunkSize);
        SendAllHead(setup, View(), text[offset..offset + size], rest[1..]);
        :- Send(text[offset..offset + size]);
        rest := rest[1..];
        offset := offset + size;
      }
      SendAllDone(setup, View(), text[offset..]);
      return Done;
    }

    method WriteBytes(data: Bytes) returns (out: Outcome)
      requires Valid()
      modifies this
      ensures Valid() && (View(), out) == Step(setup, old(View()), Op.WriteBytes(data))
    {
      if phase == Failed {
        return Raised(firstFailure.value);
      }
      if phase == Closed || data == [] {
        return Done;
      }
      out := SendBytes(data);
    }

    /** The cutting loop of the byte write. */
    method SendBytes(data: Bytes) returns (out: Outcome)
      requires Valid()
      modifies this
      ensures Valid() && (View(), out) == SendAll(setup, old(View()), Slices(data, setup.chunkSize))
    {
      hide SendAll, SendChunk, Slices;
      var offset := 0;
      assert data[offset..] == data;
      ghost var all := Slices(data, setup.chunkSize);
      ghost var rest := all;
      while offset < |data|
        invariant Valid() && offset <= |data|
        invariant rest == Slices(data[offset..], setup.chunkSize)
        invariant SendAll(setup, old(View()), all) == SendAll(setup, View(), rest)
      {
        var size := Min(|data| - offset, setup.chunkSize);
        SlicesStep(data, offset, setup.chunkSize);
        SendAllHead(setup, View(), data[offset..offset + size], rest[1..]);
        :- Send(data[offset..offset + size]);
        rest := rest[1..];
        offset := offset + size;
      }
      SlicesDone(setup, View(), data[offset..]);
      return Done;
    }
  }
}
