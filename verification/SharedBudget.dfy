/**
 Many readers and many unfinished ReadAll calls on one budget. The budget has a
 mutex of its own, so a reader that holds its mutex shares the budget with all
 others between two of its budget calls: reserving, rolling back, returning bytes
 and returning a slot are steps of their own
 (src/core/data_stream.cpp:120-145, 180-252, 294-394).
 */
module SharedBudget {
  import opened Common
  import opened StreamReaders
  import Utf8

  type Id = nat

  /** Where a ReadAll call stands between two lock regions. */
  datatype Progress =
    | Gathering
    | Holding(chunk: Bytes)                  // taken from the queue, not yet appended
    | Doomed(chunk: Bytes, over: bool)       // the reader is marked, the bytes not yet returned
    | AtEnd                                  // saw an empty queue of a closed reader
    | Reporting(failed: bool, reason: Reason)

  datatype Call = Call(reader: Id, result: Bytes, accounted: nat, progress: Progress)

  function Held(c: Call): nat
  {
    c.accounted + if c.progress.Holding? || c.progress.Doomed? then |c.progress.chunk| else 0
  }

  /** What a thread inside a reader's region has still to do with the budget. */
  datatype Region =
    | Storing(data: Bytes)             // reserved, not yet in the queue
    | Owing(bytes: nat, slot: bool)    // left the queue or rolled back, not yet returned

  function InTransit(g: Region): nat { if g.Storing? then |g.data| else g.bytes }

  function SlotInTransit(g: Region): nat { if g.Owing? && g.slot then 1 else 0 }

  /** The mutex of a reader is held exactly while it has a region. */
  datatype Room = Room(budget: Budget, readers: map<Id, Reader>, calls: map<Id, Call>, regions: map<Id, Region>)

  datatype Action =
    | Open(id: Id, isText: bool, declared: Option<nat>)
    | Chunk(id: Id, index: nat, data: Bytes)
    | Store(id: Id, stored: bool)
    | ReadNext(id: Id)
    | EndStream(id: Id, text: string)
    | StreamError(id: Id, text: string)
    | Destroy(id: Id)
    | GiveBytes(id: Id)
    | GiveSlot(id: Id)
    | StartReadAll(call: Id, id: Id)
    | TakeChunk(call: Id)
    | AppendChunk(call: Id, stored: bool)
    | ReturnDoomed(call: Id)
    | SeeEnd(call: Id)
    | ReadFlags(call: Id)
    | Finish(call: Id)

  predicate Free(s: Room, id: Id) { id in s.readers && id !in s.regions }

  predicate Reads(s: Room, call: Id)
  {
    call in s.calls && s.calls[call].reader in s.readers
  }

  /** The call can enter the region of its reader. */
  predicate Enters(s: Room, call: Id) { Reads(s, call) && Free(s, s.calls[call].reader) }

  /** The chunk in hand takes the call over the limit of ReadAll. */
  predicate Overruns(l: Limits, s: Room, call: Id)
    requires call in s.calls && s.calls[call].progress.Holding?
  {
    OverReadLimit(l, |s.calls[call].result|, |s.calls[call].progress.chunk|)
  }

  /** The states in which each action can happen at all. Appending needs the mutex only to mark the reader. */
  predicate Enabled(l: Limits, s: Room, a: Action)
  {
    match a
    case Open(id, _, _) => id !in s.readers && id !in s.regions
    case Chunk(id, _, _) => Free(s, id)
    case Store(id, _) => id in s.readers && id in s.regions && s.regions[id].Storing?
    case ReadNext(id) => Free(s, id) && s.readers[id].queue != []
    case EndStream(id, _) => Free(s, id)
    case StreamError(id, _) => Free(s, id)
    case Destroy(id) => Free(s, id) && forall c :: c in s.calls ==> s.calls[c].reader != id
    case GiveBytes(id) => id in s.regions && s.regions[id].Owing? && s.regions[id].bytes > 0
    case GiveSlot(id) => id in s.regions && s.regions[id].Owing? && s.regions[id].slot
    case StartReadAll(call, id) => call !in s.calls && id in s.readers
    case TakeChunk(call) =>
      Enters(s, call) && s.calls[call].progress.Gathering? && s.readers[s.calls[call].reader].queue != []
    case AppendChunk(call, stored) =>
      Reads(s, call) && s.calls[call].progress.Holding? && ((stored && !Overruns(l, s, call)) || Enters(s, call))
    case ReturnDoomed(call) => Reads(s, call) && s.calls[call].progress.Doomed?
    case SeeEnd(call) =>
      && Enters(s, call) && s.calls[call].progress.Gathering?
      && s.readers[s.calls[call].reader].queue == [] && s.readers[s.calls[call].reader].closed
    case ReadFlags(call) => Enters(s, call) && s.calls[call].progress.AtEnd?
    case Finish(call) => Reads(s, call) && s.calls[call].progress.Reporting?
  }

  /** Leaving a region, or staying in it for what is still owed. */
  function Settle(regions: map<Id, Region>, id: Id, bytes: nat, slot: bool): map<Id, Region>
  {
    if bytes == 0 && !slot then regions - {id} else regions[id := Owing(bytes, slot)]
  }

  /** The reader has moved on; its bytes and its slot are still to be returned. */
  function Moved(s: Room, id: Id, r: Reader, bytes: nat): Room
    requires id in s.readers
  {
    s.(readers := s.readers[id := r], regions := Settle(s.regions, id, bytes, s.readers[id].registered && !r.registered))
  }

  function Refused(s: Room, id: Id, reason: Reason, bytes: nat): Room
    requires id in s.readers
  {
    Moved(s, id, Fail(s.budget, s.readers[id], reason).1, bytes)
  }

  ghost function Arriving(l: Limits, s: Room, id: Id, index: nat, data: Bytes): Room
    requires Free(s, id)
  {
    var r := s.readers[id];
    match Judge(l, r, index, data)
    case Ignore => s
    case Deny(reason) => Refused(s, id, reason, 0)
    case Skip => s.(readers := s.readers[id := r.(nextIndex := r.nextIndex + 1)])
    case Offer =>
      if !HasRoom(l, s.budget, |data|) then Refused(s, id, BufferLimitExceeded, 0)
      else s.(budget := Reserve(s.budget, |data|), regions := s.regions[id := Storing(data)])
  }

  function Stored(s: Room, id: Id, stored: bool): Room
    requires id in s.readers && id in s.regions && s.regions[id].Storing?
  {
    if stored then s.(readers := s.readers[id := Enqueue(s.readers[id], s.regions[id].data)], regions := s.regions - {id})
    else Refused(s, id, AllocationFailed, |s.regions[id].data|)
  }

  function WithCall(s: Room, call: Id, c: Call): Room
  {
    s.(calls := s.calls[call := c])
  }

  function Append(l: Limits, s: Room, call: Id, stored: bool): Room
    requires Reads(s, call) && s.calls[call].progress.Holding?
  {
    var c := s.calls[call];
    var chunk, r := c.progress.chunk, s.readers[c.reader];
    if Overruns(l, s, call) then
      WithCall(Moved(s, c.reader, MarkReadAllLimit(s.budget, r).1, 0), call, c.(progress := Doomed(chunk, true)))
    else if !stored then
      WithCall(Refused(s, c.reader, AllocationFailed, 0), call, c.(progress := Doomed(chunk, false)))
    else
      WithCall(s, call, c.(result := c.result + chunk, accounted := c.accounted + |chunk|, progress := Gathering))
  }

  ghost function Handed(l: Limits, s: Room, id: Id): Room
    requires Free(s, id) && s.readers[id].queue != [] && Coherent(l, s.readers[id])
  {
    DequeueIsSafe(l, s.readers[id]);
    Moved(s, id, Dequeue(s.readers[id]), |s.readers[id].queue[0]|)
  }

  /** ReadAll takes a chunk; its bytes stay reserved. */
  ghost function Taken(l: Limits, s: Room, call: Id): Room
    requires Reads(s, call) && Coherent(l, s.readers[s.calls[call].reader]) && s.readers[s.calls[call].reader].queue != []
  {
    var c := s.calls[call];
    var r := s.readers[c.reader];
    DequeueIsSafe(l, r);
    WithCall(s.(readers := s.readers[c.reader := Dequeue(r)]), call, c.(progress := Holding(r.queue[0])))
  }

  ghost function Step(l: Limits, s: Room, a: Action): Room
    requires Enabled(l, s, a) && Sound(l, s)
  {
    match a
    case Open(id, isText, declared) =>
      var (b, r) := Create(l, s.budget, isText, declared);
      s.(budget := b, readers := s.readers[id := r])
    case Chunk(id, index, data) => Arriving(l, s, id, index, data)
    case Store(id, stored) => Stored(s, id, stored)
    case ReadNext(id) => Handed(l, s, id)
    case EndStream(id, text) => Moved(s, id, CloseStream(s.budget, s.readers[id], text).1, 0)
    case StreamError(id, text) => Refused(s, id, Given(text), 0)
    case Destroy(id) =>
      s.(readers := s.readers - {id}, regions := Settle(s.regions, id, s.readers[id].buffered, s.readers[id].registered))
    case GiveBytes(id) =>
      s.(budget := Release(s.budget, s.regions[id].bytes), regions := Settle(s.regions, id, 0, s.regions[id].slot))
    case GiveSlot(id) =>
      s.(budget := ReleaseReader(s.budget), regions := Settle(s.regions, id, s.regions[id].bytes, false))
    case StartReadAll(call, id) => WithCall(s, call, Call(id, [], 0, Gathering))
    case TakeChunk(call) => Taken(l, s, call)
    case AppendChunk(call, stored) => Append(l, s, call, stored)
    case ReturnDoomed(call) =>
      s.(budget := Release(s.budget, Held(s.calls[call])), calls := s.calls - {call})
    case SeeEnd(call) => WithCall(s, call, s.calls[call].(progress := AtEnd))
    case ReadFlags(call) =>
      var r := s.readers[s.calls[call].reader];
      WithCall(s, call, s.calls[call].(progress := Reporting(r.failed, r.reason)))
    case Finish(call) =>
      s.(budget := Release(s.budget, s.calls[call].accounted), calls := s.calls - {call})
  }

  // ------------------------------------------------------------------------
  // Conservation.
  // ------------------------------------------------------------------------

  function Slot(r: Reader): nat { if r.registered then 1 else 0 }

  ghost function Queued(readers: map<Id, Reader>): map<Id, nat> { map id | id in readers :: readers[id].buffered }

  ghost function Slots(readers: map<Id, Reader>): map<Id, nat> { map id | id in readers :: Slot(readers[id]) }

  ghost function InCalls(calls: map<Id, Call>): map<Id, nat> { map c | c in calls :: Held(calls[c]) }

  ghost function InFlight(regions: map<Id, Region>): map<Id, nat> { map id | id in regions :: InTransit(regions[id]) }

  ghost function SlotsInFlight(regions: map<Id, Region>): map<Id, nat>
  {
    map id | id in regions :: SlotInTransit(regions[id])
  }

  ghost predicate RegionOk(l: Limits, readers: map<Id, Reader>, id: Id, g: Region)
  {
    g.Storing? ==> id in readers && Judge(l, readers[id], readers[id].nextIndex, g.data).Offer?
  }

  ghost predicate Sound(l: Limits, s: Room)
  {
    && (forall id :: id in s.readers ==> Coherent(l, s.readers[id]))
    && (forall c :: c in s.calls ==> Reads(s, c) && s.calls[c].accounted == |s.calls[c].result|)
    && (forall id :: id in s.regions ==> RegionOk(l, s.readers, id, s.regions[id]))
  }

  /** All octets and slots the budget has given out, wherever they are. */
  ghost predicate Balanced(l: Limits, s: Room)
  {
    && s.budget.buffered == Total(Queued(s.readers)) + Total(InCalls(s.calls)) + Total(InFlight(s.regions))
    && s.budget.active == Total(Slots(s.readers)) + Total(SlotsInFlight(s.regions))
    && s.budget.buffered <= l.maxBuffered
    && s.budget.active <= l.maxActiveReaders
  }

  ghost predicate Conserved(l: Limits, s: Room) { Sound(l, s) && Balanced(l, s) }

  // ------------------------------------------------------------------------
  // How the sums move.
  // ------------------------------------------------------------------------

  lemma ReaderPut(readers: map<Id, Reader>, id: Id, r: Reader)
    ensures Total(Queued(readers[id := r]))
         == Total(Queued(readers)) - (if id in readers then readers[id].buffered else 0) + r.buffered
    ensures Total(Slots(readers[id := r]))
         == Total(Slots(readers)) - (if id in readers then Slot(readers[id]) else 0) + Slot(r)
  {
    hide Total, Slot;
    assert Queued(readers[id := r]) == Queued(readers)[id := r.buffered];
    assert Slots(readers[id := r]) == Slots(readers)[id := Slot(r)];
    TotalUpdate<nat>(Queued(readers), id, r.buffered);
    TotalUpdate<nat>(Slots(readers), id, Slot(r));
  }

  lemma ReaderGone(readers: map<Id, Reader>, id: Id)
    requires id in readers
    ensures Total(Queued(readers - {id})) == Total(Queued(readers)) - readers[id].buffered
    ensures Total(Slots(readers - {id})) == Total(Slots(readers)) - Slot(readers[id])
  {
    hide Total, Slot;
    assert Queued(readers - {id}) == Queued(readers) - {id};
    assert Slots(readers - {id}) == Slots(readers) - {id};
    TotalRemove<nat>(Queued(readers), id);
    TotalRemove<nat>(Slots(readers), id);
  }

  lemma CallPut(calls: map<Id, Call>, call: Id, c: Call)
    ensures Total(InCalls(calls[call := c]))
         == Total(InCalls(calls)) - (if call in calls then Held(calls[call]) else 0) + Held(c)
  {
    hide Total, Held;
    assert InCalls(calls[call := c]) == InCalls(calls)[call := Held(c)];
    TotalUpdate<nat>(InCalls(calls), call, Held(c));
  }

  lemma CallGone(calls: map<Id, Call>, call: Id)
    requires call in calls
    ensures Total(InCalls(calls - {call})) == Total(InCalls(calls)) - Held(calls[call])
  {
    hide Total, Held;
    assert InCalls(calls - {call}) == InCalls(calls) - {call};
    TotalRemove<nat>(InCalls(calls), call);
  }

  lemma RegionPut(regions: map<Id, Region>, id: Id, g: Region)
    ensures Total(InFlight(regions[id := g]))
         == Total(InFlight(regions)) - (if id in regions then InTransit(regions[id]) else 0) + InTransit(g)
    ensures Total(SlotsInFlight(regions[id := g]))
         == Total(SlotsInFlight(regions)) - (if id in regions then SlotInTransit(regions[id]) else 0) + SlotInTransit(g)
  {
    hide Total, InTransit, SlotInTransit;
    assert InFlight(regions[id := g]) == InFlight(regions)[id := InTransit(g)];
    assert SlotsInFlight(regions[id := g]) == SlotsInFlight(regions)[id := SlotInTransit(g)];
    TotalUpdate<nat>(InFlight(regions), id, InTransit(g));
    TotalUpdate<nat>(SlotsInFlight(regions), id, SlotInTransit(g));
  }

  lemma RegionGone(regions: map<Id, Region>, id: Id)
    ensures Total(InFlight(regions - {id}))
         == Total(InFlight(regions)) - (if id in regions then InTransit(regions[id]) else 0)
    ensures Total(SlotsInFlight(regions - {id}))
         == Total(SlotsInFlight(regions)) - (if id in regions then SlotInTransit(regions[id]) else 0)
  {
    hide Total, InTransit, SlotInTransit;
    if id in regions {
      assert InFlight(regions - {id}) == InFlight(regions) - {id};
      assert SlotsInFlight(regions - {id}) == SlotsInFlight(regions) - {id};
      TotalRemove<nat>(InFlight(regions), id);
      TotalRemove<nat>(SlotsInFlight(regions), id);
    } else {
      assert regions - {id} == regions;
    }
  }

  lemma Settled(regions: map<Id, Region>, id: Id, bytes: nat, slot: bool)
    ensures Total(InFlight(Settle(regions, id, bytes, slot)))
         == Total(InFlight(regions)) - (if id in regions then InTransit(regions[id]) else 0) + bytes
    ensures Total(SlotsInFlight(Settle(regions, id, bytes, slot)))
         == Total(SlotsInFlight(regions)) - (if id in regions then SlotInTransit(regions[id]) else 0) + if slot then 1 else 0
  {
    hide Total, InFlight, SlotsInFlight;
    RegionPut(regions, id, Owing(bytes, slot));
    RegionGone(regions, id);
  }

  // ------------------------------------------------------------------------
  // Every step conserves.
  // ------------------------------------------------------------------------

  /** One reader moves on; its own region, if any, only owes. */
  lemma MoveSound(l: Limits, s: Room, id: Id, r: Reader, bytes: nat, slot: bool)
    requires Sound(l, s) && Coherent(l, r)
    ensures Sound(l, s.(readers := s.readers[id := r], regions := Settle(s.regions, id, bytes, slot)))
  {
    hide Coherent, Judge;
  }

  /** A reader transition that returns exactly what it takes out of the reader. */
  lemma MovedConserves(l: Limits, s: Room, id: Id, r: Reader, bytes: nat)
    requires Conserved(l, s) && id in s.readers && Coherent(l, r) && (r.registered ==> s.readers[id].registered)
    requires s.readers[id].buffered + (if id in s.regions then InTransit(s.regions[id]) else 0) == r.buffered + bytes
    requires id in s.regions ==> SlotInTransit(s.regions[id]) == 0
    ensures Conserved(l, Moved(s, id, r, bytes))
  {
    hide Coherent, Sound, Total, Queued, Slots, InFlight, SlotsInFlight, InCalls, Settle;
    var slot := s.readers[id].registered && !r.registered;
    MoveSound(l, s, id, r, bytes, slot);
    ReaderPut(s.readers, id, r);
    Settled(s.regions, id, bytes, slot);
  }

  /** What closing a reader leaves of it. */
  lemma ClosedReaders(l: Limits, b: Budget, r: Reader, reason: Reason, text: string)
    requires Coherent(l, r)
    ensures forall q :: q in {Fail(b, r, reason).1, CloseStream(b, r, text).1, MarkReadAllLimit(b, r).1} ==>
      Coherent(l, q) && q.buffered == r.buffered && (q.registered ==> r.registered)
  {
    hide Concat;
  }

  lemma RefusedConserves(l: Limits, s: Room, id: Id, reason: Reason, bytes: nat)
    requires Conserved(l, s) && id in s.readers
    requires bytes == if id in s.regions then InTransit(s.regions[id]) else 0
    requires id in s.regions ==> s.regions[id].Storing?
    ensures Conserved(l, Refused(s, id, reason, bytes))
  {
    hide Coherent, Balanced, Fail;
    ClosedReaders(l, s.budget, s.readers[id], reason, "");
    MovedConserves(l, s, id, Fail(s.budget, s.readers[id], reason).1, bytes);
  }

  lemma SkipKeeps(l: Limits, r: Reader)
    requires Coherent(l, r)
    ensures Coherent(l, r.(nextIndex := r.nextIndex + 1))
  {
  }

  lemma ReserveConserves(l: Limits, s: Room, id: Id, data: Bytes)
    requires Conserved(l, s) && Free(s, id) && Judge(l, s.readers[id], s.readers[id].nextIndex, data).Offer?
    requires HasRoom(l, s.budget, |data|)
    ensures Conserved(l, s.(budget := Reserve(s.budget, |data|), regions := s.regions[id := Storing(data)]))
  {
    hide Coherent, Judge, Total, Queued, Slots, InFlight, SlotsInFlight, InCalls;
    RegionPut(s.regions, id, Storing(data));
  }

  lemma PutConserves(l: Limits, s: Room, id: Id, r: Reader)
    requires Conserved(l, s) && Free(s, id) && Coherent(l, r)
    requires r.buffered == s.readers[id].buffered && r.registered == s.readers[id].registered
    ensures Conserved(l, s.(readers := s.readers[id := r]))
  {
    hide Coherent, Judge, Total, Queued, Slots, InFlight, SlotsInFlight, InCalls;
    ReaderPut(s.readers, id, r);
  }

  /** An index that was offered is the next one. */
  lemma OfferedIndex(l: Limits, r: Reader, index: nat, data: Bytes)
    requires Judge(l, r, index, data).Offer?
    ensures index == r.nextIndex
  {
  }

  lemma ArrivingConserves(l: Limits, s: Room, id: Id, index: nat, data: Bytes)
    requires Conserved(l, s) && Free(s, id)
    ensures Conserved(l, Arriving(l, s, id, index, data))
  {
    hide Judge, Coherent, Balanced, Refused, Reserve, HasRoom;
    var r := s.readers[id];
    match Judge(l, r, index, data)
    case Ignore =>
    case Deny(reason) => RefusedConserves(l, s, id, reason, 0);
    case Skip =>
      SkipKeeps(l, r);
      PutConserves(l, s, id, r.(nextIndex := r.nextIndex + 1));
    case Offer =>
      OfferedIndex(l, r, index, data);
      if HasRoom(l, s.budget, |data|) {
        ReserveConserves(l, s, id, data);
      } else {
        RefusedConserves(l, s, id, BufferLimitExceeded, 0);
      }
  }

  lemma EnqueueKeeps(l: Limits, r: Reader, data: Bytes)
    requires Coherent(l, r) && Judge(l, r, r.nextIndex, data).Offer?
    ensures Coherent(l, Enqueue(r, data))
  {
    ConcatSnoc(r.queue, data);
    hide Concat, Utf8.WellFormed;
  }

  lemma StoredConserves(l: Limits, s: Room, id: Id, stored: bool)
    requires Conserved(l, s) && id in s.readers && id in s.regions && s.regions[id].Storing?
    ensures Conserved(l, Stored(s, id, stored))
  {
    assert RegionOk(l, s.readers, id, s.regions[id]);
    hide Coherent, Judge, Balanced, Refused;
    if stored {
      var r := Enqueue(s.readers[id], s.regions[id].data);
      EnqueueKeeps(l, s.readers[id], s.regions[id].data);
      MovedConserves(l, s, id, r, 0);
      assert Moved(s, id, r, 0) == Stored(s, id, true);
    } else {
      RefusedConserves(l, s, id, AllocationFailed, |s.regions[id].data|);
    }
  }

  lemma HandedConserves(l: Limits, s: Room, id: Id)
    requires Conserved(l, s) && Free(s, id) && s.readers[id].queue != []
    ensures Conserved(l, Handed(l, s, id))
  {
    DequeueIsSafe(l, s.readers[id]);
    hide Coherent, Balanced;
    MovedConserves(l, s, id, Dequeue(s.readers[id]), |s.readers[id].queue[0]|);
  }

  lemma OpenConserves(l: Limits, s: Room, id: Id, isText: bool, declared: Option<nat>)
    requires Conserved(l, s) && id !in s.readers && id !in s.regions
    ensures var (b, r) := Create(l, s.budget, isText, declared);
      Conserved(l, s.(budget := b, readers := s.readers[id := r]))
  {
    hide Total, Queued, Slots, InFlight, SlotsInFlight, InCalls, Judge;
    ReaderPut(s.readers, id, Create(l, s.budget, isText, declared).1);
  }

  lemma DestroyConserves(l: Limits, s: Room, id: Id)
    requires Conserved(l, s) && Enabled(l, s, Destroy(id))
    ensures Conserved(l, Step(l, s, Destroy(id)))
  {
    hide Coherent, Judge, Total, Queued, Slots, InFlight, SlotsInFlight, InCalls;
    ReaderGone(s.readers, id);
    Settled(s.regions, id, s.readers[id].buffered, s.readers[id].registered);
  }

  /** What is in transit is part of what the budget has given out. */
  lemma RegionShare(regions: map<Id, Region>, id: Id)
    requires id in regions
    ensures InTransit(regions[id]) <= Total(InFlight(regions))
    ensures SlotInTransit(regions[id]) <= Total(SlotsInFlight(regions))
  {
    RegionGone(regions, id);
    hide Total, InFlight, SlotsInFlight;
  }

  lemma CallShare(calls: map<Id, Call>, c: Id)
    requires c in calls
    ensures Held(calls[c]) <= Total(InCalls(calls))
  {
    CallGone(calls, c);
    hide Total, InCalls;
  }

  lemma GiveConserves(l: Limits, s: Room, a: Action)
    requires Conserved(l, s) && Enabled(l, s, a) && (a.GiveBytes? || a.GiveSlot?)
    ensures Conserved(l, Step(l, s, a))
  {
    hide Coherent, Judge, Total, Queued, Slots, InFlight, SlotsInFlight, InCalls;
    RegionShare(s.regions, a.id);
    if a.GiveBytes? {
      Settled(s.regions, a.id, 0, s.regions[a.id].slot);
    } else {
      Settled(s.regions, a.id, s.regions[a.id].bytes, false);
    }
  }

  lemma CallConserves(l: Limits, s: Room, call: Id, c: Call)
    requires Conserved(l, s) && c.reader in s.readers && c.accounted == |c.result|
    requires Held(c) == if call in s.calls then Held(s.calls[call]) else 0
    ensures Conserved(l, WithCall(s, call, c))
  {
    hide Coherent, Judge, Total, Queued, Slots, InFlight, SlotsInFlight, InCalls, Held;
    CallPut(s.calls, call, c);
  }

  lemma TakenSound(l: Limits, s: Room, call: Id)
    requires Sound(l, s) && Enabled(l, s, TakeChunk(call))
    ensures Sound(l, Taken(l, s, call))
  {
    var id := s.calls[call].reader;
    DequeueIsSafe(l, s.readers[id]);
    hide Coherent, Judge;
  }

  /** The chunk in hand weighs what the queue lost. */
  lemma TakenWeighs(l: Limits, r: Reader, c: Call)
    requires Coherent(l, r) && r.queue != [] && c.progress.Gathering?
    ensures r.buffered >= |r.queue[0]| && r.queuedChunks > 0
    ensures Dequeue(r).buffered + Held(c.(progress := Holding(r.queue[0]))) == r.buffered + Held(c)
    ensures Slot(Dequeue(r)) == Slot(r)
  {
    DequeueIsSafe(l, r);
    hide Coherent;
  }

  lemma TakenBalanced(l: Limits, s: Room, call: Id)
    requires Balanced(l, s) && Reads(s, call) && s.calls[call].progress.Gathering?
    requires Coherent(l, s.readers[s.calls[call].reader]) && s.readers[s.calls[call].reader].queue != []
    ensures Balanced(l, Taken(l, s, call))
  {
    hide Coherent, Total, Queued, Slots, InFlight, SlotsInFlight, InCalls, Dequeue, Held, Slot;
    var c := s.calls[call];
    var r := s.readers[c.reader];
    TakenWeighs(l, r, c);
    ReaderPut(s.readers, c.reader, Dequeue(r));
    CallPut(s.calls, call, c.(progress := Holding(r.queue[0])));
  }

  lemma TakenConserves(l: Limits, s: Room, call: Id)
    requires Conserved(l, s) && Enabled(l, s, TakeChunk(call))
    ensures Conserved(l, Taken(l, s, call))
  {
    hide Coherent, Balanced, Taken, RegionOk;
    TakenSound(l, s, call);
    TakenBalanced(l, s, call);
  }

  lemma AppendConserves(l: Limits, s: Room, call: Id, stored: bool)
    requires Conserved(l, s) && Enabled(l, s, AppendChunk(call, stored))
    ensures Conserved(l, Append(l, s, call, stored))
  {
    hide Coherent, Balanced, MarkReadAllLimit, Fail, Moved, Refused, OverReadLimit;
    var c := s.calls[call];
    var r := s.readers[c.reader];
    if Overruns(l, s, call) {
      ClosedReaders(l, s.budget, r, AllocationFailed, "");
      MovedConserves(l, s, c.reader, MarkReadAllLimit(s.budget, r).1, 0);
      MovedReaders(s, c.reader, MarkReadAllLimit(s.budget, r).1, 0);
      CallConserves(l, Moved(s, c.reader, MarkReadAllLimit(s.budget, r).1, 0), call,
                    c.(progress := Doomed(c.progress.chunk, true)));
    } else if !stored {
      RefusedConserves(l, s, c.reader, AllocationFailed, 0);
      RefusedReaders(s, c.reader, AllocationFailed, 0);
      CallConserves(l, Refused(s, c.reader, AllocationFailed, 0), call, c.(progress := Doomed(c.progress.chunk, false)));
    } else {
      CallConserves(l, s, call, c.(result := c.result + c.progress.chunk,
                                   accounted := c.accounted + |c.progress.chunk|, progress := Gathering));
    }
  }

  lemma MovedReaders(s: Room, id: Id, r: Reader, bytes: nat)
    requires id in s.readers
    ensures Moved(s, id, r, bytes).readers.Keys == s.readers.Keys && Moved(s, id, r, bytes).calls == s.calls
  {
  }

  lemma RefusedReaders(s: Room, id: Id, reason: Reason, bytes: nat)
    requires id in s.readers
    ensures Refused(s, id, reason, bytes).readers.Keys == s.readers.Keys
    ensures Refused(s, id, reason, bytes).calls == s.calls
  {
  }

  lemma FinishConserves(l: Limits, s: Room, a: Action)
    requires Conserved(l, s) && Enabled(l, s, a) && (a.ReturnDoomed? || a.Finish?)
    ensures Conserved(l, Step(l, s, a))
  {
    hide Coherent, Judge, Total, Queued, Slots, InFlight, SlotsInFlight, InCalls;
    CallShare(s.calls, a.call);
    CallGone(s.calls, a.call);
  }

  lemma ReaderStepConserves(l: Limits, s: Room, a: Action)
    requires Conserved(l, s) && Enabled(l, s, a)
    requires a.Chunk? || a.Store? || a.ReadNext? || a.EndStream? || a.StreamError?
    ensures Conserved(l, Step(l, s, a))
  {
    hide Conserved, Coherent, Arriving, Stored, Handed, Refused, Moved;
    match a
    case Chunk(id, index, data) => ArrivingConserves(l, s, id, index, data);
    case Store(id, stored) => StoredConserves(l, s, id, stored);
    case ReadNext(id) => HandedConserves(l, s, id);
    case EndStream(id, text) => EndConserves(l, s, id, text);
    case StreamError(id, text) => RefusedConserves(l, s, id, Given(text), 0);
  }

  lemma EndConserves(l: Limits, s: Room, id: Id, text: string)
    requires Conserved(l, s) && Free(s, id)
    ensures Conserved(l, Moved(s, id, CloseStream(s.budget, s.readers[id], text).1, 0))
  {
    hide Coherent, Balanced, CloseStream;
    ClosedReaders(l, s.budget, s.readers[id], NoReason, text);
    MovedConserves(l, s, id, CloseStream(s.budget, s.readers[id], text).1, 0);
  }

  lemma CallStepConserves(l: Limits, s: Room, a: Action)
    requires Conserved(l, s) && Enabled(l, s, a)
    requires a.StartReadAll? || a.TakeChunk? || a.AppendChunk? || a.SeeEnd? || a.ReadFlags?
    ensures Conserved(l, Step(l, s, a))
  {
    hide Balanced, Coherent, Taken, Append, Judge;
    match a
    case StartReadAll(call, id) => CallConserves(l, s, call, Call(id, [], 0, Gathering));
    case TakeChunk(call) => TakenConserves(l, s, call);
    case AppendChunk(call, stored) => AppendConserves(l, s, call, stored);
    case SeeEnd(call) => CallConserves(l, s, call, s.calls[call].(progress := AtEnd));
    case ReadFlags(call) =>
      var r := s.readers[s.calls[call].reader];
      CallConserves(l, s, call, s.calls[call].(progress := Reporting(r.failed, r.reason)));
  }

  lemma StepConserves(l: Limits, s: Room, a: Action)
    requires Conserved(l, s) && Enabled(l, s, a)
    ensures Conserved(l, Step(l, s, a))
  {
    if a.Open? {
      OpenConserves(l, s, a.id, a.isText, a.declared);
    } else {
      hide Step, Conserved, Enabled;
      match a
      case Destroy(id) => DestroyConserves(l, s, id);
      case GiveBytes(_) | GiveSlot(_) => GiveConserves(l, s, a);
      case ReturnDoomed(_) | Finish(_) => FinishConserves(l, s, a);
      case Chunk(_, _, _) | Store(_, _) | ReadNext(_) | EndStream(_, _) | StreamError(_, _) => ReaderStepConserves(l, s, a);
      case _ => CallStepConserves(l, s, a);
    }
  }

  const EMPTY := Room(Budget(0, 0), map[], map[], map[])

  /** Disabled actions do not happen. */
  ghost function Run(l: Limits, actions: seq<Action>): (s: Room)
    ensures Conserved(l, s)
  {
    if actions == [] then EMPTY
    else
      var s, a := Run(l, actions[..|actions| - 1]), actions[|actions| - 1];
      if Enabled(l, s, a) then StepConserves(l, s, a); Step(l, s, a) else s
  }

  /**
   Shared-budget conservation in every reachable state: bytes reserved are the
   bytes queued, those in unfinished ReadAll calls and those in transit inside a
   region; slots taken are those of open readers and those in transit; neither
   exceeds its limit.
   */
  lemma BudgetConservation(l: Limits, actions: seq<Action>)
    ensures var s := Run(l, actions);
      && s.budget.buffered
           == Total(Queued(s.readers)) + Total(InCalls(s.calls)) + Total(InFlight(s.regions)) <= l.maxBuffered
      && s.budget.active == Total(Slots(s.readers)) + Total(SlotsInFlight(s.regions)) <= l.maxActiveReaders
      && forall id :: id in s.readers ==> (s.readers[id].registered <==> s.readers[id].admitted && !s.readers[id].closed)
  {
    var s := Run(l, actions);
    assert Conserved(l, s);
  }

  /** With no thread inside a region the budget is what is queued and what calls hold. */
  lemma ConservationBetweenRegions(l: Limits, actions: seq<Action>)
    requires Run(l, actions).regions == map[]
    ensures var s := Run(l, actions);
      && s.budget.buffered == Total(Queued(s.readers)) + Total(InCalls(s.calls))
      && s.budget.active == Total(Slots(s.readers))
  {
    var s := Run(l, actions);
    hide Run, Queued, InCalls, Slots;
    assert InFlight(s.regions) == map[] && SlotsInFlight(s.regions) == map[];
    BudgetConservation(l, actions);
  }

  /** The amount an action hands back to the budget. */
  function HandsBack(s: Room, a: Action): nat
  {
    match a
    case GiveBytes(id) => if id in s.regions && s.regions[id].Owing? then s.regions[id].bytes else 0
    case ReturnDoomed(call) => if call in s.calls then Held(s.calls[call]) else 0
    case Finish(call) => if call in s.calls then s.calls[call].accounted else 0
    case _ => 0
  }

  /** The saturating subtraction never saturates, and a reader slot is never given back twice. */
  lemma ReleaseNeverSaturates(l: Limits, actions: seq<Action>, a: Action)
    requires Enabled(l, Run(l, actions), a)
    ensures var s := Run(l, actions);
      HandsBack(s, a) <= s.budget.buffered && (a.GiveSlot? ==> s.budget.active > 0)
  {
    var s := Run(l, actions);
    hide Run, Coherent, Judge, Total, Queued, Slots, InFlight, SlotsInFlight, InCalls;
    match a
    case GiveBytes(id) => RegionShare(s.regions, id);
    case GiveSlot(id) => RegionShare(s.regions, id);
    case ReturnDoomed(call) => CallShare(s.calls, call);
    case Finish(call) => CallShare(s.calls, call);
    case _ =>
  }

  // ------------------------------------------------------------------------
  // A region that nobody disturbs does what the reader functions say at once.
  // ------------------------------------------------------------------------

  /** The rest of a region when no other thread comes in between. */
  function Undisturbed(s: Room, id: Id, stored: bool): Room
    requires id in s.regions && s.regions[id].Storing? ==> id in s.readers
  {
    var done := if id in s.regions && s.regions[id].Storing? then Stored(s, id, stored) else s;
    if id !in done.regions || done.regions[id].Storing? then done
    else
      var b := Release(done.budget, done.regions[id].bytes);
      done.(budget := if done.regions[id].slot then ReleaseReader(b) else b, regions := done.regions - {id})
  }

  lemma MovedUndisturbed(s: Room, id: Id, r: Reader, bytes: nat, stored: bool)
    requires id in s.readers
    ensures Undisturbed(Moved(s, id, r, bytes), id, stored) ==
      var b := Release(s.budget, bytes);
      s.(budget := if s.readers[id].registered && !r.registered then ReleaseReader(b) else b,
         readers := s.readers[id := r], regions := s.regions - {id})
  {
    assert s.regions - {id} - {id} == s.regions - {id};
    assert s.regions[id := Owing(bytes, s.readers[id].registered && !r.registered)] - {id} == s.regions - {id};
  }

  /** Closing a reader takes its slot along, whatever the budget was meanwhile. */
  lemma FailSplits(b: Budget, any: Budget, r: Reader, reason: Reason)
    ensures var r' := Fail(any, r, reason).1;
      Fail(b, r, reason) == (if r.registered && !r'.registered then ReleaseReader(b) else b, r')
  {
  }

  lemma RefusedUndisturbed(s: Room, id: Id, reason: Reason, bytes: nat, stored: bool)
    requires id in s.readers
    ensures var (b, r) := Fail(Release(s.budget, bytes), s.readers[id], reason);
      Undisturbed(Refused(s, id, reason, bytes), id, stored)
        == s.(budget := b, readers := s.readers[id := r], regions := s.regions - {id})
  {
    FailSplits(Release(s.budget, bytes), s.budget, s.readers[id], reason);
    MovedUndisturbed(s, id, Fail(s.budget, s.readers[id], reason).1, bytes, stored);
    hide Undisturbed, Moved, Fail, Release;
  }

  /** One arriving chunk: the steps of its region, run one after the other, are the whole admission. */
  lemma ArrivalUndisturbed(l: Limits, s: Room, id: Id, index: nat, data: Bytes, stored: bool)
    requires Free(s, id)
    ensures var (b, r) := Arrive(l, s.budget, s.readers[id], index, data, stored);
      Undisturbed(Arriving(l, s, id, index, data), id, stored) == s.(budget := b, readers := s.readers[id := r])
  {
    hide Judge, Refused, Fail, Release;
    assert s.regions - {id} == s.regions && s.readers[id := s.readers[id]] == s.readers;
    assert Release(s.budget, 0) == s.budget by { ReleaseNothing(s.budget); }
    var r := s.readers[id];
    match Judge(l, r, index, data)
    case Ignore =>
    case Deny(reason) => RefusedUndisturbed(s, id, reason, 0, stored); hide Undisturbed;
    case Skip =>
    case Offer =>
      if !HasRoom(l, s.budget, |data|) {
        RefusedUndisturbed(s, id, BufferLimitExceeded, 0, stored);
        hide Undisturbed;
      } else {
        StoreUndisturbed(s, id, data, stored);
        hide Undisturbed, Stored;
      }
  }

  lemma ReleaseNothing(b: Budget)
    ensures Release(b, 0) == b
  {
  }

  lemma StoreUndisturbed(s: Room, id: Id, data: Bytes, stored: bool)
    requires Free(s, id)
    ensures var reserved := s.(budget := Reserve(s.budget, |data|), regions := s.regions[id := Storing(data)]);
      Undisturbed(reserved, id, stored) ==
        if stored then s.(budget := Reserve(s.budget, |data|), readers := s.readers[id := Enqueue(s.readers[id], data)])
        else
          var (b, r) := Fail(Release(Reserve(s.budget, |data|), |data|), s.readers[id], AllocationFailed);
          s.(budget := b, readers := s.readers[id := r])
  {
    var reserved := s.(budget := Reserve(s.budget, |data|), regions := s.regions[id := Storing(data)]);
    assert reserved.regions - {id} == s.regions;
    if !stored {
      RefusedUndisturbed(reserved, id, AllocationFailed, |data|, stored);
      RefusedOwes(reserved, id, AllocationFailed, |data|);
    }
    hide Refused, Fail, Release;
  }

  lemma RefusedOwes(s: Room, id: Id, reason: Reason, bytes: nat)
    requires id in s.readers
    ensures var g := Refused(s, id, reason, bytes).regions; id in g ==> g[id].Owing?
  {
  }

  lemma ReadUndisturbed(l: Limits, s: Room, id: Id)
    requires Free(s, id) && s.readers[id].queue != [] && Coherent(l, s.readers[id])
    ensures s.readers[id].buffered >= |s.readers[id].queue[0]| && s.readers[id].queuedChunks > 0
    ensures Undisturbed(Handed(l, s, id), id, true)
         == s.(budget := Release(s.budget, |s.readers[id].queue[0]|), readers := s.readers[id := Dequeue(s.readers[id])])
  {
    DequeueIsSafe(l, s.readers[id]);
    hide Coherent, Release, Undisturbed, Moved;
    MovedUndisturbed(s, id, Dequeue(s.readers[id]), |s.readers[id].queue[0]|, true);
    assert s.regions - {id} == s.regions;
  }

  // ------------------------------------------------------------------------
  // When a stream that closed cleanly still fails.
  // ------------------------------------------------------------------------

  predicate ClosedClean(s: Room, id: Id) { id in s.readers && s.readers[id].closed && !s.readers[id].failed }

  /** A ReadAll call of this reader goes over its limit. */
  predicate OverrunBy(l: Limits, s: Room, a: Action, id: Id)
  {
    a.AppendChunk? && a.call in s.calls && s.calls[a.call].reader == id && s.calls[a.call].progress.Holding?
    && Overruns(l, s, a.call)
  }

  /** The reader an action is about. */
  predicate Concerns(s: Room, a: Action, id: Id)
  {
    match a
    case StartReadAll(_, _) => false
    case TakeChunk(call) => call in s.calls && s.calls[call].reader == id
    case AppendChunk(call, _) => call in s.calls && s.calls[call].reader == id
    case ReturnDoomed(_) | SeeEnd(_) | ReadFlags(_) | Finish(_) => false
    case _ => a.id == id
  }

  lemma OthersUntouched(l: Limits, s: Room, a: Action, id: Id)
    requires Sound(l, s) && Enabled(l, s, a) && id in s.readers && !Concerns(s, a, id)
    ensures id in Step(l, s, a).readers && Step(l, s, a).readers[id] == s.readers[id]
  {
    hide Coherent, Judge, Fail, CloseStream, MarkReadAllLimit, Create;
  }

  /** What reader functions do to a closed reader. */
  lemma ClosedIsClosed(l: Limits, b: Budget, r: Reader, index: nat, data: Bytes, reason: Reason, text: string)
    requires r.closed
    ensures Judge(l, r, index, data).Ignore? && Fail(b, r, reason).1 == r && CloseStream(b, r, text).1 == r
    ensures MarkReadAllLimit(b, r).1.closed && MarkReadAllLimit(b, r).1.failed
  {
    hide Utf8.WellFormed;
  }

  lemma AppendFlags(l: Limits, s: Room, call: Id, stored: bool)
    requires Reads(s, call) && s.calls[call].progress.Holding? && s.readers[s.calls[call].reader].closed
    ensures var id := s.calls[call].reader;
      var s' := Append(l, s, call, stored);
      && id in s'.readers && s'.readers[id].closed
      && s'.readers[id].failed == (s.readers[id].failed || Overruns(l, s, call))
  {
    ClosedIsClosed(l, s.budget, s.readers[s.calls[call].reader], 0, [], AllocationFailed, "");
    hide Fail, MarkReadAllLimit, OverReadLimit, Judge, CloseStream;
  }

  lemma RegionFlags(l: Limits, s: Room, id: Id, index: nat, data: Bytes, text: string)
    requires Free(s, id) && s.readers[id].closed
    ensures Arriving(l, s, id, index, data) == s
    ensures Moved(s, id, CloseStream(s.budget, s.readers[id], text).1, 0).readers == s.readers
    ensures Refused(s, id, Given(text), 0).readers == s.readers
  {
    ClosedIsClosed(l, s.budget, s.readers[id], index, data, Given(text), text);
    hide Fail, CloseStream, Judge;
  }

  lemma QueueFlags(l: Limits, s: Room, id: Id)
    requires Free(s, id) && Coherent(l, s.readers[id]) && s.readers[id].queue != []
    ensures id in Handed(l, s, id).readers
    ensures var r, r' := s.readers[id], Handed(l, s, id).readers[id]; r'.closed == r.closed && r'.failed == r.failed
  {
    hide Coherent;
  }

  lemma TakenFlags(l: Limits, s: Room, call: Id)
    requires Reads(s, call) && Coherent(l, s.readers[s.calls[call].reader]) && s.readers[s.calls[call].reader].queue != []
    ensures var id := s.calls[call].reader;
      && id in Taken(l, s, call).readers
      && Taken(l, s, call).readers[id].closed == s.readers[id].closed
      && Taken(l, s, call).readers[id].failed == s.readers[id].failed
  {
    hide Coherent;
  }

  /** A step on a closed reader leaves its flags alone, but for a ReadAll over its limit. */
  lemma ClosedFlags(l: Limits, s: Room, a: Action, id: Id)
    requires Sound(l, s) && Enabled(l, s, a) && id in s.readers && s.readers[id].closed
    requires Concerns(s, a, id) && a != Destroy(id)
    ensures var s' := Step(l, s, a);
      && id in s'.readers && s'.readers[id].closed
      && s'.readers[id].failed == (s.readers[id].failed || OverrunBy(l, s, a, id))
  {
    hide Sound, Coherent, Overruns, Append, Arriving, Moved, Refused, Handed, Taken, Stored, Settle, Create, Release,
         ReleaseReader, CloseStream, Held;
    SoundReader(l, s, id);
    match a
    case TakeChunk(call) => TakenFlags(l, s, call);
    case AppendChunk(call, stored) => AppendFlags(l, s, call, stored);
    case _ => ClosedRegionFlags(l, s, a, id); hide Step;
  }

  lemma ClosedRegionFlags(l: Limits, s: Room, a: Action, id: Id)
    requires Sound(l, s) && Enabled(l, s, a) && id in s.readers && s.readers[id].closed
    requires Concerns(s, a, id) && a != Destroy(id) && !a.TakeChunk? && !a.AppendChunk?
    ensures var s' := Step(l, s, a);
      id in s'.readers && s'.readers[id].closed && s'.readers[id].failed == s.readers[id].failed
  {
    hide Sound, Coherent, Overruns, Append, Arriving, Moved, Refused, Handed, Taken, Stored, Settle, Create, Release,
         ReleaseReader, CloseStream, Held;
    SoundReader(l, s, id);
    match a
    case Chunk(_, index, data) => RegionFlags(l, s, id, index, data, "");
    case Store(_, _) => assert false by { StoringIsOpen(l, s, id); }
    case ReadNext(_) => QueueFlags(l, s, id);
    case EndStream(_, text) => RegionFlags(l, s, id, 0, [], text);
    case StreamError(_, text) => RegionFlags(l, s, id, 0, [], text);
    case _ =>
  }

  lemma SoundReader(l: Limits, s: Room, id: Id)
    requires Sound(l, s) && id in s.readers
    ensures Coherent(l, s.readers[id])
  {
  }

  lemma StoringIsOpen(l: Limits, s: Room, id: Id)
    requires Sound(l, s) && id in s.regions && s.regions[id].Storing?
    ensures id in s.readers && !s.readers[id].closed
  {
    assert RegionOk(l, s.readers, id, s.regions[id]);
  }

  /** A cleanly closed reader is failed by a step exactly when that step finds a ReadAll over its limit. */
  lemma CleanCloseFailsExactly(l: Limits, s: Room, a: Action, id: Id)
    requires Conserved(l, s) && Enabled(l, s, a) && ClosedClean(s, id) && a != Destroy(id)
    ensures var s' := Step(l, s, a);
      id in s'.readers && s'.readers[id].closed && (s'.readers[id].failed <==> OverrunBy(l, s, a, id))
  {
    hide Step, Enabled, Balanced, Sound, Overruns;
    if Concerns(s, a, id) {
      ClosedFlags(l, s, a, id);
    } else {
      OthersUntouched(l, s, a, id);
    }
  }

  /** Some step of the later ones finds a ReadAll of this reader over its limit. */
  ghost predicate OverrunLater(l: Limits, actions: seq<Action>, later: seq<Action>, id: Id)
  {
    later != [] &&
    (var n := |later| - 1;
     var s := Run(l, actions + later[..n]);
     OverrunLater(l, actions, later[..n], id) || (Enabled(l, s, later[n]) && OverrunBy(l, s, later[n], id)))
  }

  /** However many threads read, arrive and close: a clean close turns into a failure only by an overrun ReadAll. */
  lemma {:induction false} CleanCloseFailsLater(l: Limits, actions: seq<Action>, later: seq<Action>, id: Id)
    requires ClosedClean(Run(l, actions), id) && Destroy(id) !in later
    ensures var s := Run(l, actions + later);
      id in s.readers && s.readers[id].closed && (s.readers[id].failed <==> OverrunLater(l, actions, later, id))
  {
    hide Step, Conserved, Enabled, OverrunBy;
    if later == [] {
      assert actions + later == actions;
    } else {
      var n := |later| - 1;
      assert later == later[..n] + [later[n]];
      assert (actions + later)[..|actions + later| - 1] == actions + later[..n];
      CleanCloseFailsLater(l, actions, later[..n], id);
      var s := Run(l, actions + later[..n]);
      if Enabled(l, s, later[n]) {
        if s.readers[id].failed {
          FailedStays(l, s, later[n], id);
        } else {
          CleanCloseFailsExactly(l, s, later[n], id);
        }
      }
    }
  }

  lemma FailedStays(l: Limits, s: Room, a: Action, id: Id)
    requires Conserved(l, s) && Enabled(l, s, a) && id in s.readers && a != Destroy(id)
    requires s.readers[id].closed && s.readers[id].failed
    ensures id in Step(l, s, a).readers && Step(l, s, a).readers[id].closed && Step(l, s, a).readers[id].failed
  {
    hide Step, Enabled, Balanced, Sound, OverrunBy;
    if Concerns(s, a, id) {
      ClosedFlags(l, s, a, id);
    } else {
      OthersUntouched(l, s, a, id);
    }
  }

  // ------------------------------------------------------------------------
  // A run in which that happens.
  // ------------------------------------------------------------------------

  const NOTHING_READ := Limits(1, 10, 10, 10, 0)
  const OCTET: Bytes := [1]
  const NEWBORN := Reader(false, None, [], 0, 0, 0, 0, true, true, false, false, NoReason)
  const FILLED := NEWBORN.(queue := [OCTET], buffered := 1, received := 1, queuedChunks := 1, nextIndex := 1)
  const ENDED := FILLED.(registered := false, closed := true)

  lemma RunMore(l: Limits, actions: seq<Action>, a: Action)
    requires Enabled(l, Run(l, actions), a)
    ensures Run(l, actions + [a]) == Step(l, Run(l, actions), a)
  {
    assert (actions + [a])[..|actions|] == actions;
  }

  const OPENED := Room(Budget(1, 0), map[0 := NEWBORN], map[], map[])
  const RESERVED := OPENED.(budget := Budget(1, 1), regions := map[0 := Storing(OCTET)])
  const STORED := RESERVED.(readers := map[0 := FILLED], regions := map[])
  const LEAVING := STORED.(readers := map[0 := ENDED], regions := map[0 := Owing(0, true)])
  const CLOSED := LEAVING.(budget := Budget(0, 1), regions := map[])
  const READING := CLOSED.(calls := map[7 := Call(0, [], 0, Gathering)])

  ghost predicate Leads(l: Limits, s: Room, a: Action, s': Room)
    requires Sound(l, s)
  {
    Enabled(l, s, a) && Step(l, s, a) == s'
  }

  lemma Opens()
    requires Sound(NOTHING_READ, EMPTY)
    ensures Leads(NOTHING_READ, EMPTY, Open(0, false, None), OPENED)
  {
    hide Sound;
  }

  lemma Reserves()
    requires Sound(NOTHING_READ, OPENED)
    ensures Leads(NOTHING_READ, OPENED, Action.Chunk(0, 0, OCTET), RESERVED)
  {
    hide Sound;
  }

  lemma Stores()
    requires Sound(NOTHING_READ, RESERVED)
    ensures Leads(NOTHING_READ, RESERVED, Store(0, true), STORED)
  {
    hide Sound;
    assert Enqueue(NEWBORN, OCTET) == FILLED;
    assert RESERVED.regions - {0} == map[];
    assert RESERVED.readers[0 := FILLED] == map[0 := FILLED];
  }

  lemma Ends()
    requires Sound(NOTHING_READ, STORED)
    ensures Leads(NOTHING_READ, STORED, EndStream(0, ""), LEAVING)
  {
    hide Sound;
  }

  lemma Leaves()
    requires Sound(NOTHING_READ, LEAVING)
    ensures Leads(NOTHING_READ, LEAVING, GiveSlot(0), CLOSED)
  {
    hide Sound;
  }

  lemma Asks()
    requires Sound(NOTHING_READ, CLOSED)
    ensures Leads(NOTHING_READ, CLOSED, StartReadAll(7, 0), READING)
  {
    hide Sound;
  }

  /** The chunk is taken from the closed reader and is over the limit. */
  lemma GoesOver()
    requires Sound(NOTHING_READ, READING)
    ensures Enabled(NOTHING_READ, READING, TakeChunk(7))
    ensures var s := Step(NOTHING_READ, READING, TakeChunk(7));
      && ClosedClean(s, 0) && Enabled(NOTHING_READ, s, AppendChunk(7, true))
      && OverrunBy(NOTHING_READ, s, AppendChunk(7, true), 0)
  {
    hide Sound;
  }

  lemma RunLeads(actions: seq<Action>, a: Action, s: Room, s': Room)
    requires Run(NOTHING_READ, actions) == s && Leads(NOTHING_READ, s, a, s')
    ensures Run(NOTHING_READ, actions + [a]) == s' && Sound(NOTHING_READ, s')
  {
    RunMore(NOTHING_READ, actions, a);
    assert Conserved(NOTHING_READ, Run(NOTHING_READ, actions + [a]));
    hide Sound, Step, Enabled, Run;
  }

  lemma Closes() returns (actions: seq<Action>)
    ensures Run(NOTHING_READ, actions) == READING && Sound(NOTHING_READ, READING)
  {
    actions := [];
    assert Run(NOTHING_READ, actions) == EMPTY && Sound(NOTHING_READ, EMPTY);
    hide Run, Sound, Leads;
    Opens();
    RunLeads(actions, Open(0, false, None), EMPTY, OPENED);
    actions := actions + [Open(0, false, None)];
    Reserves();
    RunLeads(actions, Action.Chunk(0, 0, OCTET), OPENED, RESERVED);
    actions := actions + [Action.Chunk(0, 0, OCTET)];
    Stores();
    RunLeads(actions, Store(0, true), RESERVED, STORED);
    actions := actions + [Store(0, true)];
    Ends();
    RunLeads(actions, EndStream(0, ""), STORED, LEAVING);
    actions := actions + [EndStream(0, "")];
    Leaves();
    RunLeads(actions, GiveSlot(0), LEAVING, CLOSED);
    actions := actions + [GiveSlot(0)];
    Asks();
    RunLeads(actions, StartReadAll(7, 0), CLOSED, READING);
    actions := actions + [StartReadAll(7, 0)];
  }

  ghost predicate FailedLater(l: Limits, actions: seq<Action>, a: Action, id: Id)
  {
    && ClosedClean(Run(l, actions), id)
    && id in Run(l, actions + [a]).readers && Run(l, actions + [a]).readers[id].failed
  }

  /** A reader that closed cleanly, and then fails because a ReadAll goes over the limit. */
  lemma CleanCloseFailsExample()
    ensures exists actions, a :: FailedLater(NOTHING_READ, actions, a, 0)
  {
    var l := NOTHING_READ;
    var actions := Closes();
    hide Run, Sound, Step, Enabled, OverrunBy, Balanced;
    GoesOver();
    RunMore(l, actions, TakeChunk(7));
    var taken := actions + [TakeChunk(7)];
    assert Conserved(l, Run(l, taken));
    RunMore(l, taken, AppendChunk(7, true));
    CleanCloseFailsExactly(l, Run(l, taken), AppendChunk(7, true), 0);
    assert FailedLater(l, taken, AppendChunk(7, true), 0);
  }
}
