/**
 What the steps of a ReadAll, of a region and of a reader's coming and going do
 to the room (src/core/data_stream.cpp:120-252, 294-394).
 */
module SharedCalls {
  import opened Common
  import opened StreamReaders
  import opened SharedBudget

  /** A reader comes with a slot if one is free; it goes owing its slot and what it still queued. */
  lemma ComesAndGoes(l: Limits, s: Room, id: Id, isText: bool, declared: Option<nat>)
    requires Sound(l, s)
    ensures Enabled(l, s, Open(id, isText, declared)) ==>
      var s' := SharedBudget.Step(l, s, Open(id, isText, declared));
      && s' == s.(budget := s'.budget, readers := s'.readers) && id in s'.readers
      && s'.readers == s.readers[id := s'.readers[id]] && s'.budget.buffered == s.budget.buffered
      && s'.readers[id].registered == (s.budget.active < l.maxActiveReaders) && s'.readers[id].queue == []
      && s'.budget.active == s.budget.active + if s'.readers[id].registered then 1 else 0
    ensures Enabled(l, s, Destroy(id)) ==>
      var s', r := SharedBudget.Step(l, s, Destroy(id)), s.readers[id];
      && s'.readers == s.readers - {id} && s'.budget == s.budget && s'.calls == s.calls
      && s'.regions == if r.buffered == 0 && !r.registered then s.regions - {id}
                       else s.regions[id := Owing(r.buffered, r.registered)]
  {
    hide Sound;
  }

  /** Bytes and slots on their way back arrive, each once; the region is left with the last of them. */
  lemma GivesBack(l: Limits, s: Room, id: Id)
    requires Sound(l, s)
    ensures Enabled(l, s, GiveBytes(id)) ==>
      var s', g := SharedBudget.Step(l, s, GiveBytes(id)), s.regions[id];
      && s'.readers == s.readers && s'.calls == s.calls && s'.budget.active == s.budget.active
      && (s.budget.buffered >= g.bytes ==> s'.budget.buffered == s.budget.buffered - g.bytes)
      && s'.regions == if g.slot then s.regions[id := Owing(0, true)] else s.regions - {id}
    ensures Enabled(l, s, GiveSlot(id)) ==>
      var s', g := SharedBudget.Step(l, s, GiveSlot(id)), s.regions[id];
      && s'.readers == s.readers && s'.calls == s.calls && s'.budget.buffered == s.budget.buffered
      && (s.budget.active > 0 ==> s'.budget.active == s.budget.active - 1)
      && s'.regions == if g.bytes > 0 then s.regions[id := Owing(g.bytes, false)] else s.regions - {id}
  {
    hide Sound;
  }

  /** A ReadAll begins with nothing, and takes the oldest chunk of its reader without giving anything back. */
  lemma Takes(l: Limits, s: Room, call: Id, id: Id)
    requires Sound(l, s)
    ensures Enabled(l, s, StartReadAll(call, id)) ==>
      SharedBudget.Step(l, s, StartReadAll(call, id)) == s.(calls := s.calls[call := Call(id, [], 0, Gathering)])
    ensures Enabled(l, s, TakeChunk(call)) ==>
      var s', c := SharedBudget.Step(l, s, TakeChunk(call)), s.calls[call];
      && s'.budget == s.budget && s'.regions == s.regions
      && s'.calls == s.calls[call := c.(progress := Holding(s.readers[c.reader].queue[0]))]
      && c.reader in s'.readers && s'.readers == s.readers[c.reader := s'.readers[c.reader]]
      && s'.readers[c.reader].queue == s.readers[c.reader].queue[1..]
  {
    hide Sound, Coherent;
    if Enabled(l, s, TakeChunk(call)) {
      SoundReader(l, s, s.calls[call].reader);
    }
  }

  /** The chunk is appended; or it is over the limit, or there is no memory for it, and its reader ends. */
  lemma Appends(l: Limits, s: Room, call: Id, stored: bool)
    requires Sound(l, s) && Enabled(l, s, AppendChunk(call, stored))
    ensures var s', c := SharedBudget.Step(l, s, AppendChunk(call, stored)), s.calls[call];
      var chunk, r := c.progress.chunk, s.readers[c.reader];
      && call in s'.calls && s'.calls == s.calls[call := s'.calls[call]] && s'.budget == s.budget
      && c.reader in s'.readers && s'.readers == s.readers[c.reader := s'.readers[c.reader]]
      && var r' := s'.readers[c.reader];
         if |c.result| + |chunk| > l.maxReadAll && |chunk| > 0 then
           && s'.calls[call] == c.(progress := Doomed(chunk, true))
           && r' == if r.failed then r
                    else r.(closed := true, failed := true, reason := ReadAllLimitExceeded, registered := false)
         else if !stored then
           && s'.calls[call] == c.(progress := Doomed(chunk, false))
           && r' == if r.closed then r
                    else r.(closed := true, failed := true, reason := AllocationFailed, registered := false)
         else
           && s'.calls[call] == Call(c.reader, c.result + chunk, c.accounted + |chunk|, Gathering)
           && s' == s.(calls := s'.calls)
  {
    hide Sound, Coherent;
  }

  /** A call that is doomed or done gives back all it holds and is gone; before that it sees the end and the reader's flags. */
  lemma Ends(l: Limits, s: Room, call: Id)
    requires Sound(l, s)
    ensures Enabled(l, s, ReturnDoomed(call)) || Enabled(l, s, Finish(call)) ==>
      forall a :: a == ReturnDoomed(call) || a == Finish(call) ==> Enabled(l, s, a) ==>
        var s', c := SharedBudget.Step(l, s, a), s.calls[call];
        && s'.calls == s.calls - {call} && s'.readers == s.readers && s'.regions == s.regions
        && s'.budget.active == s.budget.active
        && (s.budget.buffered >= Held(c) ==> s'.budget.buffered == s.budget.buffered - Held(c))
    ensures Enabled(l, s, SeeEnd(call)) ==>
      SharedBudget.Step(l, s, SeeEnd(call)) == s.(calls := s.calls[call := s.calls[call].(progress := AtEnd)])
    ensures Enabled(l, s, ReadFlags(call)) ==>
      var r := s.readers[s.calls[call].reader];
      SharedBudget.Step(l, s, ReadFlags(call)) == s.(calls := s.calls[call := s.calls[call].(progress := Reporting(r.failed, r.reason))])
  {
    hide Sound;
  }
}
