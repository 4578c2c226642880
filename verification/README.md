# Meeting client core: a verified model

This project models four clusters of a meeting client that have to stay right
over unbounded runs, and proves what they promise.

- **Data streams.** `Utf8`, `StreamWriters`, `StreamWire`, `StreamReaders`,
  `ReaderVerdicts`, `SharedBudget`, `SharedCalls`, `StreamRoundTrip`, `Assembler`
  and `AssemblerCalls`. Writers cut texts and bytes into chunks and emit header,
  chunks, trailer to a publisher that may refuse or throw; ordered readers check
  what arrives and share one memory budget, also with unfinished `ReadAll` calls;
  a second receiver reassembles chunks that arrive in any order.
- **Remote video decisions.** `ParticipantEvents`, `Catalogs`, `CatalogMeaning`,
  `DemandTypes`, `DemandPolicy`, `DemandSeats`, `DemandMeaning`, `AudioOrder`,
  `DemandInputs`, `Hysteresis`, `Paging`, `Layouts`, `PlanShape`, `FocusOrder`,
  `PlanMeaning`, `WakeUp`, `WakeUpExample`, `PolicyObject` and `SessionRuntime`.
  Events build a catalog; the catalog, the viewport, the speakers and time drive
  a policy; its plan becomes the media plan the room applies.
- **Shutdown.** `ShutdownService`, `ShutdownCalls`, `CallbackGate` and `GateCalls`:
  submitters, worker, closer and application thread as atomic steps, one for each
  region under a mutex and one for each post outside it.
- **Camera hot switch.** `CameraSwitch` and `CameraOutcomes`: probes started
  outside the lock, racing with frames, timeouts, newer requests, start and stop.

Each component has the same layout. A datatype holds its state and functions say
what each operation does to it. Where the program changes objects in place there
is a class with the program's own fields, whose methods, loops included, are
proved to do exactly that. The theorems are about those functions: over every
sequence of operations, every interleaving of threads, every publisher, every
arrival order. What each operation achieves is also told without those functions,
of the states before and after it. Times are integers that callers pass in; revisions, generations,
counters and ids are unbounded naturals; chunk size and limits are parameters,
with a chunk size of at least four.

Some statements one would expect are not true of the program. The model keeps the
program's behaviour and proves when the statement does hold.

- A catalog without a generation lets a rejected track event install one, without
  a new revision (`Catalogs.RejectionThatInstalls`, `RejectionInstallsExample`). A
  recovery request for that generation then stays unanswered
  (`SessionRuntime.RecoveryOverdueExactly`, `RecoveryOverdueExample`).
- `NextReconcileAt` can name the present instant: with a positive delay exactly when
  no focused layout is shown and a leftover focus is overdue
  (`WakeUp.WakesAtOnceExactly`, `WakeUpExample.WakesAtOnceExample`), and it does so
  again at every wake-up until an input comes or the candidate that is the focus
  itself becomes the stable speaker (`WakeUp.AtOnceRepeatsExactly`).
- A reader that closed cleanly can still fail, exactly when a `ReadAll` finds its
  chunk over the limit (`SharedBudget.CleanCloseFailsLater`, `CleanCloseFailsExample`).
- A stream handed to a reader with too little room fails; it does so exactly then
  (`StreamRoundTrip.RoundTrip`, `OverflowExample`).
- A camera switched in earlier falls silent when a newer switch begins, even if
  that one is aborted (`CameraSwitch.SilentOnceOvertaken`), and the cleanup of an
  overtaken request can stop the active camera (`CameraSwitch.CleanupStopsActive`,
  `AbortSilencesExample`).
- The main seat next to a sidebar is three quarters of the stage only while three
  times the width fits 32 bits (`DemandInputs.MainWidthExact`, `MainWidthExample`).

Run `dafny verify dfyconfig.toml` to check everything.

## Model

| member | source | states |
|---|---|---|
| Utf8.ValidIffWellFormed | src/core/data_stream.cpp:56-94 | reading a text character by character from the left accepts exactly the texts that section 4 of RFC 3629 spells as a sequence of characters |
| Utf8.IsValidUtf8 | src/core/data_stream.cpp:56-94 | the validation loop accepts a text if and only if the grammar of RFC 3629 section 4 does |
| Utf8.CharacterAt | src/core/data_stream.cpp:59-91 | one round of the loop finds the length of the character the grammar has at that position, or none |
| Utf8.Utf8AwareChunkSize | src/core/data_stream.cpp:96-106 | the backward search stops at the nearest octet that does not continue a character, and takes the full size when there is none |
| Utf8.ChunksAddUp | src/core/data_stream.cpp:814-820 | every text, valid or not, is cut into non-empty chunks of at most the limit whose concatenation is the text |
| Utf8.SplitBeforeLead | src/core/data_stream.cpp:96-106 | cutting a valid text in front of a character leaves two valid texts |
| Utf8.LeadWithinFour | src/core/data_stream.cpp:96-106 | among any four neighbouring octets of a valid text one starts a character |
| Utf8.CutKeepsCharacters | src/core/data_stream.cpp:96-106 | with a limit of at least four the cut of a valid text leaves a valid chunk and a valid rest |
| Utf8.ChunksAreWellFormed | src/core/data_stream.cpp:809-821 | with a limit of at least four every chunk of a well-formed text is well formed |
| Utf8.FourIsNeeded | src/core/data_stream.cpp:96-106 | with a limit of three some well-formed text gets a chunk that is not |
| StreamWriters.WriterGrammar | src/core/data_stream.cpp:701-777 | under any publisher and any calls the offered and the accepted packets are a prefix of header, chunks 0, 1, 2, ..., trailer; at most one refused packet is offered and it is the last; the writer is closed exactly when a trailer was accepted |
| StreamWriters.FailureSticks | src/core/data_stream.cpp:688-699 | after a failure nothing is offered again and every explicit call raises that same first failure |
| StreamWriters.PayloadIsWritten | src/core/data_stream.cpp:809-865 | the accepted payload is always a prefix of what was written before the end, and all of it unless a packet failed |
| StreamWriters.SlicesAddUp | src/core/data_stream.cpp:859-864 | byte chunks are non-empty, within the limit and concatenate to the data |
| StreamWire.WireExactly | src/core/data_stream.cpp:673-865 | under any publisher and any operations: while nothing has failed exactly the planned packets were offered and taken, where the plan is read off the operations alone (one header with the declared length, the pieces in numbered chunks, one trailer with the reason of the operation that ends the stream, "cancelled" for a cancellation without one); after a failure they are a beginning of the plan, and the failure is what the publisher said of its last packet, at the stage of that packet |
| StreamWire.RaisesExactly | src/core/data_stream.cpp:688-728 | an operation raises exactly the failure the writer then has, and destruction raises nothing |
| StreamWire.SlicesAreFull | src/core/data_stream.cpp:859-864 | byte chunks are full but for the last one |
| StreamWire.CutsAreLong | src/core/data_stream.cpp:96-106 | text chunks but the last lack at most three octets |
| StreamWriters.BaseStreamWriter.FailLocked | src/core/data_stream.cpp:693-699 | the first failure is kept and is the one raised |
| StreamWriters.BaseStreamWriter.PublishPacket | src/core/data_stream.cpp:701-728 | a missing, refusing or throwing publisher fails the writer with the failure of that stage; otherwise the packet counts as accepted |
| StreamWriters.BaseStreamWriter.EnsureHeaderSent | src/core/data_stream.cpp:730-738 | the header goes out once, before anything else |
| StreamWriters.BaseStreamWriter.Send | src/core/data_stream.cpp:740-753 | a chunk carries the next index, which advances only when the packet was taken |
| StreamWriters.BaseStreamWriter.Close | src/core/data_stream.cpp:755-777 | an open writer sends its trailer and closes; a closed one does nothing; a failed one raises its failure |
| StreamWriters.BaseStreamWriter.Finalize | src/core/data_stream.cpp:673-686 | destruction closes an open writer and raises nothing |
| StreamWriters.BaseStreamWriter.WriteText | src/core/data_stream.cpp:809-812 | closed writers and empty texts send nothing; failed ones raise |
| StreamWriters.BaseStreamWriter.SendText | src/core/data_stream.cpp:814-820 | the cutting loop sends exactly the character-aware chunks in order, up to the first failure |
| StreamWriters.BaseStreamWriter.WriteBytes | src/core/data_stream.cpp:854-857 | closed writers and empty data send nothing; failed ones raise |
| StreamWriters.BaseStreamWriter.SendBytes | src/core/data_stream.cpp:859-864 | the loop sends exactly the consecutive slices in order, up to the first failure |
| StreamReaders.ReaderHistory | src/core/data_stream.cpp:191-252 | in any life of a reader the octets handed out followed by those queued are the accepted chunks in index order; queue length and size respect the limits; a clean close has received exactly the declared length |
| StreamReaders.CloseIsFinal | src/core/data_stream.cpp:345-394 | a closed reader accepts nothing more and a failure keeps its first reason; a clean close becomes a failure if and only if a later ReadAll finds its next chunk over the limit, and then for that reason |
| StreamReaders.RefusalAddsNothing | src/core/data_stream.cpp:294-343 | a chunk that is not accepted leaves the reader closed and queue, counters and reserved bytes as they were |
| StreamReaders.ArriveCases | src/core/data_stream.cpp:294-343 | an accepted chunk has the next index, is well formed in a text stream, and is appended unless it is empty |
| ReaderVerdicts.ArriveExactly | src/core/data_stream.cpp:294-343 | a chunk is accepted exactly when the reader is open and nothing is wrong with it; the first thing wrong, in the order of the checks, is the reason the reader ends for; a chunk that is not empty is queued last, counted and reserved |
| ReaderVerdicts.CloseExactly | src/core/data_stream.cpp:345-364 | a trailer closes an open reader cleanly exactly when the declared length was met and no reason is given; a missed length goes before a given reason |
| StreamReaders.ReadAllExact | src/core/data_stream.cpp:210-252 | with memory available ReadAll returns everything exactly when the stream has ended without failing and the total is within the limit, and gives its bytes back; on an open stream it waits with everything, its bytes still reserved; it is too long exactly over the limit, and then the stream fails |
| StreamReaders.ReadAllFailsExactly | src/core/data_stream.cpp:210-252 | a reader that has not failed, closed or open, is failed by ReadAll if and only if what the call holds and what is queued together exceed the limit |
| StreamReaders.DataStreamReaderBudget.TryAcquireReader | src/core/data_stream.cpp:120-125 | a slot is granted exactly while fewer than the maximum are taken |
| StreamReaders.DataStreamReaderBudget.TryReserveBuffered | src/core/data_stream.cpp:132-140 | bytes are reserved exactly when they fit what is left of the limit |
| StreamReaders.StreamReader.constructor | src/core/data_stream.cpp:165-178 | a reader without a slot is born closed and failed |
| StreamReaders.StreamReader.FailLocked | src/core/data_stream.cpp:377-384 | an open reader closes with that reason and gives its slot back; a closed one stays as it is |
| StreamReaders.StreamReader.ReadNext | src/core/data_stream.cpp:191-208 | the oldest chunk is handed out and its bytes returned; an empty queue means the end exactly when the reader is closed |
| StreamReaders.StreamReader.TryOnChunkUpdate | src/core/data_stream.cpp:294-309 | the answer is whether the chunk was accepted, and state and budget change as the order of the checks demands |
| StreamReaders.StreamReader.AdmitBytes | src/core/data_stream.cpp:311-343 | declared length, queue length, reader share, shared budget and memory are checked in this order, each with its own reason |
| StreamReaders.StreamReader.OnStreamClose | src/core/data_stream.cpp:345-364 | a normal end closes cleanly only when the declared length was met |
| StreamReaders.StreamReader.ReadAll | src/core/data_stream.cpp:210-252 | the loop gathers all chunks, stops at the limit or at a failed append, waits while the stream is open, and returns the bytes it holds on every exit but that wait |
| StreamReaders.StreamReader.Finalize | src/core/data_stream.cpp:180-189 | destruction returns the slot and all queued bytes |
| SharedBudget.StepConserves | src/core/data_stream.cpp:180-252 | every step keeps the conservation below: arrivals, reads, ends, destruction and ReadAll calls of any number of readers, each taking its reader's mutex and the budget's mutex at different moments |
| SharedBudget.BudgetConservation | src/core/data_stream.cpp:120-145 | in every reachable state the reserved bytes are all queued bytes plus those held by unfinished ReadAll calls plus those a thread inside a region has reserved and not yet stored, or taken and not yet returned; the active count is the number of readers holding a slot plus the slots on their way back; neither exceeds its limit |
| SharedBudget.ConservationBetweenRegions | src/core/data_stream.cpp:120-145 | whenever no thread is inside a region nothing is in transit, and the budget is exactly what is queued and what ReadAll calls hold |
| SharedBudget.ReleaseNeverSaturates | src/core/data_stream.cpp:127-145 | no return of bytes or of a slot ever finds less in the budget than it gives back, so neither saturation is ever needed |
| SharedBudget.ArrivalUndisturbed | src/core/data_stream.cpp:294-343 | the steps of one arriving chunk, run without interruption, do what the reader's admission does at once: judge, reserve, store or roll back, give the slot back |
| SharedBudget.ReadUndisturbed | src/core/data_stream.cpp:191-208 | the steps of one ReadNext, run without interruption, hand the oldest chunk out and return its bytes |
| SharedCalls.Appends | src/core/data_stream.cpp:225-243 | a ReadAll appends the chunk it took, or is over the limit, or has no memory for it; in the last two cases its reader ends for that reason unless it has ended already |
| SharedBudget.CleanCloseFailsExactly | src/core/data_stream.cpp:225-240 | in any sound state a step fails a cleanly closed reader if and only if it is a ReadAll of that reader finding its chunk over the limit |
| SharedBudget.CleanCloseFailsLater | src/core/data_stream.cpp:225-240 | over every continuation of every run a cleanly closed reader stays closed, and has failed if and only if some step was such an overrun |
| SharedBudget.CleanCloseFailsExample | src/core/data_stream.cpp:386-394 | a run in which a reader closes cleanly and then fails |
| StreamRoundTrip.WireIsComplete | src/core/data_stream.cpp:740-777 | well-formed writes and a normal close over a publisher that takes everything put a complete stream on the wire whose payload is what was written |
| StreamRoundTrip.FailsOnlyByOverflow | src/core/data_stream.cpp:294-364 | a reader of a complete stream fails if and only if some arrival found no room |
| StreamRoundTrip.RoundTrip | src/core/data_stream.cpp:191-364 | for all writes, reads and traffic of other readers: what was read followed by what is queued is a prefix of what was written, and once the wire is drained all of it with a clean close, unless an arrival found no room; then the reason is a limit |
| StreamRoundTrip.FirstChunkOverflows | src/core/data_stream.cpp:318-321 | where no chunk may be queued, the first delivery fails the reader of every session that writes anything |
| StreamRoundTrip.OverflowExample | src/core/data_stream.cpp:318-321 | such a session exists |
| StreamRoundTrip.RoomyNeverOverflows | src/core/data_stream.cpp:311-329 | limits that hold the whole stream next to the largest share of the others are enough under every schedule |
| Assembler.StepKeeps | src/core/data_stream_assembler.cpp:14-187 | every call keeps the total equal to the stored sizes, all caps, and every stored stream incomplete |
| AssemblerCalls.BeginExactly | src/core/data_stream_assembler.cpp:14-45 | a Begin succeeds if and only if its id is not empty, its length is positive and within the limits, and fewer than the allowed streams other than that one are left after a due clean-up; then the stream is stored empty and a stream of that name is gone; every other one left is unchanged; a refused header changes nothing |
| AssemblerCalls.ChunkExactly | src/core/data_stream_assembler.cpp:47-86 | other streams are as a due clean-up leaves them; of its own, an expired one goes, a chunk seen before changes nothing, one over a cap drops the stream, and any other is stored, handing the stream out exactly when that makes it whole |
| AssemblerCalls.FinishExactly | src/core/data_stream_assembler.cpp:88-103 | the trailer drops its stream, hands out nothing, and leaves others as a due clean-up does |
| AssemblerCalls.PurgeExactly | src/core/data_stream_assembler.cpp:105-108 | an explicit purge takes exactly the expired streams, whether or not a clean-up is due |
| AssemblerCalls.DiscardExactly | src/core/data_stream_assembler.cpp:116-122 | exactly the named stream goes, and nothing is cleaned up |
| Assembler.FinishNeverDelivers | src/core/data_stream_assembler.cpp:88-103 | in no reachable state does the trailer deliver; it only drops the stream |
| Assembler.AtMostOncePerBegin | src/core/data_stream_assembler.cpp:47-103 | between two Begins of a stream it is delivered at most once, whatever is called |
| Assembler.OrderIndependence | src/core/data_stream_assembler.cpp:47-86 | after a successful Begin any order of all chunks, with duplicates and calls on other streams in between, delivers exactly once, and exactly the concatenation in index order |
| Assembler.OrderIndependenceInWindow | src/core/data_stream_assembler.cpp:47-86 | the same with conditions read off the calls: one time to live, and a global cap that covers what the streams stored, this one and those begun meanwhile have declared, or all streams at full size |
| Assembler.PurgedExactly | src/core/data_stream_assembler.cpp:140-153 | a purge removes the expired streams, keeps every other one unchanged and leaves the total equal to what is stored |
| Assembler.IsCompleteLocked | src/core/data_stream_assembler.cpp:155-168 | complete means all declared octets and indices without a gap from zero |
| Assembler.AssemblePayload | src/core/data_stream_assembler.cpp:170-182 | the payload is the chunks in index order |
| Assembler.IncomingDataStreamAssembler.Begin | src/core/data_stream_assembler.cpp:14-45 | a refused header changes nothing; otherwise expired streams go, a stream of that name is replaced and the stream cap decides |
| Assembler.IncomingDataStreamAssembler.AddChunk | src/core/data_stream_assembler.cpp:47-86 | cleanup first, then expiry, duplicates and caps, then storing and perhaps delivering |
| Assembler.IncomingDataStreamAssembler.AddChunkLocked | src/core/data_stream_assembler.cpp:55-73 | an expired stream or a chunk over a cap drops the stream; a duplicate changes nothing |
| Assembler.IncomingDataStreamAssembler.StoreChunkLocked | src/core/data_stream_assembler.cpp:75-86 | the chunk that completes a stream delivers it and removes it |
| Assembler.IncomingDataStreamAssembler.Finish | src/core/data_stream_assembler.cpp:88-103 | a known stream is removed |
| Assembler.IncomingDataStreamAssembler.PurgeExpiredLocked | src/core/data_stream_assembler.cpp:140-153 | the loop removes exactly the expired streams, counts them and moves the next cleanup |
| Assembler.IncomingDataStreamAssembler.MaybePurgeExpiredLocked | src/core/data_stream_assembler.cpp:134-138 | a purge happens on the first call and when the cleanup time has come |
| Assembler.IncomingDataStreamAssembler.AssembleAndEraseLocked | src/core/data_stream_assembler.cpp:170-187 | the delivered stream leaves nothing behind |
| Assembler.IncomingDataStreamAssembler.Discard | src/core/data_stream_assembler.cpp:116-122 | the answer is whether the stream was there; it is gone |
| Catalogs.CatalogInvariant | src/core/publication_catalog.cpp:65-187 | after any well-formed events sids are pairwise distinct, so are non-empty identities and the keys of one participant, publications belong to their participant, all keys carry the installed generation, and available media has no subscription error |
| Catalogs.ApplyKeeps | src/core/publication_catalog.cpp:65-180 | one event keeps that invariant |
| Catalogs.RevisionLaw | src/core/publication_catalog.cpp:65-180 | the generation never falls; the revision rises by one exactly when the event is applied; a change reported as none touches at most tickets; a rejection changes nothing once a generation is installed |
| Catalogs.RejectionThatInstalls | src/core/publication_catalog.cpp:86-137 | a rejection changes the catalog if and only if a track event names the very first generation |
| Catalogs.RejectionInstallsExample | src/core/publication_catalog.cpp:137 | such an event exists: the generation is installed, the revision stays |
| Catalogs.RetireLaw | src/core/publication_catalog.cpp:182-187 | the first retirement raises the revision; afterwards every event is rejected and changes nothing |
| Catalogs.RevisionCounts | src/core/publication_catalog.cpp:177-187 | over any run the revision is the number of applied events plus one for the first retirement |
| Catalogs.UntouchedIsSame | src/core/publication_catalog.cpp:129-174 | an event that reports no change leaves everything but tickets as it was |
| CatalogMeaning.NotAdmitted | src/core/publication_catalog.cpp:65-86 | an event that does not get in leaves no trace, and is answered retired, unconcerned, invalid or stale in this order |
| CatalogMeaning.GenerationMeans | src/core/publication_catalog.cpp:8-16 | the generation an event names is its own, else its participant's, else its track's |
| CatalogMeaning.DepartureMeans | src/core/publication_catalog.cpp:88-94 | after an admitted departure exactly the one who departs is gone, the others keep their order, and it counts as a change exactly when somebody went or the generation is new |
| CatalogMeaning.UpsertMeans | src/core/publication_catalog.cpp:95-134 | after an admitted upsert a known participant is replaced where it stands; a new one comes last, exactly those whose sid or non-empty identity it takes are gone, and the rest keep their order; it says what was reported, with exactly the live reports about itself as publications, in order, and media only where it was; it counts as a change exactly when more than tickets differ |
| CatalogMeaning.TrackRenewed | src/core/publication_catalog.cpp:135-174 | a track event renews exactly its publication: state and ticket of the event, media as the kind demands, everything else unchanged |
| CatalogMeaning.TrackStarted | src/core/publication_catalog.cpp:138-149 | a track that becomes available for the first time comes last among those of its participant, and nothing else changes |
| CatalogMeaning.TrackRefused | src/core/publication_catalog.cpp:135-174 | a track event is stale if and only if its participant is unknown, or its track is unknown and does not start, or its ticket does not count; then everybody stays as they were |
| Catalogs.PublicationCatalog.Apply | src/core/publication_catalog.cpp:65-180 | result and new state of an event, in the order of the checks |
| Catalogs.PublicationCatalog.ApplyUpsert | src/core/publication_catalog.cpp:95-134 | a known participant is replaced in place; a new one displaces those with its sid or identity |
| Catalogs.PublicationCatalog.ApplyTrack | src/core/publication_catalog.cpp:135-174 | a track event adds, refreshes or ends one publication, or is stale and changes nothing |
| Catalogs.PublicationCatalog.ProjectPublications | src/core/publication_catalog.cpp:103-114 | live publications of that participant are kept in order, with the availability known before |
| Catalogs.PublicationCatalog.EraseDeparted | src/core/publication_catalog.cpp:88-94 | everybody but the departed stays, in order |
| Catalogs.PublicationCatalog.EraseDisplaced | src/core/publication_catalog.cpp:117-125 | the displaced go and the rest stay in order |
| Catalogs.PublicationCatalog.Retire | src/core/publication_catalog.cpp:182-187 | participants are gone and nothing is accepted any more |
| DemandSeats.StableSortSorts | src/core/video_demand_policy.cpp:270-276 | the publications of a participant come back as the same multiset, camera before share before others, by sid within each |
| DemandSeats.AllSeats | src/core/video_demand_policy.cpp:257-285 | seat keys are distinct, every seat belongs to a participant, and every video of every participant has its seat |
| DemandSeats.SeatsFind | src/core/video_demand_policy.cpp:234-285 | the publication of a seat is the one its key finds, and all seats are of the catalog generation |
| DemandSeats.TrackHasSeat | src/core/video_demand_policy.cpp:234-285 | every video the catalog finds has a seat that carries it |
| DemandSeats.ResolvedHasSeat | src/core/video_demand_policy.cpp:333-341 | a key that resolves to a seat has one |
| DemandSeats.SpeakerCameraResolves | src/core/video_demand_policy.cpp:304-331 | the camera of the first speaker resolves to itself |
| DemandMeaning.SeatsMean | src/core/video_demand_policy.cpp:257-285 | a key has a seat if and only if it names a published video, or stands for a participant without any |
| DemandMeaning.SeatsInOrder | src/core/video_demand_policy.cpp:257-285 | seats come in the order of the participants, and within one camera before share before others, then by sid as a dictionary has them |
| DemandMeaning.SeatMeans | src/core/video_demand_policy.cpp:333-341 | a key resolves to a seat if and only if it has one |
| DemandMeaning.TrackMeans | src/core/video_demand_policy.cpp:321-353 | a key resolves to a track of a source, or counts as a share to be detected, if and only if the catalog publishes such a track under it |
| DemandMeaning.SpeechMeans | src/core/video_demand_policy.cpp:304-372 | one observation: the candidate is the first live camera of the first remote speaker who has one; a new candidate starts its time, one heard again becomes stable when its delay is over, and the stable speaker lasts while it is published and somebody is heard |
| DemandMeaning.ShareMeans | src/core/video_demand_policy.cpp:374-384 | the present share stays while it is live, otherwise the first live one in display order takes over |
| AudioOrder.AudioMeans | src/core/video_demand_policy.cpp:287-302 | selected are exactly the allowed audio publications of the catalog, each once and in its order |
| DemandInputs.InputsOnlyAdvance | src/core/video_demand_policy.cpp:71-145 | a catalog gives way only to a later one, a viewport only to one of a later revision, and only a retirement takes the catalog away |
| DemandInputs.CatalogTakenExactly | src/core/video_demand_policy.cpp:71-103 | a catalog is taken if and only if the policy accepts, it is of this session and of some generation, and later than the present one; a new generation forgets speaker, share, focus and anchors, and nothing else moves |
| DemandInputs.ConfigMeans | src/core/video_demand_policy.cpp:60-69 | a policy shows at most sixteen seats whatever it is configured with, and starts with a page size of four, nine or sixteen |
| DemandInputs.ViewportTakenExactly | src/core/video_demand_policy.cpp:105-145 | a viewport is taken if and only if the policy accepts, it is of this session, and newer than the present one or its repetition; it concerns the anchor of the sidebar in speaker mode and of the grid in any other |
| DemandInputs.RevisionCountsChanges | src/core/video_demand_policy.cpp:165-232 | the policy revision rises, by one, exactly when the published plan changes otherwise |
| DemandInputs.RetiredIsFinal | src/core/video_demand_policy.cpp:206-232 | a retired policy publishes an empty plan, never changes again and never wakes up |
| DemandInputs.RunIsCurrent | src/core/video_demand_policy.cpp:89-100 | in every reachable policy candidate, stable speaker, share and focus belong to the generation of the catalog |
| DemandInputs.GridTilesFit | src/core/video_demand_policy.cpp:688-703 | the tiles of a full grid page fit the stage in columns and rows |
| DemandInputs.SmallTilesFit | src/core/video_demand_policy.cpp:719-740 | sidebar seats share a quarter of the width and the whole height, an inset has a third of both, as large as fits and never empty |
| DemandInputs.MainWidthExact | src/core/video_demand_policy.cpp:705-717 | the main seat keeps three quarters of the width if and only if three times the width fits 32 bits, never more, and fits next to the sidebar if and only if the stage has any width; alone it has the whole stage |
| DemandInputs.MainWidthExample | src/core/video_demand_policy.cpp:705-709 | the narrowest width that wraps around leaves the main seat none |
| DemandInputs.PrioritiesRank | src/core/video_demand_policy.cpp:657-664 | a pin outranks everything, main outranks picture in picture outranks sidebar outranks grid, and a share outranks a camera of the same role |
| WakeUp.WakeUpSound | src/core/video_demand_policy.cpp:165-204 | after a reconciliation, with no new input, reconciling at any time before NextReconcileAt leaves the whole plan and its revision unchanged, whatever the delays |
| WakeUp.SleepingMissesNothing | src/core/video_demand_policy.cpp:165-204 | the same in every reachable state, after any sequence of inputs |
| WakeUp.WakesAtOnceExactly | src/core/video_demand_policy.cpp:177-204 | the wake-up time is the present if and only if, before the reconciliation and once the speaker has advanced, a candidate is due, which a positive delay rules out, or no focused layout is shown and the residence of a leftover focus has run out |
| WakeUpExample.WakesAtOnceExample | src/core/video_demand_policy.cpp:177-204 | a run of inputs whose last reconciliation names its own instant |
| WakeUp.AtOnceRepeatsExactly | src/core/meeting_coordinator.cpp:4231-4239 | with no new input such a wake-up is followed by another one at once, at any later time, unless the focus itself is the candidate and its delay has run out by then |
| WakeUp.AtOnceForEver | src/core/meeting_coordinator.cpp:4231-4239 | unless the waiting candidate is the focus itself, every one of any number of later wake-ups names its own instant again |
| WakeUp.FocusedWakesLater | src/core/video_demand_policy.cpp:386-437 | after a focused layout the wake-up time is strictly in the future |
| WakeUp.SamePlanExact | src/core/video_demand_policy.cpp:749-777 | plans are the same exactly when they differ at most in the policy revision |
| PlanMeaning.WakeUpTight | src/core/video_demand_policy.cpp:165-204 | a wake-up in the future is not in vain: reconciling at that time gives another stable speaker or another focus, unless nothing is laid out around a focus and a leftover one is due |
| FocusOrder.WakeUpMeans | src/core/video_demand_policy.cpp:177-204 | the wake-up time is the end of a waiting candidate's delay or of the residence of a focus in the speaker's way, whichever is sooner, and never in the past; there is none exactly when neither waits |
| Hysteresis.SpeakerHysteresis | src/core/video_demand_policy.cpp:355-372 | a key becomes the stable speaker only after every observation over at least the candidate delay has heard it |
| Hysteresis.HeardLongEnough | src/core/video_demand_policy.cpp:355-372 | a camera that every observation hears over at least the candidate delay is the stable speaker after the last of them |
| FocusOrder.FocusedViewMeans | src/core/video_demand_policy.cpp:448-491 | the stage is laid out around a focus if and only if it shows video and the mode asks for it, a pin or a selected share holds, or in automatic mode somebody shares |
| FocusOrder.FocusFollows | src/core/video_demand_policy.cpp:386-437 | around a focus: the pin if it has a seat; else the selected share if it is one; else the detected share while somebody shares; else the stable speaker, at once or when the present focus has resided; else the present focus; else the first seat; the plan names that focus, and its time starts when it changes |
| Hysteresis.FocusHysteresis | src/core/video_demand_policy.cpp:412-437 | a present focus not gained by pin or share yields to a speaker only after being the focus of every reconciliation over at least the minimum residence |
| Paging.TurningShowsPrefix | src/core/video_demand_policy.cpp:493-536 | turning pages 0, 1, 2, ... shows the ordered seats from the first on without gap or repetition |
| Paging.PagesShowEveryone | src/core/video_demand_policy.cpp:493-536 | all pages together show every ordered seat exactly once and in order |
| Paging.AnchorStarts | src/core/video_demand_policy.cpp:506-527 | reconciling a grid page in range that somebody sits on makes its first seat the anchor |
| Paging.AnchorSurvives | src/core/video_demand_policy.cpp:506-527 | one later catalog of the same generation that still has the anchor keeps it as the first seat of the page |
| Paging.AnchorStays | src/core/video_demand_policy.cpp:506-527 | whatever seat a reconciled page in range starts with stays its first seat over any later catalogs, while the page stays requested and in range and that seat stays |
| Layouts.AllPagesTurned | src/core/video_demand_policy.cpp:493-536 | as many pages as it takes, of a grid or a sidebar, show everybody once and in order, and the last is not empty |
| Layouts.SeatMeans | src/core/video_demand_policy.cpp:614-672 | what a seat says: the largest size within tile and cap, the lowest tier with that many lines, its priority, and why it is or is not shown |
| PlanMeaning.PlanIs | src/core/video_demand_policy.cpp:439-612 | what every reconciliation publishes: nobody on a stage that shows no video; around a focus its seat first and then a sidebar window of the others in display order, from the anchor or the page on, or one inset; otherwise the grid window from the anchor or the page on; with roles, sizes, pages, mode and reason |
| PlanMeaning.Observes | src/core/video_demand_policy.cpp:439-447 | a reconciliation observes the speakers and detects the share before it lays out |
| PlanShape.AddSeatOk | src/core/video_demand_policy.cpp:614-672 | adding a seat keeps seats distinct and within the budget, and selects the seat exactly when it shows a video of some size |
| PlanShape.FocusHasSeat | src/core/video_demand_policy.cpp:551-553 | whatever is chosen as focus has a seat, so the search for it never fails |
| PlanShape.BuildOk | src/core/video_demand_policy.cpp:439-612 | every plan has at most the budget of distinct seats, selects exactly the seats that show an allowed, unmuted video of non-zero size, lists all allowed audio once in the order of the catalog, and seats the focus first |
| PolicyObject.VideoDemandPolicy.constructor | src/core/video_demand_policy.cpp:60-69 | the budget is capped at sixteen and the default page size is one of the allowed ones |
| PolicyObject.VideoDemandPolicy.UpdateCatalog | src/core/video_demand_policy.cpp:71-103 | stale catalogs are refused; a new generation forgets the speaker, the share, the focus and the anchors |
| PolicyObject.VideoDemandPolicy.UpdateViewport | src/core/video_demand_policy.cpp:105-145 | stale or contradictory viewports are refused; a turned page loses its anchor unless it brings one |
| PolicyObject.VideoDemandPolicy.UpdateSpeakers | src/core/video_demand_policy.cpp:147-163 | the answer is whether the speakers changed; the candidate advances in any case |
| PolicyObject.VideoDemandPolicy.Reconcile | src/core/video_demand_policy.cpp:165-175 | a plan that differs replaces the published one with the next revision |
| PolicyObject.VideoDemandPolicy.NextWakeUp | src/core/video_demand_policy.cpp:177-204 | the earlier of the candidate and focus deadlines, not before now |
| PolicyObject.VideoDemandPolicy.Retire | src/core/video_demand_policy.cpp:206-232 | everything remembered is gone and the plan is empty |
| PolicyObject.VideoDemandPolicy.AdvanceSpeaker | src/core/video_demand_policy.cpp:355-372 | a candidate starts with its first observation, becomes stable after the delay, and is dropped when nobody speaks |
| PolicyObject.VideoDemandPolicy.RefreshAutoShare | src/core/video_demand_policy.cpp:374-384 | a share that still is one stays; otherwise the first in seat order |
| PolicyObject.VideoDemandPolicy.ChooseFocus | src/core/video_demand_policy.cpp:386-437 | pin before selected share before automatic share before speaker before the present focus before the first seat |
| PolicyObject.VideoDemandPolicy.BuildGrid | src/core/video_demand_policy.cpp:493-536 | the window starts at the anchor if its seat is there, otherwise at the page |
| PolicyObject.VideoDemandPolicy.TurnSidebar | src/core/video_demand_policy.cpp:577-598 | the sidebar starts at its anchor if that seat is there, otherwise at the page |
| PolicyObject.VideoDemandPolicy.BuildSidebar | src/core/video_demand_policy.cpp:571-609 | main seat first, then the sidebar window |
| PolicyObject.VideoDemandPolicy.BuildPictureInPicture | src/core/video_demand_policy.cpp:560-570 | main seat first, then one more if there is somebody and budget |
| PolicyObject.VideoDemandPolicy.BuildFocused | src/core/video_demand_policy.cpp:538-612 | the focus is chosen, then laid out with the others around it |
| PolicyObject.VideoDemandPolicy.AddSeat | src/core/video_demand_policy.cpp:614-672 | seat, size, quality, priority and reason of one candidate, and whether it is selected |
| PolicyObject.VideoDemandPolicy.BuildPlan | src/core/video_demand_policy.cpp:439-491 | speaker and share advance first; then hidden, whiteboard, focused and grid layouts apply in that order |
| PolicyObject.ComputeOrderedSeats | src/core/video_demand_policy.cpp:257-285 | the loop yields the seats in display order |
| PolicyObject.ComputeSelectedAudio | src/core/video_demand_policy.cpp:287-302 | the loops yield each allowed audio key once, in catalog order |
| PolicyObject.ResolveSpeakerCamera | src/core/video_demand_policy.cpp:304-319 | the first remote speaker with a camera that can be shown |
| SessionRuntime.RunKeeps | src/core/meeting_session_runtime.h:175-184 | in every reachable session the policy decides over what the catalog holds up to tickets, both accept together, the catalog invariant holds, and a stopped session selects nothing |
| SessionRuntime.MediaPlanOk | src/core/meeting_session_runtime.h:310-355 | the media plan built from any such session is consistent with the catalog it names |
| SessionRuntime.MediaPlanConsistency | src/core/meeting_session_runtime.h:310-355 | in every reachable session: known publications are exactly those of the catalog, once; audio is every allowed audio publication of the present catalog, once and in its order; audio and video are known and of the installed generation; exactly the selected videos are demanded, at most sixteen, each allowed and unmuted with a visible seat of non-zero size; the focus is the first seat |
| SessionRuntime.MediaPlanSleeps | src/core/meeting_session_runtime.h:293-308 | until the wake-up time of the policy the media plan stays as it is |
| SessionRuntime.KnownAreFound | src/core/meeting_session_runtime.h:327-333 | the known publications are those the catalog finds, without repetition |
| SessionRuntime.RecoveryStep | src/core/meeting_session_runtime.h:359-381 | an answer is consistent and carries the session, generation, epoch and token of its own request; a pending request is replaced only by one of a later epoch |
| SessionRuntime.AnswersExactly | src/core/meeting_session_runtime.h:359-381 | a callback is called if and only if an applied event brings the generation the pending one waits for, or the one handed in asks for the present generation |
| SessionRuntime.WaitsExactly | src/core/meeting_session_runtime.h:359-400 | a request waits if and only if it asks for a later generation and nobody of its epoch or a later one waits; an applied event leaves nobody waiting for a generation that is there or over, and a stop nobody at all |
| SessionRuntime.PolicyFollows | src/core/meeting_session_runtime.h:175-219 | every input reaches catalog and policy once, an event the policy only when it is applied, and an answer is preceded by a reconciliation |
| SessionRuntime.AnsweredAtMostOnce | src/core/meeting_session_runtime.h:500-515 | counting with multiplicity, completions called together with the one pending never exceed those handed in |
| SessionRuntime.RecoveryOverdueExactly | src/core/meeting_session_runtime.h:500-515 | a pending recovery whose generation arrives stays unanswered if and only if a rejected track event installed that generation |
| SessionRuntime.RecoveryOverdueExample | src/core/meeting_session_runtime.h:175-184 | a run of two operations after which the generation is there and its recovery is pending and unanswered |
| SessionRuntime.MeetingSessionRuntime.UpdatePublicationCatalog | src/core/meeting_session_runtime.h:175-184 | an applied event reaches the policy and may complete the pending recovery; any other reaches nobody |
| SessionRuntime.MeetingSessionRuntime.CompletePendingRecovery | src/core/meeting_session_runtime.h:500-515 | a pending recovery is answered when its generation is there, dropped when it was passed, and kept before |
| SessionRuntime.MeetingSessionRuntime.BuildRemoteMediaPlan | src/core/meeting_session_runtime.h:310-355 | reconciliation first, then the plan from catalog and policy |
| SessionRuntime.MeetingSessionRuntime.RequestRemoteMediaRecovery | src/core/meeting_session_runtime.h:359-381 | answered at once for the present generation, dropped for a past one, kept for a later one |
| SessionRuntime.MeetingSessionRuntime.UpdateViewportIntent | src/core/meeting_session_runtime.h:191-199 | the intent counts as given once one is accepted |
| SessionRuntime.MeetingSessionRuntime.StopVideoDemand | src/core/meeting_session_runtime.h:383-400 | recovery, intent, policy and catalog end together |
| SessionRuntime.CollectKeys | src/core/meeting_session_runtime.h:327-333 | all publication keys in catalog order |
| SessionRuntime.CollectDemands | src/core/meeting_session_runtime.h:335-353 | one demand for each selected key that has a seat, at 15 frames for the lowest quality and 30 otherwise |
| ShutdownService.StepKeeps | src/core/session_shutdown_service.h:177-245 | every step of every thread keeps counts, order of callbacks and pending deliveries |
| ShutdownService.RunKeeps | src/core/session_shutdown_service.h:177-382 | in every reachable state pending is the queued jobs plus the one in hand plus the retained cleanups; accepted jobs are those finished, in hand and queued, in order; retained cleanups are exactly the failed ones to be kept; a drain waiting at pending zero, or a stop after the exit, has a delivery running, posted or about to be |
| ShutdownService.CallsComeAtRest | src/core/session_shutdown_service.h:290-320 | callbacks are called one at a time in the order they were handed in; a drain only when every accepted job has finished and none is retained; a stop only when the worker has also gone |
| ShutdownService.ExitIsFinal | src/core/session_shutdown_service.h:195-208 | once the worker has committed to its exit nothing is accepted, run or retained any more, and a late cleanup ends the process |
| ShutdownService.RetainedBlocks | src/core/session_shutdown_service.h:349-371 | a retained cleanup is kept for ever: no drain, no exit and no callback after it |
| ShutdownService.ComesToRest | src/core/session_shutdown_service.h:322-381 | without new calls every run of worker and application thread is shorter than a bound computed from the state |
| ShutdownService.RestIsComplete | src/core/session_shutdown_service.h:290-381 | where nothing can move any more all jobs have finished and all messages are delivered, and with an open endpoint and nothing retained every drain has been called, and every stop after a shutdown request |
| ShutdownCalls.CompletionsExactly | src/core/session_shutdown_service.h:349-364 | in every reachable state the completions called and posted are those of the finished jobs in order, with their outcomes, all of them while the endpoint is open |
| ShutdownCalls.RestIsTold | src/core/session_shutdown_service.h:349-364 | at rest with an open endpoint every completion has been called |
| ShutdownCalls.KeepsExactly | src/core/session_shutdown_service.h:343-371 | between two jobs exactly the cleanups that failed and must be kept are kept, and the count is what waits and what is kept |
| ShutdownCalls.CleanupExactly | src/core/session_shutdown_service.h:195-208 | a cleanup is let in even after admission closed, until the worker has committed to its exit; then the process ends |
| ShutdownService.EveryoneIsCalled | src/core/session_shutdown_service.h:217-245 | after anything at all, letting the service move by itself ends, and then all callbacks handed in have been called, in order |
| ShutdownService.SessionShutdownService.Submit | src/core/session_shutdown_service.h:177-188 | accepted and counted exactly while admission is open |
| ShutdownService.SessionShutdownService.SubmitCleanup | src/core/session_shutdown_service.h:195-208 | accepted and counted until the worker has committed to its exit |
| ShutdownService.SessionShutdownService.DrainAsync | src/core/session_shutdown_service.h:217-228 | the callback waits, and the caller posts a delivery exactly at pending zero |
| ShutdownService.SessionShutdownService.ShutdownAsync | src/core/session_shutdown_service.h:232-245 | admission closes, and the caller posts a delivery exactly after the exit |
| ShutdownService.SessionShutdownService.TakeJob | src/core/session_shutdown_service.h:328-341 | the oldest job is taken, or the exit is committed in the same region |
| ShutdownService.SessionShutdownService.DeliverDrains | src/core/session_shutdown_service.h:290-301 | undisturbed, the loop calls all drains in order at pending zero and none otherwise |
| ShutdownService.SessionShutdownService.DeliverStopped | src/core/session_shutdown_service.h:303-320 | undisturbed, nothing before the exit; after it all drains and then all stops |
| CallbackGate.StepKeeps | src/core/executor_lifetime.h:51-126 | every step of every thread keeps ticket count, callback stages, queue and reach of the cancellations |
| CallbackGate.CountsLiveTickets | src/core/executor_lifetime.h:51-81 | in every reachable state the count in flight is the number of live tickets, held or inside a posted task |
| CallbackGate.RunKeeps | src/core/executor_lifetime.h:51-185 | in every reachable state: the tickets are counted; whoever completes a callback holds its own ticket until it is posted; what is posted and not yet run is queued exactly once; every id was given out once; and every live callback that registered in time can still be reached by the close |
| CallbackGate.EachPostedOnce | src/core/executor_lifetime.h:177-185 | in every reachable state a callback is posted at most once and run at most once, with what its first completer passed |
| CallbackGate.FirstCompleterWins | src/core/executor_lifetime.h:177-185 | after a first completion only its arguments are ever posted or run, whatever follows |
| CallbackGate.DrainedMeansRun | src/core/executor_lifetime.h:103-126 | when WaitForDrain can return, no ticket is alive, every live callback that registered before the close has run exactly once, as has every one anybody completed, and every closure not forgotten in time was called exactly once |
| GateCalls.DrainedIsDone | src/core/executor_lifetime.h:58-126 | when WaitForDrain can return, every business ever posted has run, exactly as often as it was posted |
| GateCalls.CompleteExactly | src/core/executor_lifetime.h:167-185 | caller, creator and closer complete alike: the first takes the function and a ticket even from a closed gate, any other only tries |
| GateCalls.CancelExactly | src/core/executor_lifetime.h:103-117 | the close calls a local closure, completes a live callback as cancelled, and skips an expired one |
| CallbackGate.DrainedStaysQuiet | src/core/executor_lifetime.h:51-70 | after a drain nobody enters again, no business is ever posted, and only callbacks that came too late to register can still complete |
| CallbackGate.ClosedRefuses | src/core/executor_lifetime.h:51-90 | a closed gate admits nobody and registers nobody |
| CallbackGate.CloserMoves | src/core/executor_lifetime.h:103-117 | the closer is never stuck: it, or whoever holds the mutex it waits for, can move |
| CallbackGate.ExecutorCallbackGate.EnterGate | src/core/executor_lifetime.h:51-56 | a ticket is given and counted exactly while the gate is open |
| CallbackGate.ExecutorCallbackGate.Post | src/core/executor_lifetime.h:58-67 | business is counted and posted exactly while the gate is open |
| CallbackGate.ExecutorCallbackGate.RegisterCancellation | src/core/executor_lifetime.h:84-90 | a fresh non-zero id exactly while the gate is open |
| CallbackGate.ExecutorCallbackGate.TakeCancellations | src/core/executor_lifetime.h:103-110 | the first close takes all registrations, a later one nothing |
| CallbackGate.ExecutorCallbackGate.CancellationOrder | src/core/executor_lifetime.h:110 | every registration taken is visited once, in the order of the ids |
| CallbackGate.CancellableExecutorCallback.constructor | src/core/executor_lifetime.h:156-175 | the callback registers itself; too late for that, it gets the id zero and is completed at once with the arguments of its cancellation |
| CallbackGate.CancellableExecutorCallback.Complete | src/core/executor_lifetime.h:177-185 | the arguments are posted if and only if nobody completed before, counted even after the close, and the registration goes with them |
| CameraSwitch.StepKeeps | src/media/camera_source_manager.cpp:303-553 | every region and every report keeps the state of the switch and of all requests coherent |
| CameraSwitch.RunKeeps | src/media/camera_source_manager.cpp:303-553 | in every interleaving of starts, stops, requests, first frames and timeouts: a request has as many results given or on their way as decisions, at most one; the request of the current generation is undecided exactly while the switch is probing its camera; a committed current request has its camera and configuration installed; generations and cameras are never shared |
| CameraSwitch.OneResultEach | src/media/camera_source_manager.cpp:303-553 | each request is told at most one result, the one decided under the lock, and a decided one has it or is about to |
| CameraSwitch.ProbingExactly | src/media/camera_source_manager.cpp:303-553 | the switch is probing exactly while a probe is held, and the active path is that of the configuration |
| CameraSwitch.CommitInstallsTarget | src/media/camera_source_manager.cpp:473-503 | apart from Start and Stop only a first frame changes the active camera, and it installs exactly the camera and configuration of its request |
| CameraSwitch.AbortLeavesActive | src/media/camera_source_manager.cpp:518-553 | the step that decides against a request leaves active camera, configuration and path alone |
| CameraOutcomes.AbortHandsOut | src/media/camera_source_manager.cpp:421-447 | a request is decided against by its timeout or the failed start of its probe and nothing else; either hands out the active camera to be started again if and only if there is one and it does not run |
| CameraOutcomes.RollbackRestores | src/media/camera_source_manager.cpp:532-550 | a switch that is rolled back leaves the camera of before active and, once it starts again, running; the request is told its failure |
| CameraOutcomes.PausesForRetry | src/media/camera_source_manager.cpp:405-412 | a probe that does not start at once is started once more exactly after the camera that may be paused was stopped |
| CameraOutcomes.LetsGoExactly | src/media/camera_source_manager.cpp:111-553 | who is handed out to be stopped, and by which step: the camera a start or a first frame replaces, both by a stop, the probe a request or a timeout ends, and the probe that failed to start or was left behind |
| CameraOutcomes.RequestMoves | src/media/camera_source_manager.cpp:303-403 | a request never touches the active camera or its configuration; it changes nothing, ends a probing, or starts a new generation that probes or is aborted for want of a camera |
| CameraOutcomes.DecisionMoves | src/media/camera_source_manager.cpp:473-536 | a decision is taken in the generation of its request and ends the probing, as committed or as aborted |
| CameraOutcomes.OtherStepsRest | src/media/camera_source_manager.cpp:405-553 | apart from starts, stops and requests only decisions move the switch |
| CameraSwitch.StepVerdict | src/media/camera_source_manager.cpp:473-553 | a decision is never revised and none is taken outside the current generation |
| CameraSwitch.OvertakenStaysSilent | src/media/camera_source_manager.cpp:421-447 | a request overtaken before its decision is never decided and its callback never called |
| CameraSwitch.ProbingHasOwner | src/media/camera_source_manager.cpp:405-470 | a probing switch is never abandoned: its request is starting or timed, its first frame would commit and its timeout would abort it |
| CameraSwitch.OpeningAnswers | src/media/camera_source_manager.cpp:303-403 | a request is answered at once with success exactly when its configuration is the running one, and with failure exactly when it is invalid or no probe can be made; only a running camera on the same device may be paused |
| CameraSwitch.ForwardsExactly | src/media/camera_source_manager.cpp:359-374 | frames of a switched-in camera reach the output exactly while its committed request is of the current generation |
| CameraSwitch.SilentOnceOvertaken | src/media/camera_source_manager.cpp:359-374 | once overtaken they never do again |
| CameraSwitch.AbortSilencesExample | src/media/camera_source_manager.cpp:366-368 | a reachable state with an aborted switch, a running active camera and no forwarding, in which the late cleanup stops that camera |
| CameraSwitch.CleanupStopsActive | src/media/camera_source_manager.cpp:421-447 | the cleanup of an overtaken request stops the active camera if and only if the request had committed while its camera was starting and nothing replaced that camera since |
| CameraSwitch.CameraSourceManager.StartLocked | src/media/camera_source_manager.cpp:111-149 | probing ends, the configuration is installed and the generation advances even when no camera could be started; only then is the previous one not handed out to be stopped |
| CameraSwitch.CameraSourceManager.OpenLocked | src/media/camera_source_manager.cpp:324-401 | the running configuration is answered at once, dropping any probe; without a probe the switch is aborted; otherwise it probes under a new generation, and an old probe is let go |
| CameraSwitch.CameraSourceManager.CloseLocked | src/media/camera_source_manager.cpp:418-447 | a probe that failed to start aborts its own switch and nothing else; an overtaken or already committed request changes nothing |
| CameraSwitch.CameraSourceManager.HandleProbeFrame | src/media/camera_source_manager.cpp:479-503 | a first frame of the current probing request commits it and hands out the camera it replaces; any other changes nothing |
| CameraSwitch.CameraSourceManager.HandleProbeTimeout | src/media/camera_source_manager.cpp:518-536 | a timeout of the current probing request aborts it and hands out the probe to release and a paused camera to resume; any other changes nothing |

## Left out

- `src/app`, meeting coordinator, catalog controller, room, participants, screen share, frame cryptor, device capture and audio: plumbing over Qt, HTTP, WebRTC and COM.
- Packets: protobuf encoding, attributes, destinations, timestamps and generated stream ids; a packet is its kind, stream id, index, content, declared length and reason.
- Text and byte writers, and text and byte readers, are one class each with a flag for text: their code differs only in the cut, in the UTF-8 check and in how an empty chunk is recognised.
- A publisher is a function of the packets offered before and the packet, so it can accept, refuse or throw in any pattern; copying a packet that runs out of memory counts as throwing.
- Allocation failures in readers are a flag of the arrival or of the append; memory failures elsewhere are left out.
- StreamReaders.StreamReader.ReadAll: where the program waits for the next chunk the method ends with what was gathered, and is called again with it; interleavings with arrivals inside the loop are steps of `SharedBudget`.
- Condition variables and locks: a region under a mutex is one step; what a thread inside a reader's region does to the shared budget are steps of their own.
- Wrap-around of 64-bit revisions, generations, ids and counters, and the narrowing of page counts to 32 bits.
- The scaled stage size, computed in floating point, is an arbitrary pair of 32-bit naturals; the rectangle and pixel ratio it comes from are one compared field. Source sizes of publications are never set by the catalog and are left out.
- Library calls (`stable_sort`, `find_if`, `remove_if`) are functions or loops with the same result.
- Catalog tickets: what checking a ticket can observe, namely whether the membership exists, for which key, and whether it is active.
- Telemetry records, the reconcile timer itself, data transfer maps and whiteboard peers of the session runtime. Callbacks that re-enter the session while they are called are later operations.
- ShutdownService.SessionShutdownService.DeliverDrains: undisturbed runs of the loop; calls that callbacks make in between, and nested event loops, are steps of the state machine.
- ShutdownService.SessionShutdownService.DeliverStopped: undisturbed runs of the loop after the exit at pending zero; everything else, callbacks that ask again included, is left to the state machine.
- The destructor of the shutdown service, which closes admission and joins, and COM initialisation on its worker.
- CallbackGate.ExecutorCallbackGate.ReleaseTicket: gives back without asking whether a ticket is out; that nobody gives one back twice is part of the state machine.
- Executors that discard tasks without running them, and the lifetime objects the gate keeps alive.
- CameraSwitch.CameraSourceManager.OpenLocked: a capturer is a number and its creation and initialisation are inputs; what a running camera captures, the destruction of capturers and SwitchDeviceAsync, which only fills in a target, are not modelled.
- The choice among supported camera resolutions.
