/**
 The catalog of remote participants and their publications
 (src/core/publication_catalog.cpp). Revisions are unbounded naturals.
 */
module Catalogs {
  import opened Common
  import opened ParticipantEvents

  datatype Publication = Publication(key: TrackKey, ticket: Ticket<TrackKey>, state: TrackState, mediaAvailable: bool)

  datatype Participant = Participant(
    key: ParticipantKey,
    ticket: Ticket<ParticipantKey>,
    displayName: string,
    speaking: bool,
    audioLevel: int,
    publications: seq<Publication>)

  datatype Snapshot = Snapshot(session: nat, generation: nat, revision: nat, participants: seq<Participant>)

  datatype Catalog = Catalog(snapshot: Snapshot, accepting: bool)

  datatype ApplyResult = Applied | NoChange | RejectedStale | RejectedInvalid | RejectedRetired {
    predicate Rejected() { RejectedStale? || RejectedInvalid? || RejectedRetired? }
  }

  // ------------------------------------------------------------------------
  // Lookups and comparisons.
  // ------------------------------------------------------------------------

  function NativeGeneration(e: ParticipantEvent): nat
  {
    if e.generation != 0 then e.generation
    else if e.participant.key.generation != 0 then e.participant.key.generation
    else e.trackKey.participant.generation
  }

  predicate Consumes(kind: EventKind)
  {
    kind in {Upsert, Departure, TrackAvailable, TrackUnavailable, TrackMuted, TrackStreamState,
             TrackSubscriptionPermission, TrackSubscriptionError}
  }

  predicate SamePublication(a: Publication, b: Publication)
  {
    a.key == b.key && a.state == b.state && a.mediaAvailable == b.mediaAvailable
  }

  predicate SameParticipant(a: Participant, b: Participant)
  {
    && a.key == b.key && a.displayName == b.displayName && a.speaking == b.speaking && a.audioLevel == b.audioLevel
    && |a.publications| == |b.publications|
    && forall i :: 0 <= i < |a.publications| ==> SamePublication(a.publications[i], b.publications[i])
  }

  /** Equal but for the tickets, which renew without anybody being told. */
  predicate SameBut(a: Snapshot, b: Snapshot)
  {
    && a.session == b.session && a.generation == b.generation && a.revision == b.revision
    && |a.participants| == |b.participants|
    && forall i :: 0 <= i < |a.participants| ==> SameParticipant(a.participants[i], b.participants[i])
  }

  /** The position of the first participant with this key, or the length. */
  function IndexOf(ps: seq<Participant>, key: ParticipantKey): (i: nat)
    ensures i <= |ps|
    ensures i < |ps| ==> ps[i].key == key
    ensures forall j :: 0 <= j < i ==> ps[j].key != key
  {
    if ps == [] || ps[0].key == key then 0 else 1 + IndexOf(ps[1..], key)
  }

  function TrackIndexOf(pubs: seq<Publication>, key: TrackKey): (i: nat)
    ensures i <= |pubs|
    ensures i < |pubs| ==> pubs[i].key == key
    ensures forall j :: 0 <= j < i ==> pubs[j].key != key
  {
    if pubs == [] || pubs[0].key == key then 0 else 1 + TrackIndexOf(pubs[1..], key)
  }

  function Find(ps: seq<Participant>, key: TrackKey): (found: Option<Publication>)
    ensures found.Some? ==> found.value.key == key
  {
    var i := IndexOf(ps, key.participant);
    if i == |ps| then None
    else
      var k := TrackIndexOf(ps[i].publications, key);
      if k == |ps[i].publications| then None else Some(ps[i].publications[k])
  }

  function Project(p: PublicationEvent, mediaAvailable: bool): Publication
  {
    Publication(p.key, p.ticket, p.state, mediaAvailable && p.state.subscriptionError == NoError)
  }

  function ProjectTrack(e: ParticipantEvent, mediaAvailable: bool): Publication
  {
    Project(PublicationEvent(e.trackKey, e.trackTicket, e.track), mediaAvailable)
  }

  /** The reported publications that are live and belong to the participant, in order. */
  function ProjectAll(ps: seq<Participant>, owner: ParticipantKey, pubs: seq<PublicationEvent>): seq<Publication>
  {
    if pubs == [] then []
    else
      var last := pubs[|pubs| - 1];
      var before := ProjectAll(ps, owner, pubs[..|pubs| - 1]);
      if !IsActive(last.ticket, last.key) || last.key.participant != owner then before
      else
        var current := Find(ps, last.key);
        before + [Project(last, current.Some? && current.value.mediaAvailable)]
  }

  function Projected(ps: seq<Participant>, s: ParticipantSnapshot): Participant
  {
    Participant(s.key, s.ticket, if s.name == "" then s.key.identity else s.name, s.speaking, s.audioLevel,
                ProjectAll(ps, s.key, s.publications))
  }

  /** A participant with this key replaces one with the same sid or the same non-empty identity. */
  predicate Displaces(key: ParticipantKey, p: Participant)
  {
    p.key != key && (p.key.sid == key.sid || (key.identity != "" && p.key.identity == key.identity))
  }

  function Undisplaced(ps: seq<Participant>, key: ParticipantKey): (kept: seq<Participant>)
    ensures |kept| <= |ps|
  {
    if ps == [] then []
    else
      var rest := Undisplaced(ps[..|ps| - 1], key);
      if Displaces(key, ps[|ps| - 1]) then rest else rest + [ps[|ps| - 1]]
  }

  function Others(ps: seq<Participant>, key: ParticipantKey): (kept: seq<Participant>)
    ensures |kept| <= |ps|
  {
    if ps == [] then []
    else
      var rest := Others(ps[..|ps| - 1], key);
      if ps[|ps| - 1].key == key then rest else rest + [ps[|ps| - 1]]
  }

  // ------------------------------------------------------------------------
  // Applying an event.
  // ------------------------------------------------------------------------

  /** The decision taken before anything is touched; None lets the event through. */
  function Admission(c: Catalog, e: ParticipantEvent): Option<ApplyResult>
  {
    var native := NativeGeneration(e);
    if !c.accepting then Some(RejectedRetired)
    else if !Consumes(e.kind) || e.participant.isLocal then Some(NoChange)
    else if native == 0 then Some(RejectedInvalid)
    else if c.snapshot.generation != 0 && native < c.snapshot.generation then Some(RejectedStale)
    else if e.kind == Upsert && !IsActive(e.participant.ticket, e.participant.key) then Some(RejectedStale)
    else if c.snapshot.generation != 0 && native > c.snapshot.generation && e.kind != Upsert then Some(RejectedStale)
    else None
  }

  function Installed(s: Snapshot, native: nat): Snapshot
  {
    if s.generation == native then s else s.(generation := native, participants := [])
  }

  /** The participants after an event, and whether something other than a ticket changed; None rejects. */
  type Effect = Option<(seq<Participant>, bool)>

  function Depart(ps: seq<Participant>, key: ParticipantKey): Effect
  {
    Some((Others(ps, key), |Others(ps, key)| != |ps|))
  }

  function UpsertIn(ps: seq<Participant>, s: ParticipantSnapshot): Effect
  {
    var projected := Projected(ps, s);
    var i := IndexOf(ps, s.key);
    if i == |ps| then Some((Undisplaced(ps, s.key) + [projected], true))
    else Some((ps[i := projected], !SameParticipant(ps[i], projected)))
  }

  function Replace(ps: seq<Participant>, i: nat, k: nat, p: Publication): seq<Participant>
    requires i < |ps| && k < |ps[i].publications|
  {
    ps[i := ps[i].(publications := ps[i].publications[k := p])]
  }

  function TrackIn(ps: seq<Participant>, e: ParticipantEvent): Effect
  {
    var owner := IndexOf(ps, e.participant.key);
    if owner == |ps| then None
    else
      var i := IndexOf(ps, e.trackKey.participant);
      var k := if i == |ps| then 0 else TrackIndexOf(ps[i].publications, e.trackKey);
      var found := i < |ps| && k < |ps[i].publications|;
      if e.kind == TrackAvailable then
        if !IsActive(e.trackTicket, e.trackKey) then None
        else if !found then
          Some((ps[owner := ps[owner].(publications := ps[owner].publications + [ProjectTrack(e, true)])], true))
        else Some(Refresh(ps, i, k, ProjectTrack(e, true), e.trackTicket))
      else if !found then None
      else if e.kind == TrackUnavailable then
        var p := ps[i].publications[k];
        Some((Replace(ps, i, k, p.(mediaAvailable := false)), p.mediaAvailable))
      else if !IsActive(e.trackTicket, e.trackKey) then None
      else Some(Refresh(ps, i, k, ProjectTrack(e, ps[i].publications[k].mediaAvailable), e.trackTicket))
  }

  /** A publication whose state is unchanged only gets its new ticket. */
  function Refresh(ps: seq<Participant>, i: nat, k: nat, projected: Publication, ticket: Ticket<TrackKey>)
    : (seq<Participant>, bool)
    requires i < |ps| && k < |ps[i].publications|
  {
    var p := ps[i].publications[k];
    if SamePublication(p, projected) then (Replace(ps, i, k, p.(ticket := ticket)), false)
    else (Replace(ps, i, k, projected), true)
  }

  function EffectOf(ps: seq<Participant>, e: ParticipantEvent): Effect
  {
    match e.kind
    case Departure => Depart(ps, e.participant.key)
    case Upsert => UpsertIn(ps, e.participant)
    case _ => TrackIn(ps, e)
  }

  function ApplyEvent(c: Catalog, e: ParticipantEvent): (Catalog, ApplyResult)
  {
    match Admission(c, e)
    case Some(result) => (c, result)
    case None =>
      var native := NativeGeneration(e);
      var s := Installed(c.snapshot, native);
      match EffectOf(s.participants, e)
      case None => (c.(snapshot := s), RejectedStale)
      case Some((ps, touched)) =>
        if touched || c.snapshot.generation != native then
          (c.(snapshot := s.(participants := ps, revision := s.revision + 1)), Applied)
        else (c.(snapshot := s.(participants := ps)), NoChange)
  }

  function Retired(c: Catalog): Catalog
  {
    if !c.accepting then c
    else Catalog(c.snapshot.(participants := [], revision := c.snapshot.revision + 1), false)
  }

  // ------------------------------------------------------------------------
  // The invariant.
  // ------------------------------------------------------------------------

  ghost predicate PublicationsOk(owner: ParticipantKey, pubs: seq<Publication>)
  {
    && (forall i, j :: 0 <= i < j < |pubs| ==> pubs[i].key != pubs[j].key)
    && (forall i :: 0 <= i < |pubs| ==>
          && pubs[i].key.participant == owner
          && (pubs[i].mediaAvailable ==> pubs[i].state.subscriptionError == NoError))
  }

  ghost predicate ParticipantOk(generation: nat, p: Participant)
  {
    p.key.generation == generation && PublicationsOk(p.key, p.publications)
  }

  ghost predicate Separate(a: ParticipantKey, b: ParticipantKey)
  {
    a.sid != b.sid && (a.identity != "" ==> a.identity != b.identity)
  }

  ghost predicate Distinguished(ps: seq<Participant>)
  {
    forall i, j :: 0 <= i < j < |ps| ==> Separate(ps[i].key, ps[j].key)
  }

  ghost predicate ParticipantsOk(generation: nat, ps: seq<Participant>)
  {
    && Distinguished(ps)
    && forall i :: 0 <= i < |ps| ==> ParticipantOk(generation, ps[i])
  }

  ghost predicate CatalogOk(c: Catalog)
  {
    && ParticipantsOk(c.snapshot.generation, c.snapshot.participants)
    && (c.snapshot.generation == 0 || !c.accepting ==> c.snapshot.participants == [])
  }

  /** What the room guarantees of the events it emits. */
  ghost predicate WellFormed(e: ParticipantEvent)
  {
    && (e.kind == Upsert ==>
          && NativeGeneration(e) == e.participant.key.generation
          && DistinctReports(e.participant.publications))
    && (Consumes(e.kind) && e.kind != Upsert && e.kind != Departure ==> e.trackKey.participant == e.participant.key)
  }

  ghost function ReportedKeys(pubs: seq<PublicationEvent>): set<TrackKey> { set p | p in pubs :: p.key }

  ghost predicate DistinctReports(pubs: seq<PublicationEvent>)
  {
    forall i, j :: 0 <= i < j < |pubs| ==> pubs[i].key != pubs[j].key
  }

  lemma {:induction false} ProjectAllOk(ps: seq<Participant>, owner: ParticipantKey, pubs: seq<PublicationEvent>)
    requires DistinctReports(pubs)
    ensures var out := ProjectAll(ps, owner, pubs);
      && PublicationsOk(owner, out)
      && forall i :: 0 <= i < |out| ==> out[i].key in ReportedKeys(pubs)
  {
    hide Find;
    if pubs != [] {
      var n := |pubs| - 1;
      ProjectAllOk(ps, owner, pubs[..n]);
      assert pubs[n].key !in ReportedKeys(pubs[..n]);
      assert ReportedKeys(pubs) == ReportedKeys(pubs[..n]) + {pubs[n].key} by {
        assert pubs == pubs[..n] + [pubs[n]];
      }
    }
  }

  lemma {:induction false} UndisplacedOk(generation: nat, ps: seq<Participant>, key: ParticipantKey)
    requires ParticipantsOk(generation, ps) && IndexOf(ps, key) == |ps|
    ensures var kept := Undisplaced(ps, key);
      && ParticipantsOk(generation, kept)
      && (forall i :: 0 <= i < |kept| ==> Separate(kept[i].key, key) && kept[i] in ps)
  {
    hide ParticipantOk, Separate;
    if ps != [] {
      var n := |ps| - 1;
      assert IndexOf(ps[..n], key) == n;
      UndisplacedOk(generation, ps[..n], key);
      KeepLast(ps, key);
    }
  }

  lemma KeepLast(ps: seq<Participant>, key: ParticipantKey)
    requires ps != [] && ps[|ps| - 1].key != key
    ensures !Displaces(key, ps[|ps| - 1]) ==> Separate(ps[|ps| - 1].key, key)
  {
  }

  lemma {:induction false} OthersOk(generation: nat, ps: seq<Participant>, key: ParticipantKey)
    requires ParticipantsOk(generation, ps)
    ensures var kept := Others(ps, key);
      && ParticipantsOk(generation, kept)
      && (forall i :: 0 <= i < |kept| ==> kept[i] in ps && kept[i].key != key)
  {
    hide ParticipantOk, Separate;
    if ps != [] {
      OthersOk(generation, ps[..|ps| - 1], key);
    }
  }

  lemma UpsertOk(generation: nat, ps: seq<Participant>, s: ParticipantSnapshot)
    requires ParticipantsOk(generation, ps) && s.key.generation == generation
    requires DistinctReports(s.publications)
    ensures UpsertIn(ps, s).Some? && ParticipantsOk(generation, UpsertIn(ps, s).value.0)
  {
    ProjectAllOk(ps, s.key, s.publications);
    var projected := Projected(ps, s);
    assert ParticipantOk(generation, projected);
    hide ParticipantOk, Separate, SameParticipant, Projected;
    if IndexOf(ps, s.key) == |ps| {
      UndisplacedOk(generation, ps, s.key);
    }
  }

  /** Changing the publications of one participant, keys of participants staying as they are. */
  lemma OnePublicationList(generation: nat, ps: seq<Participant>, i: nat, pubs: seq<Publication>)
    requires ParticipantsOk(generation, ps) && i < |ps| && PublicationsOk(ps[i].key, pubs)
    ensures ParticipantsOk(generation, ps[i := ps[i].(publications := pubs)])
  {
    hide PublicationsOk, Separate;
  }

  lemma ReplaceOk(generation: nat, ps: seq<Participant>, i: nat, k: nat, p: Publication)
    requires ParticipantsOk(generation, ps) && i < |ps| && k < |ps[i].publications|
    requires p.key == ps[i].publications[k].key
    requires p.mediaAvailable ==> p.state.subscriptionError == NoError
    ensures ParticipantsOk(generation, Replace(ps, i, k, p))
  {
    assert ParticipantOk(generation, ps[i]);
    OnePublicationList(generation, ps, i, ps[i].publications[k := p]);
  }

  lemma TrackOk(generation: nat, ps: seq<Participant>, e: ParticipantEvent)
    requires ParticipantsOk(generation, ps) && e.trackKey.participant == e.participant.key
    ensures TrackIn(ps, e).Some? ==> ParticipantsOk(generation, TrackIn(ps, e).value.0)
  {
    var i := IndexOf(ps, e.participant.key);
    if i < |ps| {
      assert ParticipantOk(generation, ps[i]);
      var k := TrackIndexOf(ps[i].publications, e.trackKey);
      if k < |ps[i].publications| {
        var p := ps[i].publications[k];
        ReplaceOk(generation, ps, i, k, p.(mediaAvailable := false));
        ReplaceOk(generation, ps, i, k, p.(ticket := e.trackTicket));
        ReplaceOk(generation, ps, i, k, ProjectTrack(e, true));
        ReplaceOk(generation, ps, i, k, ProjectTrack(e, p.mediaAvailable));
      } else {
        OnePublicationList(generation, ps, i, ps[i].publications + [ProjectTrack(e, true)]);
      }
    }
    hide ParticipantsOk, SamePublication, Replace;
  }

  lemma EffectOk(generation: nat, ps: seq<Participant>, e: ParticipantEvent)
    requires ParticipantsOk(generation, ps) && WellFormed(e) && Consumes(e.kind)
    requires e.kind == Upsert ==> NativeGeneration(e) == generation
    ensures EffectOf(ps, e).Some? ==> ParticipantsOk(generation, EffectOf(ps, e).value.0)
  {
    match e.kind
    case Departure => OthersOk(generation, ps, e.participant.key);
    case Upsert => UpsertOk(generation, ps, e.participant);
    case _ => TrackOk(generation, ps, e);
  }

  lemma ApplyKeeps(c: Catalog, e: ParticipantEvent)
    requires CatalogOk(c) && WellFormed(e)
    ensures CatalogOk(ApplyEvent(c, e).0)
  {
    if Admission(c, e).None? {
      var s := Installed(c.snapshot, NativeGeneration(e));
      EffectOk(s.generation, s.participants, e);
    }
  }

  datatype Op = Event(event: ParticipantEvent) | Retirement

  function Step(c: Catalog, op: Op): Catalog
  {
    match op
    case Event(event) => ApplyEvent(c, event).0
    case Retirement => Retired(c)
  }

  function New(session: nat): Catalog { Catalog(Snapshot(session, 0, 0, []), true) }

  function Run(session: nat, ops: seq<Op>): Catalog
  {
    if ops == [] then New(session) else Step(Run(session, ops[..|ops| - 1]), ops[|ops| - 1])
  }

  ghost predicate AllWellFormed(ops: seq<Op>)
  {
    forall op :: op in ops && op.Event? ==> WellFormed(op.event)
  }

  /**
   After any sequence of well-formed events: sids are pairwise distinct, as are
   non-empty identities and the keys of one participant's publications; every
   publication belongs to its participant, every key is of the installed
   generation, and available media has no subscription error.
   */
  lemma {:induction false} CatalogInvariant(session: nat, ops: seq<Op>)
    requires AllWellFormed(ops)
    ensures CatalogOk(Run(session, ops))
  {
    hide CatalogOk, ApplyEvent, WellFormed;
    if ops == [] {
      assert CatalogOk(New(session)) by { NewOk(session); }
    } else {
      var before := ops[..|ops| - 1];
      assert forall op :: op in before ==> op in ops;
      CatalogInvariant(session, before);
      var op := ops[|ops| - 1];
      assert op in ops;
      if op.Event? {
        ApplyKeeps(Run(session, before), op.event);
      } else {
        RetireKeeps(Run(session, before));
      }
    }
  }

  lemma NewOk(session: nat)
    ensures CatalogOk(New(session))
  {
  }

  lemma RetireKeeps(c: Catalog)
    requires CatalogOk(c)
    ensures CatalogOk(Retired(c))
  {
  }

  // ------------------------------------------------------------------------
  // Revisions.
  // ------------------------------------------------------------------------

  lemma ReplaceTicketsOnly(ps: seq<Participant>, i: nat, k: nat, p: Publication)
    requires i < |ps| && k < |ps[i].publications| && SamePublication(ps[i].publications[k], p)
    ensures forall j :: 0 <= j < |ps| ==> SameParticipant(ps[j], Replace(ps, i, k, p)[j])
  {
  }

  /** An effect that reports no change touches at most tickets. */
  lemma UntouchedIsSame(ps: seq<Participant>, e: ParticipantEvent)
    requires EffectOf(ps, e).Some? && !EffectOf(ps, e).value.1
    ensures var ps' := EffectOf(ps, e).value.0;
      |ps'| == |ps| && forall j :: 0 <= j < |ps| ==> SameParticipant(ps[j], ps'[j])
  {
    match e.kind
    case Departure => NobodyLeft(ps, e.participant.key);
    case Upsert =>
    case _ =>
      var i := IndexOf(ps, e.trackKey.participant);
      var k := TrackIndexOf(ps[i].publications, e.trackKey);
      var p := ps[i].publications[k];
      ReplaceTicketsOnly(ps, i, k, p.(ticket := e.trackTicket));
      if e.kind == TrackUnavailable {
        ReplaceTicketsOnly(ps, i, k, p.(mediaAvailable := false));
      }
      hide SameParticipant, Replace;
  }

  lemma {:induction false} NobodyLeft(ps: seq<Participant>, key: ParticipantKey)
    requires |Others(ps, key)| == |ps|
    ensures Others(ps, key) == ps
  {
    if ps != [] {
      NobodyLeft(ps[..|ps| - 1], key);
    }
  }

  /**
   The generation never decreases. The revision rises, by one, exactly when the
   event is applied. Without an application at most tickets differ, except for a
   rejection that installs the very first generation.
   */
  lemma RevisionLaw(c: Catalog, e: ParticipantEvent)
    requires CatalogOk(c)
    ensures var (c', result) := ApplyEvent(c, e);
      && c'.accepting == c.accepting
      && c'.snapshot.generation >= c.snapshot.generation
      && c'.snapshot.revision == c.snapshot.revision + (if result == Applied then 1 else 0)
      && (result == NoChange ==> SameBut(c.snapshot, c'.snapshot))
      && (result.Rejected() ==> c' == c || c.snapshot.generation == 0)
  {
    assert e.kind == Upsert ==> EffectOf(Installed(c.snapshot, NativeGeneration(e)).participants, e).Some?;
    hide EffectOf;
    if Admission(c, e).None? && c.snapshot.generation == NativeGeneration(e) {
      var effect := EffectOf(c.snapshot.participants, e);
      if effect.Some? && !effect.value.1 {
        UntouchedIsSame(c.snapshot.participants, e);
      }
    }
  }

  /**
   Exactly when a rejection still changes the catalog: the first generation
   arrives with a track event. It is installed, but the revision does not move.
   */
  lemma RejectionThatInstalls(c: Catalog, e: ParticipantEvent)
    requires CatalogOk(c)
    ensures var (c', result) := ApplyEvent(c, e);
      (result.Rejected() && c' != c) <==>
        && c.accepting && c.snapshot.generation == 0 && NativeGeneration(e) != 0
        && Consumes(e.kind) && !e.participant.isLocal && e.kind != Upsert && e.kind != Departure
  {
  }

  const ANN := ParticipantKey(7, 1, "PA", "ann")

  /** A track of somebody the catalog has not seen yet is muted. */
  const EARLY_MUTE := ParticipantEvent(TrackMuted, 7, ParticipantSnapshot(ANN, Lost, "", false, 0, [], false),
    TrackKey(ANN, 1, "TR"), Lost, TrackState("", Video, Camera, false, false, true, NoError))

  lemma RejectionInstallsExample()
    ensures WellFormed(EARLY_MUTE)
    ensures ApplyEvent(New(1), EARLY_MUTE) == (Catalog(Snapshot(1, 7, 0, []), true), RejectedStale)
  {
    assert IndexOf([], ANN) == 0;
  }

  /** Only the first retirement counts. */
  lemma RetireLaw(c: Catalog)
    ensures var c' := Retired(c);
      && c'.snapshot.generation == c.snapshot.generation
      && c'.snapshot.revision == c.snapshot.revision + (if c.accepting then 1 else 0)
      && !c'.accepting && Retired(c') == c'
      && forall e :: ApplyEvent(c', e) == (c', RejectedRetired)
  {
  }

  /** The revision of a run counts its applied events and its first retirement. */
  function Rises(session: nat, ops: seq<Op>): nat
  {
    if ops == [] then 0
    else
      var before, op := Run(session, ops[..|ops| - 1]), ops[|ops| - 1];
      Rises(session, ops[..|ops| - 1]) +
      if (if op.Event? then ApplyEvent(before, op.event).1 == Applied else before.accepting) then 1 else 0
  }

  lemma {:induction false} RevisionCounts(session: nat, ops: seq<Op>)
    requires AllWellFormed(ops)
    ensures Run(session, ops).snapshot.revision == Rises(session, ops)
  {
    hide ApplyEvent, WellFormed, CatalogOk;
    if ops != [] {
      var before, op := ops[..|ops| - 1], ops[|ops| - 1];
      assert forall o :: o in before ==> o in ops;
      RevisionCounts(session, before);
      CatalogInvariant(session, before);
      if op.Event? {
        RevisionLaw(Run(session, before), op.event);
      }
    }
  }

  // ------------------------------------------------------------------------
  // The object.
  // ------------------------------------------------------------------------

  class PublicationCatalog {
    var snapshot: Snapshot
    var accepting: bool

    function View(): Catalog
      reads this
    {
      Catalog(snapshot, accepting)
    }

    constructor (session: nat)
      ensures View() == New(session)
    {
      snapshot, accepting := Snapshot(session, 0, 0, []), true;
    }

    method InstallGeneration(native: nat) returns (installed: bool)
      modifies this`snapshot
      ensures snapshot == Installed(old(snapshot), native)
      ensures installed == (old(snapshot).generation != native)
    {
      if snapshot.generation == native {
        return false;
      }
      snapshot := snapshot.(generation := native, participants := []);
      return true;
    }

    method Changed()
      modifies this`snapshot
      ensures snapshot == old(snapshot).(revision := old(snapshot).revision + 1)
    {
      snapshot := snapshot.(revision := snapshot.revision + 1);
    }

    method EraseDeparted(key: ParticipantKey) returns (touched: bool)
      modifies this`snapshot
      ensures snapshot == old(snapshot).(participants := Others(old(snapshot).participants, key))
      ensures touched == (|Others(old(snapshot).participants, key)| != |old(snapshot).participants|)
    {
      var ps := snapshot.participants;
      var kept: seq<Participant> := [];
      for i := 0 to |ps|
        invariant kept == Others(ps[..i], key)
      {
        assert ps[..i + 1][..i] == ps[..i];
        if ps[i].key != key {
          kept := kept + [ps[i]];
        }
      }
      assert ps[..|ps|] == ps;
      snapshot := snapshot.(participants := kept);
      return |kept| != |ps|;
    }

    method EraseDisplaced(key: ParticipantKey)
      modifies this`snapshot
      ensures snapshot == old(snapshot).(participants := Undisplaced(old(snapshot).participants, key))
    {
      var ps := snapshot.participants;
      var kept: seq<Participant> := [];
      for i := 0 to |ps|
        invariant kept == Undisplaced(ps[..i], key)
      {
        assert ps[..i + 1][..i] == ps[..i];
        if !Displaces(key, ps[i]) {
          kept := kept + [ps[i]];
        }
      }
      assert ps[..|ps|] == ps;
      snapshot := snapshot.(participants := kept);
    }

    method ProjectPublications(s: ParticipantSnapshot) returns (out: seq<Publication>)
      ensures out == ProjectAll(snapshot.participants, s.key, s.publications)
    {
      out := [];
      var pubs := s.publications;
      for i := 0 to |pubs|
        invariant out == ProjectAll(snapshot.participants, s.key, pubs[..i])
      {
        assert pubs[..i + 1][..i] == pubs[..i];
        var publication := pubs[i];
        if !IsActive(publication.ticket, publication.key) || publication.key.participant != s.key {
          continue;
        }
        var mediaAvailable := false;
        var current := Find(snapshot.participants, publication.key);
        if current.Some? {
          mediaAvailable := current.value.mediaAvailable;
        }
        out := out + [Project(publication, mediaAvailable)];
      }
      assert pubs[..|pubs|] == pubs;
    }

    method ApplyUpsert(s: ParticipantSnapshot) returns (touched: bool)
      modifies this`snapshot
      ensures UpsertIn(old(snapshot).participants, s) == Some((snapshot.participants, touched))
      ensures snapshot == old(snapshot).(participants := snapshot.participants)
    {
      var publications := ProjectPublications(s);
      var projected := Participant(s.key, s.ticket, if s.name == "" then s.key.identity else s.name,
                                   s.speaking, s.audioLevel, publications);
      var ps := snapshot.participants;
      var existing := IndexOf(ps, s.key);
      if existing == |ps| {
        EraseDisplaced(s.key);
        snapshot := snapshot.(participants := snapshot.participants + [projected]);
        return true;
      }
      touched := !SameParticipant(ps[existing], projected);
      snapshot := snapshot.(participants := ps[existing := projected]);
    }

    /** An event about one track; false in kept means the event is stale and nothing was changed. */
    method ApplyTrack(e: ParticipantEvent) returns (kept: bool, touched: bool)
      modifies this`snapshot
      ensures kept == TrackIn(old(snapshot).participants, e).Some?
      ensures kept ==> TrackIn(old(snapshot).participants, e).value == (snapshot.participants, touched)
      ensures snapshot == old(snapshot).(participants := snapshot.participants)
      ensures !kept ==> snapshot == old(snapshot)
    {
      kept, touched := false, false;
      var ps := snapshot.participants;
      var owner := IndexOf(ps, e.participant.key);
      if owner == |ps| {
        return;
      }
      var i := IndexOf(ps, e.trackKey.participant);
      var k := if i == |ps| then 0 else TrackIndexOf(ps[i].publications, e.trackKey);
      var found := i < |ps| && k < |ps[i].publications|;
      if e.kind == TrackAvailable {
        if !IsActive(e.trackTicket, e.trackKey) {
          return;
        }
        if !found {
          var extended := ps[owner].publications + [ProjectTrack(e, true)];
          snapshot := snapshot.(participants := ps[owner := ps[owner].(publications := extended)]);
          return true, true;
        }
        touched := StorePublication(i, k, ProjectTrack(e, true), e.trackTicket);
        return true, touched;
      }
      if !found {
        return;
      }
      var publication := ps[i].publications[k];
      if e.kind == TrackUnavailable {
        if publication.mediaAvailable {
          touched := true;
        }
        snapshot := snapshot.(participants := Replace(ps, i, k, publication.(mediaAvailable := false)));
        return true, touched;
      }
      if !IsActive(e.trackTicket, e.trackKey) {
        return;
      }
      touched := StorePublication(i, k, ProjectTrack(e, publication.mediaAvailable), e.trackTicket);
      return true, touched;
    }

    method StorePublication(i: nat, k: nat, projected: Publication, ticket: Ticket<TrackKey>) returns (touched: bool)
      requires i < |snapshot.participants| && k < |snapshot.participants[i].publications|
      modifies this`snapshot
      ensures i < |old(snapshot).participants| && k < |old(snapshot).participants[i].publications|
      ensures (snapshot.participants, touched) == Refresh(old(snapshot).participants, i, k, projected, ticket)
      ensures snapshot == old(snapshot).(participants := snapshot.participants)
    {
      var ps := snapshot.participants;
      var publication := ps[i].publications[k];
      touched := !SamePublication(publication, projected);
      snapshot := snapshot.(participants :=
        Replace(ps, i, k, if touched then projected else publication.(ticket := ticket)));
    }

    method Apply(e: ParticipantEvent) returns (result: ApplyResult)
      modifies this
      ensures (View(), result) == ApplyEvent(old(View()), e)
    {
      hide SameParticipant, TrackIn, UpsertIn, Others;
      var admission := Admission(View(), e);
      if admission.Some? {
        return admission.value;
      }
      var changed := InstallGeneration(NativeGeneration(e));
      var kept, touched := true, false;
      if e.kind == Departure {
        touched := EraseDeparted(e.participant.key);
      } else if e.kind == Upsert {
        touched := ApplyUpsert(e.participant);
      } else {
        kept, touched := ApplyTrack(e);
      }
      if !kept {
        return RejectedStale;
      }
      if !changed && !touched {
        return NoChange;
      }
      Changed();
      return Applied;
    }

    method Retire()
      modifies this
      ensures View() == Retired(old(View()))
    {
      if !accepting {
        return;
      }
      accepting := false;
      snapshot := snapshot.(participants := []);
      Changed();
    }
  }
}
