/**
 What each event does to the catalog, told of the participants before and after
 (src/core/publication_catalog.cpp:65-180).
 */
module CatalogMeaning {
  import opened Common
  import opened ParticipantEvents
  import opened Catalogs

  // ------------------------------------------------------------------------
  // Which events get in.
  // ------------------------------------------------------------------------

  /** The kinds a catalog is concerned with. */
  predicate Concerned(kind: EventKind)
  {
    kind in {Upsert, Departure, TrackAvailable, TrackUnavailable, TrackMuted, TrackStreamState, TrackSubscriptionPermission,
             TrackSubscriptionError}
  }

  /** Not of a generation that is over, and only an active upsert may start a new one. */
  predicate Timely(c: Catalog, e: ParticipantEvent)
  {
    var native := NativeGeneration(e);
    && (c.snapshot.generation == 0 || native == c.snapshot.generation || (native > c.snapshot.generation && e.kind == Upsert))
    && (e.kind == Upsert ==> e.participant.ticket.Ticket? && e.participant.ticket.active
                             && e.participant.ticket.key == e.participant.key)
  }

  /** The generation an event names: its own; where it has none its participant's; where that has none its track's. */
  lemma GenerationMeans(e: ParticipantEvent)
    ensures e.generation > 0 ==> NativeGeneration(e) == e.generation
    ensures e.generation == 0 && e.participant.key.generation > 0 ==> NativeGeneration(e) == e.participant.key.generation
    ensures e.generation == 0 && e.participant.key.generation == 0 ==>
      NativeGeneration(e) == e.trackKey.participant.generation
  {
  }

  predicate Admitted(c: Catalog, e: ParticipantEvent)
  {
    c.accepting && Concerned(e.kind) && !e.participant.isLocal && NativeGeneration(e) > 0 && Timely(c, e)
  }

  /** Why an event does not get in; it leaves no trace. */
  lemma NotAdmitted(c: Catalog, e: ParticipantEvent)
    requires !Admitted(c, e)
    ensures ApplyEvent(c, e).0 == c
    ensures ApplyEvent(c, e).1 == if !c.accepting then RejectedRetired
                                  else if !Concerned(e.kind) || e.participant.isLocal then NoChange
                                  else if NativeGeneration(e) == 0 then RejectedInvalid
                                  else RejectedStale
  {
    hide EffectOf;
  }

  /** The participants an admitted event finds: nobody where its generation is new. */
  function Before(c: Catalog, e: ParticipantEvent): seq<Participant>
  {
    if c.snapshot.generation == NativeGeneration(e) then c.snapshot.participants else []
  }

  function After(c: Catalog, e: ParticipantEvent): seq<Participant> { ApplyEvent(c, e).0.snapshot.participants }

  // ------------------------------------------------------------------------
  // What counts as a change.
  // ------------------------------------------------------------------------

  function BareAll(pubs: seq<Publication>): (bare: seq<Publication>)
    ensures |bare| == |pubs| && forall i :: 0 <= i < |pubs| ==> bare[i] == pubs[i].(ticket := Lost)
  {
    if pubs == [] then [] else BareAll(pubs[..|pubs| - 1]) + [pubs[|pubs| - 1].(ticket := Lost)]
  }

  /** A participant without its tickets. */
  function Bare(p: Participant): Participant { p.(ticket := Lost, publications := BareAll(p.publications)) }

  lemma BareMeans(a: Participant, b: Participant)
    ensures SameParticipant(a, b) <==> Bare(a) == Bare(b)
  {
    var x, y := BareAll(a.publications), BareAll(b.publications);
    if Bare(a) == Bare(b) {
      forall i | 0 <= i < |x| ensures SamePublication(a.publications[i], b.publications[i]) {
        assert x[i] == y[i];
      }
    }
    if SameParticipant(a, b) {
      assert forall i :: 0 <= i < |x| ==> SamePublication(a.publications[i], b.publications[i]);
      assert x == y;
    }
  }

  /** Both say the same but for tickets. */
  ghost predicate Alike(a: seq<Participant>, b: seq<Participant>)
  {
    |a| == |b| && forall i :: 0 <= i < |a| ==> Bare(a[i]) == Bare(b[i])
  }

  // ------------------------------------------------------------------------
  // Order.
  // ------------------------------------------------------------------------

  /** Those that are in both come in the same order. */
  ghost predicate SameOrder<T(!new)>(a: seq<T>, b: seq<T>)
  {
    forall i, j, m, n :: 0 <= i < j < |b| && 0 <= m < |a| && 0 <= n < |a| && a[m] == b[i] && a[n] == b[j] ==> m < n
  }

  lemma {:induction false} OthersMeans(ps: seq<Participant>, key: ParticipantKey)
    requires forall i, j :: 0 <= i < j < |ps| ==> ps[i] != ps[j]
    ensures forall p :: p in Others(ps, key) <==> p in ps && p.key != key
    ensures SameOrder(ps, Others(ps, key))
  {
    if ps != [] {
      var n := |ps| - 1;
      assert ps == ps[..n] + [ps[n]];
      OthersMeans(ps[..n], key);
      OneMoreInOrder(ps, Others(ps[..n], key));
    }
  }

  /** Adding the last element, or not, keeps the order. */
  lemma OneMoreInOrder(ps: seq<Participant>, kept: seq<Participant>)
    requires ps != [] && forall i, j :: 0 <= i < j < |ps| ==> ps[i] != ps[j]
    requires SameOrder(ps[..|ps| - 1], kept) && forall p :: p in kept ==> p in ps[..|ps| - 1]
    ensures SameOrder(ps, kept) && SameOrder(ps, kept + [ps[|ps| - 1]])
  {
    var last := |ps| - 1;
    forall i, m | 0 <= i < |kept| && 0 <= m < |ps| && ps[m] == kept[i] ensures m < last {
      assert kept[i] in kept;
      assert kept[i] in ps[..last];
    }
  }

  lemma {:induction false} UndisplacedMeans(ps: seq<Participant>, key: ParticipantKey)
    requires forall i, j :: 0 <= i < j < |ps| ==> ps[i] != ps[j]
    ensures forall p :: p in Undisplaced(ps, key) <==> p in ps && !Displaces(key, p)
    ensures SameOrder(ps, Undisplaced(ps, key))
  {
    if ps != [] {
      var n := |ps| - 1;
      assert ps == ps[..n] + [ps[n]];
      UndisplacedMeans(ps[..n], key);
      OneMoreInOrder(ps, Undisplaced(ps[..n], key));
    }
  }

  lemma AllDifferent(generation: nat, ps: seq<Participant>)
    requires ParticipantsOk(generation, ps)
    ensures forall i, j :: 0 <= i < j < |ps| ==> ps[i] != ps[j]
  {
    forall i, j | 0 <= i < j < |ps| ensures ps[i] != ps[j] {
      assert Separate(ps[i].key, ps[j].key);
    }
  }

  lemma BeforeOk(c: Catalog, e: ParticipantEvent)
    requires CatalogOk(c)
    ensures ParticipantsOk(NativeGeneration(e), Before(c, e))
  {
  }

  /** What an admitted event makes of the catalog, from what it makes of the participants. */
  lemma AdmittedApplies(c: Catalog, e: ParticipantEvent)
    requires Admitted(c, e)
    ensures var (c', result), effect := ApplyEvent(c, e), EffectOf(Before(c, e), e);
      && c'.accepting && c'.snapshot.session == c.snapshot.session && c'.snapshot.generation == NativeGeneration(e)
      && c'.snapshot.revision == c.snapshot.revision + (if result == Applied then 1 else 0)
      && c'.snapshot.participants == (if effect.Some? then effect.value.0 else Before(c, e))
      && result == if effect.None? then RejectedStale
                   else if effect.value.1 || c.snapshot.generation != NativeGeneration(e) then Applied else NoChange
  {
    hide EffectOf;
  }

  // ------------------------------------------------------------------------
  // Departures.
  // ------------------------------------------------------------------------

  /** Exactly the one who departs is gone, and the others keep their order. */
  lemma DepartureMeans(c: Catalog, e: ParticipantEvent)
    requires CatalogOk(c) && Admitted(c, e) && e.kind == Departure
    ensures forall p :: p in After(c, e) <==> p in Before(c, e) && p.key != e.participant.key
    ensures SameOrder(Before(c, e), After(c, e))
    ensures var result := ApplyEvent(c, e).1;
      if c.snapshot.generation != NativeGeneration(e) || exists p :: p in Before(c, e) && p.key == e.participant.key
      then result == Applied else result == NoChange && After(c, e) == Before(c, e)
  {
    hide CatalogOk, ApplyEvent, ParticipantsOk, Others, SameOrder;
    var ps, key := Before(c, e), e.participant.key;
    BeforeOk(c, e);
    AllDifferent(NativeGeneration(e), ps);
    OthersMeans(ps, key);
    AdmittedApplies(c, e);
    OthersShrinks(ps, key);
  }

  lemma {:induction false} OthersShrinks(ps: seq<Participant>, key: ParticipantKey)
    ensures if exists p :: p in ps && p.key == key then |Others(ps, key)| < |ps| else Others(ps, key) == ps
  {
    if ps != [] {
      var n := |ps| - 1;
      assert ps == ps[..n] + [ps[n]];
      OthersShrinks(ps[..n], key);
    }
  }

  // ------------------------------------------------------------------------
  // Upserts.
  // ------------------------------------------------------------------------

  /** Media that was there stays there unless its subscription failed. */
  ghost predicate HadMedia(ps: seq<Participant>, key: TrackKey)
  {
    exists p, v :: p in ps && v in p.publications && v.key == key && v.mediaAvailable
  }

  /** The publication a report becomes. */
  ghost predicate Tells(ps: seq<Participant>, r: PublicationEvent, v: Publication)
  {
    && v.key == r.key && v.ticket == r.ticket && v.state == r.state
    && (v.mediaAvailable <==> HadMedia(ps, r.key) && r.state.subscriptionError == NoError)
  }

  /** A report that counts: its ticket is active and it is about the participant itself. */
  predicate Counts(owner: ParticipantKey, r: PublicationEvent)
  {
    r.ticket.Ticket? && r.ticket.active && r.ticket.key == r.key && r.key.participant == owner
  }

  /** Publications are told by exactly the reports that count, in their order. */
  ghost predicate ToldBy(ps: seq<Participant>, owner: ParticipantKey, reports: seq<PublicationEvent>, pubs: seq<Publication>)
  {
    && (forall v :: v in pubs ==> Reported(ps, owner, reports, v))
    && (forall r :: r in reports && Counts(owner, r) ==> exists v :: v in pubs && Tells(ps, r, v))
    && ToldInOrder(reports, pubs)
  }

  ghost predicate Reported(ps: seq<Participant>, owner: ParticipantKey, reports: seq<PublicationEvent>, v: Publication)
  {
    exists r :: r in reports && Counts(owner, r) && Tells(ps, r, v)
  }

  ghost predicate ToldInOrder(reports: seq<PublicationEvent>, pubs: seq<Publication>)
  {
    forall i, j, m, n :: 0 <= i < j < |pubs| && ReportOf(reports, m, pubs[i]) && ReportOf(reports, n, pubs[j]) ==> m < n
  }

  lemma OrderOneMore(reports: seq<PublicationEvent>, rest: seq<Publication>, v: Publication)
    requires reports != [] && DistinctReports(reports) && ToldInOrder(reports[..|reports| - 1], rest)
    requires forall w :: w in rest ==> w.key != reports[|reports| - 1].key
    ensures ToldInOrder(reports, rest)
    ensures v.key == reports[|reports| - 1].key ==> ToldInOrder(reports, rest + [v])
  {
    var last := |reports| - 1;
    forall i, m: nat | 0 <= i < |rest| && ReportOf(reports, m, rest[i]) ensures m < last && ReportOf(reports[..last], m, rest[i]) {
      assert rest[i] in rest;
    }
  }

  predicate ReportOf(reports: seq<PublicationEvent>, m: nat, v: Publication)
  {
    m < |reports| && reports[m].key == v.key
  }

  lemma FindMedia(generation: nat, ps: seq<Participant>, key: TrackKey)
    requires ParticipantsOk(generation, ps)
    ensures var found := Find(ps, key); found.Some? && found.value.mediaAvailable <==> HadMedia(ps, key)
  {
    if HadMedia(ps, key) {
      var p, v :| p in ps && v in p.publications && v.key == key && v.mediaAvailable;
      FoundWhereItIs(generation, ps, p, v);
    }
  }

  lemma FoundWhereItIs(generation: nat, ps: seq<Participant>, p: Participant, v: Publication)
    requires ParticipantsOk(generation, ps) && p in ps && v in p.publications
    ensures Find(ps, v.key) == Some(v)
  {
    var m :| 0 <= m < |ps| && ps[m] == p;
    assert ParticipantOk(generation, ps[m]);
    assert forall j :: 0 <= j < m ==> Separate(ps[j].key, ps[m].key);
    assert IndexOf(ps, p.key) == m;
    var k :| 0 <= k < |p.publications| && p.publications[k] == v;
    assert TrackIndexOf(p.publications, v.key) == k;
  }

  lemma {:induction false} ProjectionMeans(generation: nat, ps: seq<Participant>, owner: ParticipantKey,
                                           reports: seq<PublicationEvent>)
    requires ParticipantsOk(generation, ps) && DistinctReports(reports)
    ensures ToldBy(ps, owner, reports, ProjectAll(ps, owner, reports))
  {
    if reports != [] {
      var n := |reports| - 1;
      var r, rest := reports[n], ProjectAll(ps, owner, reports[..n]);
      assert reports == reports[..n] + [r];
      assert DistinctReports(reports[..n]);
      ProjectionMeans(generation, ps, owner, reports[..n]);
      FindMedia(generation, ps, r.key);
      hide Find, HadMedia, ParticipantsOk;
      var out := ProjectAll(ps, owner, reports);
      if Counts(owner, r) {
        var current := Find(ps, r.key);
        var v := Project(r, current.Some? && current.value.mediaAvailable);
        assert out == rest + [v] && Tells(ps, r, v);
        ToldOneMore(ps, owner, reports, rest, v);
      } else {
        ToldAsBefore(ps, owner, reports, rest);
      }
    }
  }

  lemma ToldAsBefore(ps: seq<Participant>, owner: ParticipantKey, reports: seq<PublicationEvent>, rest: seq<Publication>)
    requires reports != [] && DistinctReports(reports) && !Counts(owner, reports[|reports| - 1])
    requires ToldBy(ps, owner, reports[..|reports| - 1], rest)
    ensures ToldBy(ps, owner, reports, rest)
  {
    KeysAmong(ps, owner, reports, rest);
    StillReported(ps, owner, reports, rest);
    var last := |reports| - 1;
    assert reports == reports[..last] + [reports[last]];
    hide Tells, Counts, Reported, ToldInOrder;
    OrderOneMore(reports, rest, Publication(reports[last].key, Lost, reports[last].state, false));
  }

  lemma StillReported(ps: seq<Participant>, owner: ParticipantKey, reports: seq<PublicationEvent>, rest: seq<Publication>)
    requires reports != [] && forall w :: w in rest ==> Reported(ps, owner, reports[..|reports| - 1], w)
    ensures forall w :: w in rest ==> Reported(ps, owner, reports, w)
  {
    hide Tells, Counts;
    forall w | w in rest ensures Reported(ps, owner, reports, w) {
      var r :| r in reports[..|reports| - 1] && Counts(owner, r) && Tells(ps, r, w);
      assert r in reports;
    }
  }

  /** What the earlier reports told has other keys than the last one. */
  lemma KeysAmong(ps: seq<Participant>, owner: ParticipantKey, reports: seq<PublicationEvent>, rest: seq<Publication>)
    requires reports != [] && DistinctReports(reports) && ToldBy(ps, owner, reports[..|reports| - 1], rest)
    ensures forall v :: v in rest ==> v.key != reports[|reports| - 1].key
  {
    forall v | v in rest ensures v.key != reports[|reports| - 1].key {
      var r :| r in reports[..|reports| - 1] && Counts(owner, r) && Tells(ps, r, v);
      var i :| 0 <= i < |reports| - 1 && reports[i] == r;
    }
  }

  lemma ToldOneMore(ps: seq<Participant>, owner: ParticipantKey, reports: seq<PublicationEvent>, rest: seq<Publication>,
                    v: Publication)
    requires reports != [] && DistinctReports(reports) && ToldBy(ps, owner, reports[..|reports| - 1], rest)
    requires Counts(owner, reports[|reports| - 1]) && Tells(ps, reports[|reports| - 1], v)
    ensures ToldBy(ps, owner, reports, rest + [v])
  {
    var last, more := |reports| - 1, rest + [v];
    KeysAmong(ps, owner, reports, rest);
    StillReported(ps, owner, reports, rest);
    assert Reported(ps, owner, reports, v) by {
      assert reports[last] in reports;
    }
    OrderOneMore(reports, rest, v);
    hide Tells, Counts, Reported, ToldInOrder;
    assert reports == reports[..last] + [reports[last]];
    forall r | r in reports && Counts(owner, r) ensures exists w :: w in more && Tells(ps, r, w) {
      if r in reports[..last] {
        var w :| w in rest && Tells(ps, r, w);
        assert w in more;
      } else {
        assert v in more;
      }
    }
  }

  /** What a participant says after its upsert. */
  ghost predicate Carries(ps: seq<Participant>, s: ParticipantSnapshot, q: Participant)
  {
    && q.key == s.key && q.ticket == s.ticket && q.speaking == s.speaking && q.audioLevel == s.audioLevel
    && q.displayName == (if |s.name| > 0 then s.name else s.key.identity)
    && ToldBy(ps, s.key, s.publications, q.publications)
  }

  /** The newcomer has this participant's sid, or its identity. */
  predicate TakesPlaceOf(key: ParticipantKey, p: Participant)
  {
    p.key.sid == key.sid || (key.identity != "" && p.key.identity == key.identity)
  }

  ghost predicate Knows(ps: seq<Participant>, key: ParticipantKey) { exists p :: p in ps && p.key == key }

  /** A known participant is replaced where it stands. */
  ghost predicate ReplacedIn(before: seq<Participant>, after: seq<Participant>, s: ParticipantSnapshot)
  {
    && |after| == |before|
    && forall i :: 0 <= i < |before| ==>
         if before[i].key == s.key then Carries(before, s, after[i]) else after[i] == before[i]
  }

  /** A new one comes last; exactly those whose sid or identity it takes are gone, and the others keep their order. */
  ghost predicate AddedTo(before: seq<Participant>, after: seq<Participant>, s: ParticipantSnapshot)
  {
    && after != [] && Carries(before, s, after[|after| - 1])
    && var kept := after[..|after| - 1];
       SameOrder(before, kept) && forall p :: p in kept <==> p in before && !TakesPlaceOf(s.key, p)
  }

  lemma IndexMeans(generation: nat, ps: seq<Participant>, key: ParticipantKey)
    requires ParticipantsOk(generation, ps)
    ensures IndexOf(ps, key) < |ps| <==> Knows(ps, key)
    ensures forall i :: 0 <= i < |ps| && ps[i].key == key ==> i == IndexOf(ps, key)
  {
    hide ParticipantOk;
    forall i | 0 <= i < |ps| && ps[i].key == key ensures i == IndexOf(ps, key) {
      OneOfThem(generation, ps, i, IndexOf(ps, key));
    }
  }

  lemma OneOfThem(generation: nat, ps: seq<Participant>, i: nat, m: nat)
    requires ParticipantsOk(generation, ps) && m <= i < |ps|
    ensures ps[m].key == ps[i].key ==> i == m
  {
    assert m < i ==> Separate(ps[m].key, ps[i].key);
  }

  lemma KnownReplaced(generation: nat, ps: seq<Participant>, s: ParticipantSnapshot)
    requires ParticipantsOk(generation, ps) && DistinctReports(s.publications) && IndexOf(ps, s.key) < |ps|
    ensures ReplacedIn(ps, UpsertIn(ps, s).value.0, s)
    ensures UpsertIn(ps, s).value.1 <==> !Alike(ps, UpsertIn(ps, s).value.0)
  {
    hide ParticipantsOk, SameParticipant, Bare, Projected, Carries;
    var i := IndexOf(ps, s.key);
    IndexMeans(generation, ps, s.key);
    ProjectedMeans(generation, ps, s);
    BareMeans(ps[i], Projected(ps, s));
  }

  lemma ProjectedMeans(generation: nat, ps: seq<Participant>, s: ParticipantSnapshot)
    requires ParticipantsOk(generation, ps) && DistinctReports(s.publications)
    ensures Carries(ps, s, Projected(ps, s)) && Projected(ps, s).key == s.key
  {
    hide ParticipantsOk, ToldBy;
    ProjectionMeans(generation, ps, s.key, s.publications);
  }

  lemma NewcomerAdded(generation: nat, ps: seq<Participant>, s: ParticipantSnapshot)
    requires ParticipantsOk(generation, ps) && DistinctReports(s.publications) && !Knows(ps, s.key)
    ensures AddedTo(ps, UpsertIn(ps, s).value.0, s)
    ensures UpsertIn(ps, s).value.1 && !Alike(ps, UpsertIn(ps, s).value.0)
  {
    hide ParticipantsOk, Projected, Carries, SameOrder, Undisplaced, Alike;
    IndexMeans(generation, ps, s.key);
    ProjectedMeans(generation, ps, s);
    AllDifferent(generation, ps);
    UndisplacedMeans(ps, s.key);
    var kept, q := Undisplaced(ps, s.key), Projected(ps, s);
    LongerOrOther(ps, kept, q);
    assert (kept + [q])[..|kept + [q]| - 1] == kept;
  }

  lemma UpsertMeans(c: Catalog, e: ParticipantEvent)
    requires CatalogOk(c) && WellFormed(e) && Admitted(c, e) && e.kind == Upsert
    ensures if Knows(Before(c, e), e.participant.key) then ReplacedIn(Before(c, e), After(c, e), e.participant)
            else AddedTo(Before(c, e), After(c, e), e.participant)
    ensures ApplyEvent(c, e).1
         == if c.snapshot.generation == NativeGeneration(e) && Alike(Before(c, e), After(c, e)) then NoChange else Applied
  {
    hide CatalogOk, ApplyEvent, ParticipantsOk, DistinctReports, UpsertIn, Alike, Knows, ReplacedIn, AddedTo;
    var ps, s, generation := Before(c, e), e.participant, NativeGeneration(e);
    BeforeOk(c, e);
    AdmittedApplies(c, e);
    IndexMeans(generation, ps, s.key);
    assert UpsertIn(ps, s).Some? by { AlwaysTaken(ps, s); }
    if Knows(ps, s.key) {
      KnownReplaced(generation, ps, s);
    } else {
      NewcomerAdded(generation, ps, s);
    }
  }

  lemma AlwaysTaken(ps: seq<Participant>, s: ParticipantSnapshot)
    ensures UpsertIn(ps, s).Some?
  {
  }

  lemma LongerOrOther(ps: seq<Participant>, kept: seq<Participant>, q: Participant)
    requires forall p :: p in ps ==> p.key != q.key
    ensures !Alike(ps, kept + [q])
  {
    var n := |kept|;
    if |ps| == n + 1 {
      assert ps[n] in ps;
      assert Bare(ps[n]).key != Bare((kept + [q])[n]).key;
    }
  }

  // ------------------------------------------------------------------------
  // Track events.
  // ------------------------------------------------------------------------

  /** Nothing differs but the publications of this one participant. */
  ghost predicate OnlyPublicationsOf(before: seq<Participant>, after: seq<Participant>, m: nat)
  {
    && m < |before| && |after| == |before| && after[m] == before[m].(publications := after[m].publications)
    && forall i :: 0 <= i < |before| && i != m ==> after[i] == before[i]
  }

  /** Nothing differs but this one publication, which is now v. */
  ghost predicate OnlyThis(before: seq<Participant>, after: seq<Participant>, m: nat, x: nat, v: Publication)
  {
    && OnlyPublicationsOf(before, after, m)
    && x < |before[m].publications| && after[m].publications == before[m].publications[x := v]
  }

  /** The publication is there as number x of participant number m. */
  predicate Stands(ps: seq<Participant>, m: nat, x: nat, key: TrackKey)
  {
    m < |ps| && ps[m].key == key.participant && x < |ps[m].publications| && ps[m].publications[x].key == key
  }

  predicate TicketCounts(e: ParticipantEvent)
  {
    e.trackTicket.Ticket? && e.trackTicket.active && e.trackTicket.key == e.trackKey
  }

  /** A state that e tells of its track. */
  predicate Carried(e: ParticipantEvent, v: Publication)
  {
    v.key == e.trackKey && v.ticket == e.trackTicket && v.state == e.track
  }

  /** The publication that a track event leaves in place of v. */
  predicate Renewed(e: ParticipantEvent, v: Publication, v': Publication)
  {
    if e.kind == TrackUnavailable then v' == v.(mediaAvailable := false)
    else Carried(e, v') && v'.mediaAvailable == ((e.kind == TrackAvailable || v.mediaAvailable) && e.track.subscriptionError == NoError)
  }

  /** The event finds its track, or may start it. */
  ghost predicate Finds(ps: seq<Participant>, e: ParticipantEvent)
  {
    && Knows(ps, e.participant.key)
    && (e.kind == TrackAvailable || exists m: nat, x: nat :: Stands(ps, m, x, e.trackKey))
    && (e.kind != TrackUnavailable ==> TicketCounts(e))
  }

  lemma TrackIndexMeans(owner: ParticipantKey, pubs: seq<Publication>, x: nat)
    requires PublicationsOk(owner, pubs) && x < |pubs|
    ensures TrackIndexOf(pubs, pubs[x].key) == x
  {
  }

  lemma TrackIndexed(generation: nat, ps: seq<Participant>, m: nat, x: nat, key: TrackKey)
    requires ParticipantsOk(generation, ps) && Stands(ps, m, x, key)
    ensures IndexOf(ps, key.participant) == m && TrackIndexOf(ps[m].publications, key) == x
  {
    IndexMeans(generation, ps, key.participant);
    assert ParticipantOk(generation, ps[m]);
    TrackIndexMeans(ps[m].key, ps[m].publications, x);
  }

  lemma RefreshMeans(ps: seq<Participant>, i: nat, k: nat, projected: Publication, ticket: Ticket<TrackKey>)
    requires i < |ps| && k < |ps[i].publications| && projected.ticket == ticket && projected.key == ps[i].publications[k].key
    ensures OnlyThis(ps, Refresh(ps, i, k, projected, ticket).0, i, k, projected)
    ensures Refresh(ps, i, k, projected, ticket).1 <==> !Alike(ps, Refresh(ps, i, k, projected, ticket).0)
  {
    var p := ps[i].publications[k];
    var after := Refresh(ps, i, k, projected, ticket).0;
    assert SamePublication(p, projected) ==> p.(ticket := ticket) == projected;
    assert after == Replace(ps, i, k, projected);
    BareReplaced(ps, i, k, projected);
  }

  lemma BareReplaced(ps: seq<Participant>, i: nat, k: nat, v: Publication)
    requires i < |ps| && k < |ps[i].publications|
    ensures Alike(ps, Replace(ps, i, k, v)) <==> ps[i].publications[k].(ticket := Lost) == v.(ticket := Lost)
  {
    var pubs := ps[i].publications;
    var x, y := BareAll(pubs), BareAll(pubs[k := v]);
    assert x[k] == pubs[k].(ticket := Lost) && y[k] == v.(ticket := Lost);
    if x[k] == y[k] {
      assert x == y;
    } else {
      assert Bare(ps[i]).publications[k] != Bare(Replace(ps, i, k, v)[i]).publications[k];
    }
  }

  /** Where the track is already there: exactly its publication is renewed. */
  lemma TrackRenewed(c: Catalog, e: ParticipantEvent, m: nat, x: nat)
    requires CatalogOk(c) && WellFormed(e) && Admitted(c, e) && e.kind != Departure && e.kind != Upsert
    requires Stands(Before(c, e), m, x, e.trackKey) && (e.kind != TrackUnavailable ==> TicketCounts(e))
    ensures exists v :: Renewed(e, Before(c, e)[m].publications[x], v) && OnlyThis(Before(c, e), After(c, e), m, x, v)
    ensures ApplyEvent(c, e).1
         == if c.snapshot.generation == NativeGeneration(e) && Alike(Before(c, e), After(c, e)) then NoChange else Applied
  {
    hide CatalogOk, ApplyEvent, ParticipantsOk, Alike, Refresh;
    var ps := Before(c, e);
    BeforeOk(c, e);
    AdmittedApplies(c, e);
    TrackIndexed(NativeGeneration(e), ps, m, x, e.trackKey);
    var p := ps[m].publications[x];
    RefreshMeans(ps, m, x, ProjectTrack(e, true), e.trackTicket);
    RefreshMeans(ps, m, x, ProjectTrack(e, p.mediaAvailable), e.trackTicket);
    BareReplaced(ps, m, x, p.(mediaAvailable := false));
    var v := if e.kind == TrackUnavailable then p.(mediaAvailable := false)
             else if e.kind == TrackAvailable then ProjectTrack(e, true) else ProjectTrack(e, p.mediaAvailable);
    assert Renewed(e, p, v);
    assert OnlyThis(ps, After(c, e), m, x, v);
  }

  /** A track that becomes available for the first time comes last among those of its participant. */
  lemma TrackStarted(c: Catalog, e: ParticipantEvent, m: nat)
    requires CatalogOk(c) && WellFormed(e) && Admitted(c, e) && e.kind == TrackAvailable && TicketCounts(e)
    requires m < |Before(c, e)| && Before(c, e)[m].key == e.participant.key
    requires forall x: nat :: !Stands(Before(c, e), m, x, e.trackKey)
    ensures OnlyPublicationsOf(Before(c, e), After(c, e), m)
    ensures exists v :: Carried(e, v) && v.mediaAvailable == (e.track.subscriptionError == NoError)
                     && After(c, e)[m].publications == Before(c, e)[m].publications + [v]
    ensures ApplyEvent(c, e).1 == Applied
  {
    hide CatalogOk, ApplyEvent, ParticipantsOk;
    var ps := Before(c, e);
    BeforeOk(c, e);
    AdmittedApplies(c, e);
    IndexMeans(NativeGeneration(e), ps, e.participant.key);
    var k := TrackIndexOf(ps[m].publications, e.trackKey);
    assert !Stands(ps, m, k, e.trackKey);
    var v := ProjectTrack(e, true);
    assert Carried(e, v) && After(c, e)[m].publications == ps[m].publications + [v];
  }

  /** A track event that finds neither leaves everybody as they were. */
  lemma TrackRefused(c: Catalog, e: ParticipantEvent)
    requires CatalogOk(c) && WellFormed(e) && Admitted(c, e) && e.kind != Departure && e.kind != Upsert
    ensures ApplyEvent(c, e).1 == RejectedStale <==> !Finds(Before(c, e), e)
    ensures !Finds(Before(c, e), e) ==> After(c, e) == Before(c, e)
  {
    hide CatalogOk, ApplyEvent, ParticipantsOk, Refresh;
    var ps := Before(c, e);
    BeforeOk(c, e);
    AdmittedApplies(c, e);
    IndexMeans(NativeGeneration(e), ps, e.participant.key);
    var i := IndexOf(ps, e.participant.key);
    if i < |ps| {
      var k := TrackIndexOf(ps[i].publications, e.trackKey);
      assert k < |ps[i].publications| ==> Stands(ps, i, k, e.trackKey);
      if exists m: nat, x: nat :: Stands(ps, m, x, e.trackKey) {
        var m: nat, x: nat :| Stands(ps, m, x, e.trackKey);
        TrackIndexed(NativeGeneration(e), ps, m, x, e.trackKey);
      }
    }
  }
}
