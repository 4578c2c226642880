/**
 What the lookups and orders of the policy mean, told by quantifiers over the
 catalog alone (src/core/video_demand_policy.cpp:234-384).
 */
module DemandMeaning {
  import opened Common
  import opened ParticipantEvents
  import opened DemandTypes
  import opened DemandPolicy
  import opened DemandSeats
  import Catalogs

  // ------------------------------------------------------------------------
  // What a key names.
  // ------------------------------------------------------------------------

  ghost predicate Published(c: Catalog, v: Catalogs.Publication)
  {
    c.Some? && exists p :: p in c.value.participants && v in p.publications
  }

  /** A publication of this key with this property. */
  ghost predicate Names(c: Catalog, key: TrackKey, wanted: Catalogs.Publication -> bool)
  {
    exists v :: Published(c, v) && v.key == key && wanted(v)
  }

  function IsVideo(v: Catalogs.Publication): bool { v.state.kind == Video }

  function IsCamera(v: Catalogs.Publication): bool { v.state.kind == Video && v.state.source == Camera }

  function IsShare(v: Catalogs.Publication): bool { v.state.kind == Video && v.state.source == ScreenShareVideo }

  /** Somebody who may be subscribed to and is not muted. */
  function IsLive(v: Catalogs.Publication): bool { v.state.subscriptionAllowed && !v.state.muted }

  ghost predicate NamesVideo(c: Catalog, key: TrackKey) { Names(c, key, IsVideo) }

  ghost predicate NamesCamera(c: Catalog, key: TrackKey) { Names(c, key, IsCamera) }

  ghost predicate NamesShare(c: Catalog, key: TrackKey) { Names(c, key, IsShare) }

  ghost predicate NamesLiveShare(c: Catalog, key: TrackKey) { Names(c, key, v => IsShare(v) && IsLive(v)) }

  ghost predicate NamesLiveCamera(c: Catalog, key: TrackKey) { Names(c, key, v => IsCamera(v) && IsLive(v)) }

  /** The placeholder of a participant who publishes no video. */
  ghost predicate StandsFor(c: Catalog, key: TrackKey)
  {
    && c.Some? && key == TrackKey(key.participant, 0, "")
    && exists p :: p in c.value.participants && p.key == key.participant
                   && Videoless(p)
  }

  ghost predicate NamesSeat(c: Catalog, key: TrackKey) { NamesVideo(c, key) || StandsFor(c, key) }

  lemma FindMeans(c: Catalog, key: TrackKey)
    requires CatalogOk(c)
    ensures Find(c, key).Some? ==> Published(c, Find(c, key).value) && Find(c, key).value.key == key
    ensures forall v :: Published(c, v) && v.key == key ==> Find(c, key) == Some(v)
  {
    hide Find, CatalogOk;
    if Find(c, key).Some? {
      var p := FoundInCatalog(c, key);
    }
    forall v | Published(c, v) && v.key == key ensures Find(c, key) == Some(v) {
      var p :| p in c.value.participants && v in p.publications;
      FindExact(c, p, v);
    }
  }

  lemma NamesMeans(c: Catalog, key: TrackKey, wanted: Catalogs.Publication -> bool)
    requires CatalogOk(c)
    ensures Names(c, key, wanted) <==> Find(c, key).Some? && wanted(Find(c, key).value)
  {
    hide Find, CatalogOk, Published;
    FindMeans(c, key);
  }

  lemma TrackMeans(c: Catalog, key: TrackKey)
    requires CatalogOk(c)
    ensures ResolveTrack(c, Some(key), None) == if NamesVideo(c, key) then Some(key) else None
    ensures ResolveTrack(c, Some(key), Some(Camera)) == if NamesCamera(c, key) then Some(key) else None
    ensures ResolveTrack(c, Some(key), Some(ScreenShareVideo)) == if NamesShare(c, key) then Some(key) else None
    ensures IsAutoShare(c, key) <==> NamesLiveShare(c, key)
  {
    hide Find, CatalogOk, Names;
    NamesMeans(c, key, IsVideo);
    NamesMeans(c, key, IsCamera);
    NamesMeans(c, key, IsShare);
    NamesMeans(c, key, v => IsShare(v) && IsLive(v));
  }

  /** Every video and every participant without video has a seat, and nobody else. */
  lemma SeatsMean(c: Catalog, key: TrackKey)
    requires CatalogOk(c)
    ensures SeatIndex(OrderedSeats(c), key) < |OrderedSeats(c)| <==> NamesSeat(c, key)
  {
    hide OrderedSeats, CatalogOk, SeatIndex;
    if c.Some? {
      if NamesVideo(c, key) {
        NamesMeans(c, key, IsVideo);
        TrackHasSeat(c, key);
      } else if StandsFor(c, key) {
        PlaceholderHasSeat(c, key);
      } else if SeatIndex(OrderedSeats(c), key) < |OrderedSeats(c)| {
        SeatNames(c, OrderedSeats(c)[SeatIndex(OrderedSeats(c), key)]);
      }
    } else {
      assert OrderedSeats(c) == [] by { NoSeats(c); }
    }
  }

  lemma NoSeats(c: Catalog)
    requires c.None?
    ensures OrderedSeats(c) == []
  {
  }

  lemma PlaceholderHasSeat(c: Catalog, key: TrackKey)
    requires CatalogOk(c) && StandsFor(c, key)
    ensures SeatIndex(OrderedSeats(c), key) < |OrderedSeats(c)|
  {
    hide SeatsOfParticipants, SeatIndex, Videoless;
    var p :| p in c.value.participants && p.key == key.participant && Videoless(p);
    AllSeats(c.value.generation, c.value.participants);
    var i :| 0 <= i < |OrderedSeats(c)| && OrderedSeats(c)[i] == Placeholder(p.key);
    SeatIndexFinds(OrderedSeats(c), i);
  }

  lemma SeatNames(c: Catalog, s: Candidate)
    requires CatalogOk(c) && c.Some? && s in OrderedSeats(c)
    ensures s.publication.Some? ==>
      Published(c, s.publication.value) && IsVideo(s.publication.value) && s == SeatOf(s.publication.value)
    ensures s.publication.None? ==> StandsFor(c, s.key)
    ensures NamesSeat(c, s.key)
  {
    AllSeats(c.value.generation, c.value.participants);
    hide SeatsOfParticipants, Videoless;
    assert Seated(c.value.participants, s);
    if s.publication.Some? {
      assert IsVideo(s.publication.value);
    }
  }

  lemma SeatMeans(c: Catalog, key: TrackKey)
    requires CatalogOk(c)
    ensures ResolveSeat(c, Some(key)) == if NamesSeat(c, key) then Some(key) else None
  {
    hide OrderedSeats, CatalogOk, SeatIndex, NamesVideo;
    if key.sid != "" {
      TrackMeans(c, key);
    } else {
      SeatsMean(c, key);
    }
  }

  // ------------------------------------------------------------------------
  // The display order.
  // ------------------------------------------------------------------------

  /** a comes before b in a dictionary. */
  ghost predicate LexLess(a: string, b: string)
  {
    exists k: nat :: LessAt(a, b, k)
  }

  ghost predicate LessAt(a: string, b: string, k: nat)
  {
    k <= |a| && k < |b| && a[..k] == b[..k] && (k == |a| || a[k] < b[k])
  }

  lemma {:induction false} StringLessMeans(a: string, b: string)
    ensures StringLess(a, b) <==> LexLess(a, b)
  {
    if a == [] || b == [] || a[0] != b[0] {
      if StringLess(a, b) {
        assert LessAt(a, b, 0);
      }
      forall k: nat | LessAt(a, b, k) ensures k == 0 {
        if k > 0 {
          LessAtHead(a, b, k);
        }
      }
    } else {
      StringLessMeans(a[1..], b[1..]);
      if LexLess(a[1..], b[1..]) {
        var k: nat :| LessAt(a[1..], b[1..], k);
        LessAtNext(a, b, k);
      }
      if LexLess(a, b) {
        var k: nat :| LessAt(a, b, k);
        LessAtNext(a, b, k - 1);
      }
    }
  }

  lemma LessAtHead(a: string, b: string, k: nat)
    requires LessAt(a, b, k) && k > 0
    ensures a != [] && b != [] && a[0] == b[0]
  {
    assert a[0] == a[..k][0] && b[0] == b[..k][0];
  }

  lemma LessAtNext(a: string, b: string, k: nat)
    requires a != [] && b != [] && a[0] == b[0]
    ensures LessAt(a, b, k + 1) <==> LessAt(a[1..], b[1..], k)
  {
    if k + 1 <= |a| && k + 1 <= |b| {
      assert a[..k + 1] == [a[0]] + a[1..][..k];
      assert b[..k + 1] == [b[0]] + b[1..][..k];
      if a[..k + 1] == b[..k + 1] {
        assert a[..k + 1][1..] == a[1..][..k] && b[..k + 1][1..] == b[1..][..k];
      }
    }
  }

  lemma {:induction false} NotLessChains(a: string, b: string, c: string)
    requires !StringLess(b, a) && !StringLess(c, b)
    ensures !StringLess(c, a)
  {
    if a != [] && c != [] && a[0] == c[0] {
      NotLessChains(a[1..], b[1..], c[1..]);
    }
  }

  /** A camera comes before a share, and both before anything else. */
  predicate RanksBefore(a: TrackSource, b: TrackSource)
  {
    (a == Camera && b != Camera) || (a == ScreenShareVideo && b !in {Camera, ScreenShareVideo})
  }

  /** Within one participant: by source, and by sid where the sources do not decide. */
  ghost predicate MayPrecede(a: Candidate, b: Candidate)
  {
    && a.publication.Some? && b.publication.Some?
    && !RanksBefore(b.source, a.source)
    && (RanksBefore(a.source, b.source) || !LexLess(b.key.sid, a.key.sid))
  }

  /** Participants in the order of the catalog, and the videos of one participant in their order. */
  ghost predicate DisplayOrder(ps: seq<Catalogs.Participant>, seats: seq<Candidate>)
  {
    forall i, j, m, n :: 0 <= i < j < |seats| && SeatOwner(ps, m, seats[i]) && SeatOwner(ps, n, seats[j]) ==>
      m < n || (m == n && MayPrecede(seats[i], seats[j]))
  }

  predicate SeatOwner(ps: seq<Catalogs.Participant>, m: nat, s: Candidate)
  {
    m < |ps| && ps[m].key == s.key.participant
  }

  lemma PrecedesMeans(a: Catalogs.Publication, b: Catalogs.Publication)
    ensures MayPrecede(SeatOf(a), SeatOf(b)) <==> !Precedes(b, a)
  {
    hide StringLess, LexLess;
    StringLessMeans(b.key.sid, a.key.sid);
  }

  lemma NotPrecedesChains(a: Catalogs.Publication, b: Catalogs.Publication, c: Catalogs.Publication)
    requires !Precedes(b, a) && !Precedes(c, b)
    ensures !Precedes(c, a)
  {
    hide StringLess;
    if !StringLess(b.key.sid, a.key.sid) && !StringLess(c.key.sid, b.key.sid) {
      NotLessChains(a.key.sid, b.key.sid, c.key.sid);
    }
  }

  lemma {:induction false} InOrderThroughout(pubs: seq<Catalogs.Publication>, i: nat, j: nat)
    requires InOrder(pubs) && i < j < |pubs|
    ensures !Precedes(pubs[j], pubs[i])
  {
    hide Precedes;
    if i + 1 < j {
      InOrderThroughout(pubs, i, j - 1);
      NotPrecedesChains(pubs[i], pubs[j - 1], pubs[j]);
    }
  }

  lemma SeatsOfInOrder(generation: nat, p: Catalogs.Participant)
    ensures var seats := SeatsOf(generation, p);
      forall i, j :: 0 <= i < j < |seats| ==> MayPrecede(seats[i], seats[j])
  {
    var videos := VideosOf(generation, p.publications);
    StableSortSorts(videos);
    var sorted := StableSort(videos);
    hide StableSort, InOrder, MayPrecede, Precedes, VideosOf;
    forall i, j | 0 <= i < j < |sorted| ensures MayPrecede(SeatOf(sorted[i]), SeatOf(sorted[j])) {
      InOrderThroughout(sorted, i, j);
      PrecedesMeans(sorted[i], sorted[j]);
    }
  }

  lemma OnePlace(generation: nat, ps: seq<Catalogs.Participant>, m: nat, n: nat)
    requires Catalogs.ParticipantsOk(generation, ps) && m < |ps| && n < |ps|
    ensures ps[m].key == ps[n].key ==> m == n
  {
    assert m < n ==> Catalogs.Separate(ps[m].key, ps[n].key);
    assert n < m ==> Catalogs.Separate(ps[n].key, ps[m].key);
  }

  /** The display order of all seats. */
  lemma {:induction false} SeatsInOrder(generation: nat, ps: seq<Catalogs.Participant>)
    requires Catalogs.ParticipantsOk(generation, ps)
    ensures DisplayOrder(ps, SeatsOfParticipants(generation, ps))
  {
    if ps != [] {
      var last := |ps| - 1;
      var before, mine := SeatsOfParticipants(generation, ps[..last]), SeatsOf(generation, ps[last]);
      SeatsInOrder(generation, ps[..last]);
      SeatsOfInOrder(generation, ps[last]);
      AllSeats(generation, ps[..last]);
      ParticipantSeats(generation, ps[last]);
      assert SeatsOfParticipants(generation, ps) == before + mine;
      hide SeatsOfParticipants, SeatsOf, MayPrecede, SeatFor, Covers, Catalogs.ParticipantOk;
      OrderJoins(generation, ps, before, mine);
    }
  }

  lemma OrderJoins(generation: nat, ps: seq<Catalogs.Participant>, before: seq<Candidate>, mine: seq<Candidate>)
    requires Catalogs.ParticipantsOk(generation, ps) && ps != []
    requires DisplayOrder(ps[..|ps| - 1], before) && forall s :: s in before ==> Seated(ps[..|ps| - 1], s)
    requires forall i, j :: 0 <= i < j < |mine| ==> MayPrecede(mine[i], mine[j])
    requires forall s :: s in mine ==> SeatFor(ps[|ps| - 1], s)
    ensures DisplayOrder(ps, before + mine)
  {
    hide MayPrecede, Catalogs.ParticipantOk, Catalogs.Separate;
    var seats, last := before + mine, |ps| - 1;
    forall i, j, m, n | 0 <= i < j < |seats| && SeatOwner(ps, m, seats[i]) && SeatOwner(ps, n, seats[j])
      ensures m < n || (m == n && MayPrecede(seats[i], seats[j]))
    {
      OwnerOf(generation, ps, before, mine, i, m);
      OwnerOf(generation, ps, before, mine, j, n);
      if j < |before| {
        assert SeatOwner(ps[..last], m, before[i]) && SeatOwner(ps[..last], n, before[j]);
      }
    }
  }

  /** A seat of the last part belongs to the last participant, any other to one before. */
  lemma OwnerOf(generation: nat, ps: seq<Catalogs.Participant>, before: seq<Candidate>, mine: seq<Candidate>, i: nat, m: nat)
    requires Catalogs.ParticipantsOk(generation, ps) && ps != []
    requires forall s :: s in before ==> Seated(ps[..|ps| - 1], s)
    requires forall s :: s in mine ==> SeatFor(ps[|ps| - 1], s)
    requires i < |before + mine| && SeatOwner(ps, m, (before + mine)[i])
    ensures i < |before| <==> m < |ps| - 1
  {
    hide Catalogs.ParticipantsOk;
    var s := (before + mine)[i];
    if i < |before| {
      assert s in before;
      var p :| p in ps[..|ps| - 1] && SeatFor(p, s);
      var n :| 0 <= n < |ps| - 1 && ps[n] == p;
      OnePlace(generation, ps, m, n);
    } else {
      assert s in mine;
      OnePlace(generation, ps, m, |ps| - 1);
    }
  }

  // ------------------------------------------------------------------------
  // Who is heard, and what is shared.
  // ------------------------------------------------------------------------

  /** The first seat in display order with this property. */
  ghost predicate FirstSeat(seats: seq<Candidate>, key: TrackKey, wanted: Candidate -> bool)
  {
    exists i: nat :: FirstAt(seats, i, wanted) && seats[i].key == key
  }

  ghost predicate FirstAt(seats: seq<Candidate>, i: nat, wanted: Candidate -> bool)
  {
    i < |seats| && wanted(seats[i]) && forall j :: 0 <= j < i ==> !wanted(seats[j])
  }

  predicate ShowsLive(s: Candidate, source: TrackSource)
  {
    s.publication.Some? && s.publication.value.state.source == source && IsVideo(s.publication.value)
    && IsLive(s.publication.value)
  }

  function SharesLive(): Candidate -> bool { (s: Candidate) => ShowsLive(s, ScreenShareVideo) }

  function FilmsLive(who: ParticipantKey): Candidate -> bool
  {
    (s: Candidate) => ShowsLive(s, Camera) && s.key.participant == who
  }

  lemma {:induction false} FirstShareMeans(seats: seq<Candidate>)
    requires forall s :: s in seats && s.publication.Some? ==> s.key == s.publication.value.key
    ensures var r := FirstShare(seats);
      if r.Some? then FirstSeat(seats, r.value, SharesLive()) else forall s :: s in seats ==> !ShowsLive(s, ScreenShareVideo)
  {
    if seats != [] {
      FirstShareMeans(seats[1..]);
      var r := FirstShare(seats);
      if ShowsLive(seats[0], ScreenShareVideo) {
        assert FirstAt(seats, 0, SharesLive());
      } else if r.Some? {
        var i: nat :| FirstAt(seats[1..], i, SharesLive()) && seats[1..][i].key == r.value;
        assert FirstAt(seats, i + 1, SharesLive());
      }
    }
  }

  lemma {:induction false} FirstCameraMeans(who: ParticipantKey, seats: seq<Candidate>)
    requires forall s :: s in seats && s.publication.Some? ==> s.key == s.publication.value.key
    ensures var r := FirstCamera(who, seats);
      if r.Some? then FirstSeat(seats, r.value, FilmsLive(who)) else forall s :: s in seats ==> !FilmsLive(who)(s)
  {
    if seats != [] {
      FirstCameraMeans(who, seats[1..]);
      var r := FirstCamera(who, seats);
      if FilmsLive(who)(seats[0]) {
        assert FirstAt(seats, 0, FilmsLive(who));
      } else if r.Some? {
        var i: nat :| FirstAt(seats[1..], i, FilmsLive(who)) && seats[1..][i].key == r.value;
        assert FirstAt(seats, i + 1, FilmsLive(who));
      }
    }
  }

  /** A remote participant who speaks and has a camera that can be shown. */
  ghost predicate CanBeHeard(c: Catalog, s: Speaker)
  {
    !s.isLocal && s.speaking && exists key: TrackKey :: key.participant == s.key && NamesLiveCamera(c, key)
  }

  /** The camera of the first speaker in the list who can be heard, the first of that participant in display order. */
  ghost predicate HeardCamera(c: Catalog, speakers: seq<Speaker>, camera: Option<TrackKey>)
  {
    if camera.None? then forall s :: s in speakers ==> !CanBeHeard(c, s)
    else exists n: nat :: HeardAt(c, speakers, camera.value, n)
  }

  ghost predicate HeardAt(c: Catalog, speakers: seq<Speaker>, camera: TrackKey, n: nat)
  {
    && n < |speakers| && CanBeHeard(c, speakers[n])
    && (forall m :: 0 <= m < n ==> !CanBeHeard(c, speakers[m]))
    && FirstSeat(OrderedSeats(c), camera, FilmsLive(speakers[n].key))
  }

  lemma SeatsCarryKeys(c: Catalog)
    requires CatalogOk(c)
    ensures forall s :: s in OrderedSeats(c) && s.publication.Some? ==> s.key == s.publication.value.key
  {
    SeatsFind(c);
    hide OrderedSeats, Find;
  }

  lemma CameraMeans(c: Catalog, s: Speaker)
    requires CatalogOk(c)
    ensures var camera := if Speaks(c, s) then FirstCamera(s.key, OrderedSeats(c)) else None;
      if camera.Some? then CanBeHeard(c, s) && FirstSeat(OrderedSeats(c), camera.value, FilmsLive(s.key))
      else !CanBeHeard(c, s)
  {
    hide OrderedSeats, FirstCamera, CatalogOk, Published;
    var seats := OrderedSeats(c);
    SeatsCarryKeys(c);
    FirstCameraMeans(s.key, seats);
    if Speaks(c, s) && FirstCamera(s.key, seats).Some? {
      var i: nat :| FirstAt(seats, i, FilmsLive(s.key)) && seats[i].key == FirstCamera(s.key, seats).value;
      SeatNames(c, seats[i]);
      LiveSeatNames(c, seats[i], s.key);
    } else {
      LiveCameraIsSeated(c, s);
    }
  }

  lemma LiveCameraIsSeated(c: Catalog, s: Speaker)
    requires CatalogOk(c)
    ensures CanBeHeard(c, s) ==> Speaks(c, s) && exists seat :: seat in OrderedSeats(c) && FilmsLive(s.key)(seat)
  {
    hide OrderedSeats, CatalogOk, Published;
    if CanBeHeard(c, s) {
      var key: TrackKey :| key.participant == s.key && NamesLiveCamera(c, key);
      var v :| Published(c, v) && v.key == key && IsCamera(v) && IsLive(v);
      PublishedHasSeat(c, v);
      assert FilmsLive(s.key)(SeatOf(v));
    }
  }

  lemma LiveSeatNames(c: Catalog, s: Candidate, who: ParticipantKey)
    requires s.publication.Some? && Published(c, s.publication.value) && s.key == s.publication.value.key
    requires FilmsLive(who)(s)
    ensures s.key.participant == who && NamesLiveCamera(c, s.key)
  {
    var v := s.publication.value;
    assert IsCamera(v) && IsLive(v);
  }

  lemma PublishedHasSeat(c: Catalog, v: Catalogs.Publication)
    requires CatalogOk(c) && Published(c, v) && IsVideo(v)
    ensures c.Some? && SeatOf(v) in OrderedSeats(c) && v.key.participant.generation == c.value.generation
  {
    AllSeats(c.value.generation, c.value.participants);
    hide SeatsOfParticipants;
    var p :| p in c.value.participants && v in p.publications;
    FindExact(c, p, v);
  }

  lemma {:induction false} SpeakerMeans(c: Catalog, speakers: seq<Speaker>)
    requires CatalogOk(c)
    ensures HeardCamera(c, speakers, SpeakerCamera(c, speakers))
  {
    if speakers != [] {
      hide CatalogOk, OrderedSeats, FirstCamera, CanBeHeard, FirstSeat, Speaks;
      CameraMeans(c, speakers[0]);
      SpeakerMeans(c, speakers[1..]);
      var camera := SpeakerCamera(c, speakers);
      if camera.Some? {
        if CanBeHeard(c, speakers[0]) {
          assert HeardAt(c, speakers, camera.value, 0);
        } else {
          var n: nat :| HeardAt(c, speakers[1..], camera.value, n);
          assert HeardAt(c, speakers, camera.value, n + 1);
        }
      }
    }
  }

  /**
   One observation: the candidate is the camera heard; a new one starts its time
   and leaves the stable speaker alone; one that is heard again becomes stable when
   its delay is over; a stable speaker lasts while it is published and somebody is heard.
   */
  ghost predicate Hears(c: Catalog, speakers: seq<Speaker>, s: Speech, s': Speech, now: int, delay: int)
  {
    && HeardCamera(c, speakers, s'.candidate)
    && if s'.candidate.None? then s' == Speech(None, if s.candidate.None? then s.since else None, None)
       else if s'.candidate != s.candidate then s'.since == Some(now) && s'.stable == s.stable
       else
         && s'.since == s.since
         && if s.since.None? then s'.stable.None?
            else if now - s.since.value >= delay then s'.stable == s.candidate
            else s'.stable == if s.stable.Some? && Names(c, s.stable.value, v => true) then s.stable else None
  }

  lemma SpeechMeans(c: Catalog, speakers: seq<Speaker>, s: Speech, now: int, delay: int)
    requires CatalogOk(c)
    ensures Hears(c, speakers, s, Advance(c, speakers, s, now, delay), now, delay)
  {
    hide CatalogOk, SpeakerCamera, HeardCamera, Find, Names;
    SpeakerMeans(c, speakers);
    SpeakerCameraResolves(c, speakers);
    if s.stable.Some? {
      NamesMeans(c, s.stable.value, v => true);
    }
    if s.candidate.Some? {
      TrackMeans(c, s.candidate.value);
      CameraIsNamed(c, s.candidate.value);
    }
  }

  lemma CameraIsNamed(c: Catalog, key: TrackKey)
    ensures ResolveTrack(c, Some(key), Some(Camera)).Some? ==> Find(c, key).Some?
  {
  }

  /** Which share is detected: the present one while it is live, else the first live one in display order. */
  ghost predicate DetectedShare(c: Catalog, current: Option<TrackKey>, share: Option<TrackKey>)
  {
    if current.Some? && NamesLiveShare(c, current.value) then share == current
    else if share.Some? then NamesLiveShare(c, share.value) && FirstSeat(OrderedSeats(c), share.value, SharesLive())
    else forall key :: !NamesLiveShare(c, key)
  }

  lemma LiveShareIsSeated(c: Catalog, key: TrackKey)
    requires CatalogOk(c)
    ensures NamesLiveShare(c, key) ==> exists s :: s in OrderedSeats(c) && ShowsLive(s, ScreenShareVideo)
  {
    hide OrderedSeats, CatalogOk, Published;
    if NamesLiveShare(c, key) {
      var v :| Published(c, v) && v.key == key && IsShare(v) && IsLive(v);
      PublishedHasSeat(c, v);
      assert ShowsLive(SeatOf(v), ScreenShareVideo);
    }
  }

  lemma ShareMeans(c: Catalog, current: Option<TrackKey>)
    requires CatalogOk(c)
    ensures DetectedShare(c, current, RefreshShare(c, current))
  {
    hide OrderedSeats, FirstShare, CatalogOk, Published, IsAutoShare;
    if current.Some? {
      TrackMeans(c, current.value);
    }
    var seats := OrderedSeats(c);
    SeatsCarryKeys(c);
    FirstShareMeans(seats);
    FirstShareIsShare(c, seats);
    if FirstShare(seats).Some? {
      TrackMeans(c, FirstShare(seats).value);
    } else {
      forall key ensures !NamesLiveShare(c, key) {
        LiveShareIsSeated(c, key);
      }
    }
  }
}
