/** What the display order of seats guarantees over a catalog that keeps its invariant. */
module DemandSeats {
  import opened Common
  import opened ParticipantEvents
  import opened DemandPolicy
  import Catalogs

  ghost predicate CatalogOk(c: Catalog)
  {
    c.Some? ==> Catalogs.ParticipantsOk(c.value.generation, c.value.participants)
  }

  // ------------------------------------------------------------------------
  // Sorting the videos of one participant.
  // ------------------------------------------------------------------------

  lemma {:induction false} StringLessAsymmetric(a: string, b: string)
    requires StringLess(a, b)
    ensures !StringLess(b, a)
  {
    if a != [] && a[0] == b[0] {
      StringLessAsymmetric(a[1..], b[1..]);
    }
  }

  ghost predicate InOrder(pubs: seq<Catalogs.Publication>)
  {
    forall i :: 0 < i < |pubs| ==> !Precedes(pubs[i], pubs[i - 1])
  }

  lemma {:induction false} InsertInOrder(sorted: seq<Catalogs.Publication>, p: Catalogs.Publication)
    requires InOrder(sorted)
    ensures InOrder(Insert(sorted, p))
    ensures var r := Insert(sorted, p);
      r[|r| - 1] == p || (sorted != [] && r[|r| - 1] == sorted[|sorted| - 1])
  {
    if sorted != [] {
      var n := |sorted| - 1;
      if Precedes(p, sorted[n]) {
        InsertInOrder(sorted[..n], p);
        if SourceOrder(p.state.source) == SourceOrder(sorted[n].state.source) {
          StringLessAsymmetric(p.key.sid, sorted[n].key.sid);
        }
      }
    }
  }

  lemma SnocMultiset<T>(s: seq<T>)
    requires s != []
    ensures multiset(s) == multiset(s[..|s| - 1]) + multiset{s[|s| - 1]}
  {
    assert s == s[..|s| - 1] + [s[|s| - 1]];
  }

  lemma {:induction false} InsertKeepsAll(sorted: seq<Catalogs.Publication>, p: Catalogs.Publication)
    ensures multiset(Insert(sorted, p)) == multiset(sorted) + multiset{p}
  {
    if sorted != [] && Precedes(p, sorted[|sorted| - 1]) {
      InsertKeepsAll(sorted[..|sorted| - 1], p);
      SnocMultiset(sorted);
    }
  }

  /** The sort returns the same publications, camera before share before others, by sid within each. */
  lemma {:induction false} StableSortSorts(pubs: seq<Catalogs.Publication>)
    ensures InOrder(StableSort(pubs))
    ensures multiset(StableSort(pubs)) == multiset(pubs)
  {
    if pubs != [] {
      var n := |pubs| - 1;
      var rest := StableSort(pubs[..n]);
      StableSortSorts(pubs[..n]);
      InsertInOrder(rest, pubs[n]);
      InsertKeepsAll(rest, pubs[n]);
      SnocMultiset(pubs);
      hide InOrder, Insert;
    }
  }

  lemma {:induction false} VideosOfKeeps(generation: nat, pubs: seq<Catalogs.Publication>)
    requires forall i, j :: 0 <= i < j < |pubs| ==> pubs[i].key != pubs[j].key
    ensures var r := VideosOf(generation, pubs);
      && (forall i, j :: 0 <= i < j < |r| ==> r[i].key != r[j].key)
      && (forall p :: p in r <==> p in pubs && IsVideoOf(generation, p))
  {
    if pubs != [] {
      var n := |pubs| - 1;
      VideosOfKeeps(generation, pubs[..n]);
      assert pubs == pubs[..n] + [pubs[n]];
      forall p | p in pubs[..n] ensures p.key != pubs[n].key {
        var i :| 0 <= i < n && pubs[i] == p;
      }
    }
  }

  /** Being a rearrangement keeps keys distinct. */
  lemma DistinctKeysMove(a: seq<Catalogs.Publication>, b: seq<Catalogs.Publication>)
    requires multiset(a) == multiset(b)
    requires forall i, j :: 0 <= i < j < |a| ==> a[i].key != a[j].key
    ensures forall i, j :: 0 <= i < j < |b| ==> b[i].key != b[j].key
    ensures forall p :: p in a <==> p in b
  {
    forall p ensures p in a <==> p in b {
      assert p in a <==> p in multiset(a);
      assert p in b <==> p in multiset(b);
    }
    forall i, j | 0 <= i < j < |b| ensures b[i].key != b[j].key {
      if b[i].key == b[j].key {
        OncePerKey(a, b[i], b[j]);
        Twice(b, i, j);
      }
    }
  }

  lemma {:induction false} OncePerKey(a: seq<Catalogs.Publication>, p: Catalogs.Publication, q: Catalogs.Publication)
    requires forall i, j :: 0 <= i < j < |a| ==> a[i].key != a[j].key
    requires p.key == q.key
    ensures p != q ==> !(p in a && q in a)
    ensures multiset(a)[p] <= 1
  {
    if a != [] {
      var n := |a| - 1;
      assert a == a[..n] + [a[n]];
      OncePerKey(a[..n], p, q);
      if a[n] == p {
        assert p !in a[..n];
        assert p !in multiset(a[..n]);
      }
    }
  }

  lemma Twice<T>(b: seq<T>, i: nat, j: nat)
    requires i < j < |b| && b[i] == b[j]
    ensures multiset(b)[b[i]] >= 2
  {
    assert b == b[..i] + [b[i]] + b[i + 1..j] + [b[j]] + b[j + 1..];
  }

  // ------------------------------------------------------------------------
  // The seats of one participant, and of all.
  // ------------------------------------------------------------------------

  ghost predicate DistinctSeats(seats: seq<Candidate>)
  {
    forall i, j :: 0 <= i < j < |seats| ==> seats[i].key != seats[j].key
  }

  /** A seat shows a video of its participant, or stands for a participant without any. */
  ghost predicate SeatFor(p: Catalogs.Participant, s: Candidate)
  {
    && s.key.participant == p.key
    && (s.publication.Some? ==>
          && s.publication.value in p.publications && s.publication.value.state.kind == Video
          && s == SeatOf(s.publication.value))
    && (s.publication.None? ==> s == Placeholder(p.key) && Videoless(p))
  }

  ghost predicate Videoless(p: Catalogs.Participant) { forall v :: v in p.publications ==> v.state.kind != Video }

  lemma SortedVideos(generation: nat, owner: ParticipantKey, pubs: seq<Catalogs.Publication>)
    requires Catalogs.PublicationsOk(owner, pubs) && owner.generation == generation
    ensures var r := StableSort(VideosOf(generation, pubs));
      && (forall i, j :: 0 <= i < j < |r| ==> r[i].key != r[j].key)
      && (forall v :: v in r <==> v in pubs && v.state.kind == Video)
  {
    VideosOfKeeps(generation, pubs);
    StableSortSorts(VideosOf(generation, pubs));
    DistinctKeysMove(VideosOf(generation, pubs), StableSort(VideosOf(generation, pubs)));
  }

  lemma ParticipantSeats(generation: nat, p: Catalogs.Participant)
    requires Catalogs.ParticipantOk(generation, p)
    ensures var seats := SeatsOf(generation, p);
      && DistinctSeats(seats)
      && (forall s :: s in seats ==> SeatFor(p, s))
      && (forall v :: v in p.publications && v.state.kind == Video ==> SeatOf(v) in seats)
      && (Videoless(p) ==> seats == [Placeholder(p.key)])
  {
    SortedVideos(generation, p.key, p.publications);
    var sorted := StableSort(VideosOf(generation, p.publications));
    assert forall i :: 0 <= i < |sorted| ==> sorted[i] in sorted;
    var seats := SeatsOf(generation, p);
    if sorted != [] {
      assert seats == SeatsOfAll(sorted);
      hide StableSort, VideosOf, SeatsOf, SeatsOfAll, Catalogs.PublicationsOk;
      SeatsOfVideos(p, sorted, seats);
    }
  }

  lemma SeatsOfVideos(p: Catalogs.Participant, sorted: seq<Catalogs.Publication>, seats: seq<Candidate>)
    requires |seats| == |sorted| && forall i :: 0 <= i < |sorted| ==> seats[i] == SeatOf(sorted[i])
    requires forall i, j :: 0 <= i < j < |sorted| ==> sorted[i].key != sorted[j].key
    requires forall v :: v in sorted <==> v in p.publications && v.state.kind == Video
    requires forall v :: v in p.publications ==> v.key.participant == p.key
    ensures DistinctSeats(seats)
    ensures forall s :: s in seats ==> SeatFor(p, s)
    ensures forall v :: v in p.publications && v.state.kind == Video ==> SeatOf(v) in seats
  {
    forall v | v in p.publications && v.state.kind == Video
      ensures SeatOf(v) in seats
    {
      var i :| 0 <= i < |sorted| && sorted[i] == v;
      assert seats[i] == SeatOf(v);
    }
    forall s | s in seats ensures SeatFor(p, s) {
      var i :| 0 <= i < |seats| && seats[i] == s;
      assert sorted[i] in sorted;
    }
  }

  ghost predicate Seated(ps: seq<Catalogs.Participant>, s: Candidate)
  {
    exists p :: p in ps && SeatFor(p, s)
  }

  /** Every video of these participants has a seat, and so has everyone without video. */
  ghost predicate Covers(seats: seq<Candidate>, ps: seq<Catalogs.Participant>)
  {
    && (forall p, v :: p in ps && v in p.publications && v.state.kind == Video ==> SeatOf(v) in seats)
    && (forall p :: p in ps && Videoless(p) ==> Placeholder(p.key) in seats)
  }

  lemma {:induction false} AllSeats(generation: nat, ps: seq<Catalogs.Participant>)
    requires Catalogs.ParticipantsOk(generation, ps)
    ensures var seats := SeatsOfParticipants(generation, ps);
      DistinctSeats(seats) && Covers(seats, ps) && forall s :: s in seats ==> Seated(ps, s)
  {
    if ps != [] {
      var n := |ps| - 1;
      var before, mine := SeatsOfParticipants(generation, ps[..n]), SeatsOf(generation, ps[n]);
      assert SeatsOfParticipants(generation, ps) == before + mine;
      AllSeats(generation, ps[..n]);
      ParticipantSeats(generation, ps[n]);
      hide SeatsOfParticipants, SeatsOf, SeatFor, DistinctSeats, Seated, Covers;
      JoinedDistinct(generation, ps, before, mine);
      JoinedSeated(ps, before, mine);
      JoinedCovers(ps, before, mine);
    }
  }

  lemma JoinedCovers(ps: seq<Catalogs.Participant>, before: seq<Candidate>, mine: seq<Candidate>)
    requires ps != [] && Covers(before, ps[..|ps| - 1])
    requires forall v :: v in ps[|ps| - 1].publications && v.state.kind == Video ==> SeatOf(v) in mine
    requires Videoless(ps[|ps| - 1]) ==> Placeholder(ps[|ps| - 1].key) in mine
    ensures Covers(before + mine, ps)
  {
    assert ps == ps[..|ps| - 1] + [ps[|ps| - 1]];
  }

  lemma JoinedSeated(ps: seq<Catalogs.Participant>, before: seq<Candidate>, mine: seq<Candidate>)
    requires ps != []
    requires forall s :: s in before ==> Seated(ps[..|ps| - 1], s)
    requires forall s :: s in mine ==> SeatFor(ps[|ps| - 1], s)
    ensures forall s :: s in before + mine ==> Seated(ps, s)
  {
    hide SeatFor;
    forall s | s in before + mine ensures Seated(ps, s) {
      if s in before {
        var p :| p in ps[..|ps| - 1] && SeatFor(p, s);
        assert p in ps && SeatFor(p, s);
      } else {
        assert ps[|ps| - 1] in ps && SeatFor(ps[|ps| - 1], s);
      }
    }
  }

  lemma JoinedDistinct(generation: nat, ps: seq<Catalogs.Participant>, before: seq<Candidate>, mine: seq<Candidate>)
    requires Catalogs.ParticipantsOk(generation, ps) && ps != []
    requires DistinctSeats(before) && forall s :: s in before ==> Seated(ps[..|ps| - 1], s)
    requires DistinctSeats(mine) && forall s :: s in mine ==> SeatFor(ps[|ps| - 1], s)
    ensures DistinctSeats(before + mine)
  {
    hide SeatFor, Seated, Catalogs.ParticipantsOk;
    forall i, j | 0 <= i < |before| && 0 <= j < |mine| ensures before[i].key != mine[j].key {
      assert before[i] in before && mine[j] in mine;
      OtherParticipant(generation, ps, before[i], mine[j]);
    }
  }

  lemma OtherParticipant(generation: nat, ps: seq<Catalogs.Participant>, a: Candidate, b: Candidate)
    requires Catalogs.ParticipantsOk(generation, ps) && ps != []
    requires Seated(ps[..|ps| - 1], a) && SeatFor(ps[|ps| - 1], b)
    ensures a.key != b.key
  {
    var p :| p in ps[..|ps| - 1] && SeatFor(p, a);
    var i :| 0 <= i < |ps| - 1 && ps[i] == p;
    assert Catalogs.Separate(ps[i].key, ps[|ps| - 1].key);
  }

  // ------------------------------------------------------------------------
  // Lookups agree with the seats.
  // ------------------------------------------------------------------------

  lemma FindExact(c: Catalog, p: Catalogs.Participant, v: Catalogs.Publication)
    requires c.Some? && CatalogOk(c) && p in c.value.participants && v in p.publications
    ensures Find(c, v.key) == Some(v)
    ensures v.key.participant == p.key && p.key.generation == c.value.generation
  {
    var ps := c.value.participants;
    var n :| 0 <= n < |ps| && ps[n] == p;
    assert Catalogs.ParticipantOk(c.value.generation, ps[n]);
    var k :| 0 <= k < |p.publications| && p.publications[k] == v;
    forall j | 0 <= j < n ensures ps[j].key != p.key {
      assert Catalogs.Separate(ps[j].key, ps[n].key);
    }
    assert Catalogs.IndexOf(ps, p.key) == n;
    assert Catalogs.TrackIndexOf(p.publications, v.key) == k;
  }

  lemma FoundInCatalog(c: Catalog, key: TrackKey) returns (p: Catalogs.Participant)
    requires Find(c, key).Some?
    ensures c.Some? && p in c.value.participants && Find(c, key).value in p.publications
  {
    var ps := c.value.participants;
    p := ps[Catalogs.IndexOf(ps, key.participant)];
  }

  /** Seat keys are distinct, and a seat's publication is the one its key finds. */
  lemma SeatsFind(c: Catalog)
    requires CatalogOk(c)
    ensures DistinctSeats(OrderedSeats(c))
    ensures forall s :: s in OrderedSeats(c) ==>
      && s.key.participant.generation == c.value.generation
      && (s.publication.Some? ==> Find(c, s.key) == s.publication && s == SeatOf(s.publication.value)
                                  && s.publication.value.state.kind == Video)
      && (s.publication.None? ==> s == Placeholder(s.key.participant))
  {
    if c.Some? {
      var ps := c.value.participants;
      AllSeats(c.value.generation, ps);
      hide SeatsOfParticipants;
      forall s | s in OrderedSeats(c)
        ensures s.key.participant.generation == c.value.generation
        ensures s.publication.Some? ==> Find(c, s.key) == s.publication && s == SeatOf(s.publication.value)
                                        && s.publication.value.state.kind == Video
        ensures s.publication.None? ==> s == Placeholder(s.key.participant)
      {
        var p :| p in ps && SeatFor(p, s);
        if s.publication.Some? {
          FindExact(c, p, s.publication.value);
        } else {
          var n :| 0 <= n < |ps| && ps[n] == p;
          assert Catalogs.ParticipantOk(c.value.generation, ps[n]);
        }
      }
    }
  }

  lemma {:induction false} SeatIndexFinds(seats: seq<Candidate>, i: nat)
    requires i < |seats| && DistinctSeats(seats)
    ensures SeatIndex(seats, seats[i].key) == i
  {
    assert forall j :: 0 <= j < i ==> seats[j].key != seats[i].key;
  }

  /** Every video the catalog knows has a seat, and that seat carries it. */
  lemma TrackHasSeat(c: Catalog, key: TrackKey)
    requires CatalogOk(c) && Find(c, key).Some? && Find(c, key).value.state.kind == Video
    ensures var i := SeatIndex(OrderedSeats(c), key);
      i < |OrderedSeats(c)| && OrderedSeats(c)[i] == SeatOf(Find(c, key).value)
  {
    var p := FoundInCatalog(c, key);
    var v := Find(c, key).value;
    AllSeats(c.value.generation, c.value.participants);
    var seats := OrderedSeats(c);
    assert SeatOf(v) in seats;
    var i :| 0 <= i < |seats| && seats[i] == SeatOf(v);
    SeatIndexFinds(seats, i);
  }

  lemma ResolvedHasSeat(c: Catalog, key: TrackKey)
    requires CatalogOk(c) && ResolveSeat(c, Some(key)).Some?
    ensures SeatIndex(OrderedSeats(c), key) < |OrderedSeats(c)|
  {
    if key.sid != "" {
      TrackHasSeat(c, key);
    }
  }

  lemma SeatResolves(c: Catalog, s: Candidate)
    requires CatalogOk(c) && s in OrderedSeats(c)
    ensures ResolveSeat(c, Some(s.key)) == Some(s.key)
  {
    SeatsFind(c);
    var seats := OrderedSeats(c);
    var i :| 0 <= i < |seats| && seats[i] == s;
    SeatIndexFinds(seats, i);
  }

  lemma {:induction false} FirstCameraResolves(c: Catalog, who: ParticipantKey, seats: seq<Candidate>)
    requires CatalogOk(c) && forall s :: s in seats ==> s in OrderedSeats(c)
    ensures var r := FirstCamera(who, seats); r.Some? ==> ResolveTrack(c, r, Some(Camera)) == r
  {
    if seats != [] {
      if CameraOf(who, seats[0]) {
        SeatsFind(c);
        assert seats[0] in OrderedSeats(c);
      } else {
        FirstCameraResolves(c, who, seats[1..]);
      }
    }
  }

  lemma {:induction false} SpeakerCameraResolves(c: Catalog, speakers: seq<Speaker>)
    requires CatalogOk(c)
    ensures var r := SpeakerCamera(c, speakers); r.Some? ==> ResolveTrack(c, r, Some(Camera)) == r
  {
    if speakers != [] {
      FirstCameraResolves(c, speakers[0].key, OrderedSeats(c));
      SpeakerCameraResolves(c, speakers[1..]);
    }
  }

  lemma {:induction false} FirstShareIsShare(c: Catalog, seats: seq<Candidate>)
    requires CatalogOk(c) && forall s :: s in seats ==> s in OrderedSeats(c)
    ensures var r := FirstShare(seats); r.Some? ==> IsAutoShare(c, r.value)
  {
    if seats != [] {
      SeatsFind(c);
      assert seats[0] in OrderedSeats(c);
      FirstShareIsShare(c, seats[1..]);
    }
  }
}
