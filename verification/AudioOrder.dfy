/**
 The audio a plan selects: every allowed audio publication of the catalog, once,
 in the order of the catalog (src/core/video_demand_policy.cpp:287-302).
 */
module AudioOrder {
  import opened Common
  import opened ParticipantEvents
  import opened DemandPolicy
  import opened DemandSeats
  import opened DemandMeaning
  import Catalogs

  function IsAllowedAudio(v: Catalogs.Publication): bool { v.state.kind == Audio && v.state.subscriptionAllowed }

  /** Publication x of participant m has this key and is allowed audio. */
  predicate AudioAt(ps: seq<Catalogs.Participant>, m: nat, x: nat, key: TrackKey)
  {
    && m < |ps| && x < |ps[m].publications|
    && ps[m].publications[x].key == key && IsAllowedAudio(ps[m].publications[x])
  }

  predicate Earlier(m: nat, x: nat, n: nat, y: nat) { m < n || (m == n && x < y) }

  /** Only such publications before this place, and all of them. */
  ghost predicate ListsUpTo(ps: seq<Catalogs.Participant>, n: nat, k: nat, keys: seq<TrackKey>)
  {
    && (forall key :: key in keys ==> ListedBefore(ps, n, k, key))
    && (forall m: nat, x: nat, key :: AudioAt(ps, m, x, key) && Earlier(m, x, n, k) ==> key in keys)
  }

  ghost predicate ListedBefore(ps: seq<Catalogs.Participant>, n: nat, k: nat, key: TrackKey)
  {
    exists m: nat, x: nat :: AudioAt(ps, m, x, key) && Earlier(m, x, n, k)
  }

  /** Keys come in the order of their places. */
  ghost predicate InPlaceOrder(ps: seq<Catalogs.Participant>, keys: seq<TrackKey>)
  {
    forall i, j, m: nat, x: nat, n: nat, y: nat ::
      0 <= i < j < |keys| && AudioAt(ps, m, x, keys[i]) && AudioAt(ps, n, y, keys[j]) ==> Earlier(m, x, n, y)
  }

  lemma OnlyPlace(generation: nat, ps: seq<Catalogs.Participant>, m: nat, x: nat, n: nat, y: nat, key: TrackKey)
    requires Catalogs.ParticipantsOk(generation, ps) && AudioAt(ps, m, x, key) && AudioAt(ps, n, y, key)
    ensures m == n && x == y
  {
    assert Catalogs.ParticipantOk(generation, ps[m]) && Catalogs.ParticipantOk(generation, ps[n]);
    OnePlace(generation, ps, m, n);
  }

  lemma Extends(generation: nat, ps: seq<Catalogs.Participant>, n: nat, k: nat, keys: seq<TrackKey>, key: TrackKey)
    requires Catalogs.ParticipantsOk(generation, ps) && ListsUpTo(ps, n, k, keys) && InPlaceOrder(ps, keys)
    requires AudioAt(ps, n, k, key)
    ensures key !in keys
    ensures ListsUpTo(ps, n, k + 1, keys + [key]) && InPlaceOrder(ps, keys + [key])
  {
    hide Catalogs.ParticipantsOk, AudioAt;
    forall m: nat, x: nat, n': nat, y: nat, other
      | AudioAt(ps, m, x, other) && AudioAt(ps, n', y, other) ensures m == n' && x == y
    {
      OnlyPlace(generation, ps, m, x, n', y, other);
    }
    assert !ListedBefore(ps, n, k, key);
    ListsOneMore(ps, n, k, keys, key);
    OrderOneMore(ps, n, k, keys, key);
  }

  lemma ListsOneMore(ps: seq<Catalogs.Participant>, n: nat, k: nat, keys: seq<TrackKey>, key: TrackKey)
    requires ListsUpTo(ps, n, k, keys) && AudioAt(ps, n, k, key)
    ensures ListsUpTo(ps, n, k + 1, keys + [key])
  {
    forall other | other in keys + [key] ensures ListedBefore(ps, n, k + 1, other) {
      if other in keys {
        var m: nat, x: nat :| AudioAt(ps, m, x, other) && Earlier(m, x, n, k);
      }
    }
  }

  lemma OrderOneMore(ps: seq<Catalogs.Participant>, n: nat, k: nat, keys: seq<TrackKey>, key: TrackKey)
    requires ListsUpTo(ps, n, k, keys) && InPlaceOrder(ps, keys) && AudioAt(ps, n, k, key)
    requires forall m: nat, x: nat, n': nat, y: nat, other ::
      AudioAt(ps, m, x, other) && AudioAt(ps, n', y, other) ==> m == n' && x == y
    ensures InPlaceOrder(ps, keys + [key])
  {
    hide AudioAt;
    var more := keys + [key];
    forall i, j, m: nat, x: nat, n': nat, y: nat
      | 0 <= i < j < |more| && AudioAt(ps, m, x, more[i]) && AudioAt(ps, n', y, more[j])
      ensures Earlier(m, x, n', y)
    {
      assert more[i] == keys[i] && ListedBefore(ps, n, k, keys[i]);
      if j == |keys| {
        assert n' == n && y == k;
      }
    }
  }

  lemma Skips(ps: seq<Catalogs.Participant>, n: nat, k: nat, keys: seq<TrackKey>)
    requires ListsUpTo(ps, n, k, keys) && forall key :: !AudioAt(ps, n, k, key)
    ensures ListsUpTo(ps, n, k + 1, keys)
  {
    hide AudioAt;
    forall key | key in keys ensures ListedBefore(ps, n, k + 1, key) {
      var m: nat, x: nat :| AudioAt(ps, m, x, key) && Earlier(m, x, n, k);
    }
  }

  /** The end of one participant is the beginning of the next. */
  lemma NextParticipant(ps: seq<Catalogs.Participant>, n: nat, keys: seq<TrackKey>)
    requires n < |ps| && ListsUpTo(ps, n, |ps[n].publications|, keys)
    ensures ListsUpTo(ps, n + 1, 0, keys)
  {
    forall key | key in keys ensures ListedBefore(ps, n + 1, 0, key) {
      var m: nat, x: nat :| AudioAt(ps, m, x, key) && Earlier(m, x, n, |ps[n].publications|);
    }
  }

  lemma {:induction false} AudioLists(generation: nat, ps: seq<Catalogs.Participant>, n: nat, k: nat)
    requires Catalogs.ParticipantsOk(generation, ps) && n < |ps| && k <= |ps[n].publications|
    ensures var keys := AudioOf(generation, ps[n].publications[..k], AudioOfParticipants(generation, ps[..n]));
      ListsUpTo(ps, n, k, keys) && InPlaceOrder(ps, keys)
    decreases n, k
  {
    var pubs := ps[n].publications;
    if k > 0 {
      AudioLists(generation, ps, n, k - 1);
      var before := AudioOf(generation, pubs[..k - 1], AudioOfParticipants(generation, ps[..n]));
      assert pubs[..k][..k - 1] == pubs[..k - 1];
      assert Catalogs.ParticipantOk(generation, ps[n]);
      var v := pubs[k - 1];
      if IsAllowedAudio(v) {
        assert AudioAt(ps, n, k - 1, v.key);
        Extends(generation, ps, n, k - 1, before, v.key);
      } else {
        Skips(ps, n, k - 1, before);
      }
      hide ListsUpTo, InPlaceOrder, Catalogs.ParticipantsOk;
    } else if n > 0 {
      var last := ps[n - 1];
      AudioLists(generation, ps, n - 1, |last.publications|);
      var keys := AudioOfParticipants(generation, ps[..n]);
      assert ps[..n][..n - 1] == ps[..n - 1] && ps[..n][n - 1] == last && last.publications[..|last.publications|] == last.publications;
      NextParticipant(ps, n - 1, keys);
    } else {
      assert ps[..0] == [];
    }
  }

  /** Listed are exactly the keys of allowed audio publications, each once and in the order of the catalog. */
  ghost predicate AllAudio(c: Catalog, keys: seq<TrackKey>)
  {
    && (forall key :: key in keys <==> Names(c, key, IsAllowedAudio))
    && Distinct(keys)
    && (c.Some? ==> InPlaceOrder(c.value.participants, keys))
  }

  lemma AudioMeans(c: Catalog)
    requires CatalogOk(c)
    ensures AllAudio(c, SelectedAudio(c))
  {
    if c.Some? && c.value.participants != [] {
      var ps, n := c.value.participants, |c.value.participants| - 1;
      AudioLists(c.value.generation, ps, n, |ps[n].publications|);
      assert ps[n].publications[..|ps[n].publications|] == ps[n].publications;
      var keys := SelectedAudio(c);
      NextParticipant(ps, n, keys);
      hide SelectedAudio;
      ListsAll(c, keys);
    }
  }

  lemma NothingToList(c: Catalog)
    requires c.None?
    ensures AllAudio(c, [])
  {
  }

  lemma ListsAll(c: Catalog, keys: seq<TrackKey>)
    requires c.Some? && CatalogOk(c) && ListsUpTo(c.value.participants, |c.value.participants|, 0, keys)
    requires InPlaceOrder(c.value.participants, keys)
    ensures AllAudio(c, keys)
  {
    var ps := c.value.participants;
    hide CatalogOk;
    forall key ensures key in keys <==> Names(c, key, IsAllowedAudio) {
      if key in keys {
        var m: nat, x: nat :| AudioAt(ps, m, x, key) && Earlier(m, x, |ps|, 0);
        assert Published(c, ps[m].publications[x]);
      }
      if Names(c, key, IsAllowedAudio) {
        var m, x := PlaceOf(c, key);
        assert AudioAt(ps, m, x, key) && Earlier(m, x, |ps|, 0);
      }
    }
    forall i, j | 0 <= i < j < |keys| ensures keys[i] != keys[j] {
      assert keys[i] in keys && keys[j] in keys;
      var m: nat, x: nat :| AudioAt(ps, m, x, keys[i]) && Earlier(m, x, |ps|, 0);
      NoTwoThere(ps, keys, i, j, m, x);
    }
  }

  lemma NoTwoThere(ps: seq<Catalogs.Participant>, keys: seq<TrackKey>, i: nat, j: nat, m: nat, x: nat)
    requires InPlaceOrder(ps, keys) && i < j < |keys| && AudioAt(ps, m, x, keys[i])
    ensures !AudioAt(ps, m, x, keys[j])
  {
    hide AudioAt;
    assert !Earlier(m, x, m, x);
  }

  lemma PlaceOf(c: Catalog, key: TrackKey) returns (m: nat, x: nat)
    requires c.Some? && Names(c, key, IsAllowedAudio)
    ensures AudioAt(c.value.participants, m, x, key)
  {
    var v :| Published(c, v) && v.key == key && IsAllowedAudio(v);
    var p :| p in c.value.participants && v in p.publications;
    m :| m < |c.value.participants| && c.value.participants[m] == p;
    x :| x < |p.publications| && p.publications[x] == v;
  }

  lemma NamedAtPlace(c: Catalog, key: TrackKey)
    ensures Names(c, key, IsAllowedAudio) <==> c.Some? && exists m: nat, x: nat :: AudioAt(c.value.participants, m, x, key)
  {
    if Names(c, key, IsAllowedAudio) {
      var m, x := PlaceOf(c, key);
    }
    if c.Some? && exists m: nat, x: nat :: AudioAt(c.value.participants, m, x, key) {
      var m: nat, x: nat :| AudioAt(c.value.participants, m, x, key);
      assert Published(c, c.value.participants[m].publications[x]);
    }
  }

  /** Renewed tickets do not change what is listed. */
  lemma ListedAlike(a: Catalogs.Snapshot, b: Catalogs.Snapshot, keys: seq<TrackKey>)
    requires Catalogs.SameBut(a, b) && AllAudio(Some(a), keys)
    ensures AllAudio(Some(b), keys)
  {
    forall m: nat, x: nat, key ensures AudioAt(a.participants, m, x, key) <==> AudioAt(b.participants, m, x, key) {
      if m < |a.participants| {
        assert Catalogs.SameParticipant(a.participants[m], b.participants[m]);
        if x < |a.participants[m].publications| {
          assert Catalogs.SamePublication(a.participants[m].publications[x], b.participants[m].publications[x]);
        }
      }
    }
    hide AudioAt, Catalogs.SameBut, Names;
    forall key ensures key in keys <==> Names(Some(b), key, IsAllowedAudio) {
      NamedAtPlace(Some(a), key);
      NamedAtPlace(Some(b), key);
    }
  }

  lemma NothingListed(c: Catalog, s: Catalogs.Snapshot, keys: seq<TrackKey>)
    requires c.None? && s.participants == [] && AllAudio(c, keys)
    ensures AllAudio(Some(s), keys)
  {
    assert forall key :: !Names(Some(s), key, IsAllowedAudio);
  }
}
