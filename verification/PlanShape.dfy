/**
 What every plan the policy builds promises about its seats and its selections
 (src/core/video_demand_policy.cpp:249-282, 538-672).
 */
module PlanShape {
  import opened Common
  import opened ParticipantEvents
  import opened DemandTypes
  import opened DemandPolicy
  import opened DemandSeats
  import opened AudioOrder
  import Catalogs
  import Paging
  import WakeUp

  /** A seat that really shows a video: allowed, not muted and of some size. */
  predicate ShowsVideo(c: Catalog, s: Seat)
  {
    var found := Find(c, s.key);
    found.Some? && Demandable(found.value) && s.width != 0 && s.height != 0
  }

  /** The keys of the seats that show a video, in seat order. */
  function Shown(c: Catalog, seats: seq<Seat>): seq<TrackKey>
  {
    if seats == [] then []
    else
      var rest := Shown(c, seats[..|seats| - 1]);
      if ShowsVideo(c, seats[|seats| - 1]) then rest + [seats[|seats| - 1].key] else rest
  }

  ghost predicate SeatedOnce(seats: seq<Seat>)
  {
    forall i, j :: 0 <= i < j < |seats| ==> seats[i].key != seats[j].key
  }

  ghost function KeysOf(seats: seq<Seat>): set<TrackKey> { set s | s in seats :: s.key }

  ghost function CandidateKeysOf(seats: seq<Candidate>): set<TrackKey> { set s | s in seats :: s.key }

  /** No seat twice, no more seats than the budget, and exactly the seats that show a video are selected. */
  ghost predicate SeatsOk(c: Catalog, budget: nat, plan: Plan)
  {
    && |plan.seats| <= budget
    && SeatedOnce(plan.seats)
    && plan.selectedVideo == Shown(c, plan.seats)
  }

  /** The focused seat comes first. */
  predicate FocusFirst(budget: nat, plan: Plan)
  {
    plan.focused.Some? && budget >= 1 ==> plan.seats != [] && plan.seats[0].key == plan.focused.value
  }

  ghost predicate PlanOk(c: Catalog, budget: nat, plan: Plan)
  {
    SeatsOk(c, budget, plan) && AllAudio(c, plan.selectedAudio) && FocusFirst(budget, plan)
  }

  // ------------------------------------------------------------------------
  // Selected keys are seat keys.
  // ------------------------------------------------------------------------

  lemma {:induction false} ShownKeys(c: Catalog, seats: seq<Seat>)
    ensures |Shown(c, seats)| <= |seats|
    ensures forall k :: k in Shown(c, seats) <==> exists i :: 0 <= i < |seats| && seats[i].key == k && ShowsVideo(c, seats[i])
  {
    if seats != [] {
      var n := |seats| - 1;
      ShownKeys(c, seats[..n]);
      hide ShowsVideo;
      forall k | k in Shown(c, seats[..n])
        ensures exists i :: 0 <= i < |seats| && seats[i].key == k && ShowsVideo(c, seats[i])
      {
        var i :| 0 <= i < n && seats[..n][i].key == k && ShowsVideo(c, seats[..n][i]);
        assert seats[i].key == k && ShowsVideo(c, seats[i]);
      }
    }
  }

  lemma {:induction false} ShownDistinct(c: Catalog, seats: seq<Seat>)
    requires SeatedOnce(seats)
    ensures Distinct(Shown(c, seats))
  {
    if seats != [] {
      var n := |seats| - 1;
      ShownDistinct(c, seats[..n]);
      ShownKeys(c, seats[..n]);
      var rest := Shown(c, seats[..n]);
      forall i | 0 <= i < |rest| ensures rest[i] != seats[n].key {
        assert rest[i] in rest;
        var j :| 0 <= j < n && seats[..n][j].key == rest[i];
        assert seats[j].key == rest[i];
      }
    }
  }

  // ------------------------------------------------------------------------
  // Adding seats.
  // ------------------------------------------------------------------------

  lemma OneMoreSeat(c: Catalog, seats: seq<Seat>, s: Seat)
    requires SeatedOnce(seats) && s.key !in KeysOf(seats)
    ensures SeatedOnce(seats + [s]) && KeysOf(seats + [s]) == KeysOf(seats) + {s.key}
    ensures Shown(c, seats + [s]) == Shown(c, seats) + if ShowsVideo(c, s) then [s.key] else []
    ensures s.key !in Shown(c, seats) && |Shown(c, seats)| <= |seats|
  {
    hide ShowsVideo;
    ShownKeys(c, seats);
    assert (seats + [s])[..|seats|] == seats;
    assert forall i :: 0 <= i < |seats| ==> seats[i].key in KeysOf(seats);
  }

  lemma SeatShows(c: Catalog, s: Candidate, role: SeatRole, extent: Extent, origin: Origin)
    requires CatalogOk(c) && s in OrderedSeats(c)
    ensures var seat := MakeSeat(s, role, extent, origin);
      && seat.key == s.key
      && (s.publication.Some? ==> s.publication.value.key == s.key)
      && (ShowsVideo(c, seat) <==>
            s.publication.Some? && Demandable(s.publication.value) && seat.width != 0 && seat.height != 0)
  {
    SeatsFind(c);
    hide CatalogOk, OrderedSeats, Find, ReasonForFocus, PriorityFor, QualityFor;
  }

  lemma AddSeatOk(c: Catalog, budget: nat, plan: Plan, s: Candidate, role: SeatRole, extent: Extent, origin: Origin)
    requires CatalogOk(c) && s in OrderedSeats(c)
    requires SeatsOk(c, budget, plan) && s.key !in KeysOf(plan.seats)
    ensures var r := AddSeat(budget, plan, s, role, extent, origin);
      && SeatsOk(c, budget, r) && plan.seats <= r.seats
      && KeysOf(r.seats) <= KeysOf(plan.seats) + {s.key}
      && (|plan.seats| < budget ==> r.seats == plan.seats + [MakeSeat(s, role, extent, origin)])
      && r == plan.(seats := r.seats, selectedVideo := r.selectedVideo)
  {
    hide CatalogOk, OrderedSeats, MakeSeat, ShowsVideo, Demandable, KeysOf, SeatedOnce, Shown;
    SeatShows(c, s, role, extent, origin);
    OneMoreSeat(c, plan.seats, MakeSeat(s, role, extent, origin));
  }

  lemma {:induction false} AddSeatsOk(c: Catalog, budget: nat, plan: Plan, window: seq<Candidate>, role: SeatRole,
                                      extent: Extent)
    requires CatalogOk(c) && DistinctSeats(window) && forall s :: s in window ==> s in OrderedSeats(c)
    requires SeatsOk(c, budget, plan) && KeysOf(plan.seats) !! CandidateKeysOf(window)
    ensures var r := AddSeats(budget, plan, window, role, extent);
      && SeatsOk(c, budget, r) && plan.seats <= r.seats
      && KeysOf(r.seats) <= KeysOf(plan.seats) + CandidateKeysOf(window)
  {
    if window != [] {
      var n := |window| - 1;
      assert window == window[..n] + [window[n]];
      assert CandidateKeysOf(window) == CandidateKeysOf(window[..n]) + {window[n].key};
      hide AddSeat, SeatsOk, CatalogOk, OrderedSeats;
      AddSeatsOk(c, budget, plan, window[..n], role, extent);
      AddSeatOk(c, budget, AddSeats(budget, plan, window[..n], role, extent), window[n], role, extent, NoOrigin);
    }
  }

  /** A window of distinct seats is distinct and keeps its keys. */
  lemma WindowOk(seats: seq<Candidate>, from: int, to: int, window: seq<Candidate>)
    requires DistinctSeats(seats)
    requires window == if 0 <= from <= to <= |seats| then seats[from..to] else []
    ensures DistinctSeats(window)
    ensures forall s :: s in window ==> s in seats
    ensures CandidateKeysOf(window) <= CandidateKeysOf(seats)
  {
  }

  // ------------------------------------------------------------------------
  // The builders.
  // ------------------------------------------------------------------------

  predicate Blank(plan: Plan) { plan.seats == [] && plan.selectedVideo == [] && plan.focused.None? }

  lemma GridOk(p: Policy, plan: Plan, size: nat, paging: bool)
    requires CatalogOk(p.catalog) && Blank(plan) && size > 0
    ensures var (_, built) := BuildGrid(p, plan, OrderedSeats(p.catalog), size, paging);
      SeatsOk(p.catalog, p.config.videoBudget, built) && built.focused.None?
      && built.selectedAudio == plan.selectedAudio
  {
    hide OrderedSeats, CatalogOk, CeilDiv, Paged, GridExtent, AddSeats, DistinctSeats, Find, CandidateKeysOf;
    var seats, c := OrderedSeats(p.catalog), p.catalog;
    SeatsFind(c);
    var count := if paging then CeilDiv(|seats|, size) else 1;
    var shown := if paging then Min(p.viewport.page, count - 1) else 0;
    var (grid, start) := if paging then Paged(p.grid, seats, p.viewport.page, size, shown, shown * size) else (p.grid, 0);
    var limit := Min(|seats|, start + Min(size, p.config.videoBudget));
    var window := if start <= limit then seats[start..limit] else [];
    WindowOk(seats, start, limit, window);
    var sized := plan.(pageSize := size, pageCount := count, page := shown);
    assert SeatsOk(c, p.config.videoBudget, sized);
    hide SeatsOk;
    AddSeatsOk(c, p.config.videoBudget, sized, window, GridSeat, GridExtent(p.viewport.stage, size));
    Paging.AddSeatsFrame(p.config.videoBudget, sized, window, GridSeat, GridExtent(p.viewport.stage, size));
  }

  /** The main seat alone. */
  lemma MainOk(c: Catalog, budget: nat, plan: Plan, main: Candidate, extent: Extent, origin: Origin)
    requires CatalogOk(c) && main in OrderedSeats(c)
    requires plan.seats == [] && plan.selectedVideo == []
    ensures var r := AddSeat(budget, plan, main, MainSeat, extent, origin);
      && SeatsOk(c, budget, r) && KeysOf(r.seats) <= {main.key}
      && (budget >= 1 ==> r.seats != [] && r.seats[0].key == main.key)
      && r == plan.(seats := r.seats, selectedVideo := r.selectedVideo)
  {
    hide CatalogOk, OrderedSeats, ReasonForFocus, PriorityFor, QualityFor;
    AddSeatOk(c, budget, plan, main, MainSeat, extent, origin);
  }

  lemma PipOk(p: Policy, plan: Plan, main: Candidate, other: seq<Candidate>, origin: Origin)
    requires CatalogOk(p.catalog) && main in OrderedSeats(p.catalog)
    requires DistinctSeats(other) && forall s :: s in other ==> s in OrderedSeats(p.catalog) && s.key != main.key
    requires plan.seats == [] && plan.selectedVideo == []
    ensures var built := BuildPip(p, plan, main, other, origin);
      && SeatsOk(p.catalog, p.config.videoBudget, built)
      && (p.config.videoBudget >= 1 ==> built.seats != [] && built.seats[0].key == main.key)
      && built.focused == plan.focused && built.selectedAudio == plan.selectedAudio
  {
    hide CatalogOk, OrderedSeats, MainExtent, PipExtent, AddSeat, MakeSeat, SeatedOnce, Shown, KeysOf,
         DistinctSeats;
    var budget, stage, c := p.config.videoBudget, p.viewport.stage, p.catalog;
    MainOk(c, budget, plan, main, MainExtent(stage, false), origin);
    var first := AddSeat(budget, plan, main, MainSeat, MainExtent(stage, false), origin);
    if other != [] && budget > 1 {
      assert other[0] in other;
      AddSeatOk(c, budget, first, other[0], PipSeat, PipExtent(stage), NoOrigin);
    }
  }

  /** The main seat and then a window of the others, wherever the window starts. */
  lemma MainAndWindowOk(c: Catalog, budget: nat, plan: Plan, main: Candidate, other: seq<Candidate>, big: Extent,
                        small: Extent, origin: Origin, start: nat, side: nat)
    requires CatalogOk(c) && main in OrderedSeats(c) && plan.seats == [] && plan.selectedVideo == []
    requires DistinctSeats(other) && forall s :: s in other ==> s in OrderedSeats(c) && s.key != main.key
    ensures var window := if start + side <= |other| then other[start..start + side] else [];
      var built := AddSeats(budget, AddSeat(budget, plan, main, MainSeat, big, origin), window, SidebarSeat, small);
      && SeatsOk(c, budget, built) && (budget >= 1 ==> built.seats != [] && built.seats[0].key == main.key)
      && built.focused == plan.focused && built.selectedAudio == plan.selectedAudio
  {
    hide CatalogOk, OrderedSeats, AddSeat, AddSeats, SeatsOk, DistinctSeats;
    MainOk(c, budget, plan, main, big, origin);
    var first := AddSeat(budget, plan, main, MainSeat, big, origin);
    var window := if start + side <= |other| then other[start..start + side] else [];
    WindowOk(other, start, start + side, window);
    assert KeysOf(first.seats) !! CandidateKeysOf(window);
    AddSeatsOk(c, budget, first, window, SidebarSeat, small);
    Paging.AddSeatsFrame(budget, first, window, SidebarSeat, small);
  }

  lemma SidebarOk(p: Policy, plan: Plan, main: Candidate, other: seq<Candidate>, origin: Origin)
    requires CatalogOk(p.catalog) && main in OrderedSeats(p.catalog)
    requires DistinctSeats(other) && forall s :: s in other ==> s in OrderedSeats(p.catalog) && s.key != main.key
    requires plan.seats == [] && plan.selectedVideo == []
    ensures var built := BuildSidebar(p, plan, main, other, origin).1;
      && SeatsOk(p.catalog, p.config.videoBudget, built)
      && (p.config.videoBudget >= 1 ==> built.seats != [] && built.seats[0].key == main.key)
      && built.focused == plan.focused && built.selectedAudio == plan.selectedAudio
  {
    hide CatalogOk, OrderedSeats, MainExtent, SidebarExtent, Paged, CeilDiv, AddSeat, AddSeats, SeatsOk, DistinctSeats,
         SideLimit;
    var limit, stage := SideLimit(p.config), p.viewport.stage;
    var count := CeilDiv(|other|, if limit == 0 then 1 else limit);
    var shown := Min(p.viewport.page, count - 1);
    var start := Paged(p.sidebar, other, p.viewport.page, limit, shown, shown * limit).1;
    var side := Min(limit, if start < |other| then |other| - start else 0);
    MainAndWindowOk(p.catalog, p.config.videoBudget, plan.(pageSize := limit, pageCount := count, page := shown), main,
                    other, MainExtent(stage, side != 0), SidebarExtent(stage, side), origin, start, side);
  }

  /** Whatever is chosen as focus has a seat. */
  lemma FocusHasSeat(p: Policy, allowShare: bool, now: int)
    requires CatalogOk(p.catalog)
    ensures var f, seats := FocusFor(p, OrderedSeats(p.catalog), allowShare, now), OrderedSeats(p.catalog);
      f.key.Some? ==> SeatIndex(seats, f.key.value) < |seats|
  {
    hide OrderedSeats, SeatIndex, CatalogOk, Find;
    var c, seats := p.catalog, OrderedSeats(p.catalog);
    var f := FocusFor(p, seats, allowShare, now);
    if f.key.Some? {
      var key := f.key.value;
      if ResolveSeat(c, f.key).Some? {
        ResolvedHasSeat(c, key);
      } else if Find(c, key).Some? && Find(c, key).value.state.kind == Video {
        TrackHasSeat(c, key);
      } else {
        assert seats != [] && key == seats[0].key;
        SeatsFind(c);
        SeatIndexFinds(seats, 0);
      }
    }
  }

  lemma NoSeatsOk(c: Catalog, budget: nat, plan: Plan)
    requires Blank(plan)
    ensures SeatsOk(c, budget, plan)
  {
  }

  lemma FocusedOk(p: Policy, plan: Plan, mode: LayoutMode, allowShare: bool, now: int)
    requires CatalogOk(p.catalog) && Blank(plan)
    ensures var built := BuildFocused(p, plan, OrderedSeats(p.catalog), mode, allowShare, now).1;
      && SeatsOk(p.catalog, p.config.videoBudget, built) && FocusFirst(p.config.videoBudget, built)
      && built.selectedAudio == plan.selectedAudio
  {
    hide OrderedSeats, SeatIndex, CatalogOk, FocusFor, BuildPip, BuildSidebar, ReasonForFocus, Without, Find, SeatedOnce,
         Shown, DistinctSeats;
    var c, seats := p.catalog, OrderedSeats(p.catalog);
    NoSeatsOk(c, p.config.videoBudget, plan);
    FocusHasSeat(p, allowShare, now);
    SeatsFind(c);
    var focus := FocusFor(p, seats, allowShare, now);
    if focus.key.Some? {
      var main := seats[SeatIndex(seats, focus.key.value)];
      WakeUp.WithoutDistinct(seats, main.key);
      var draft := plan.(mode := mode, focused := focus.key);
      PipOk(p, draft, main, Without(seats, main.key), focus.origin);
      SidebarOk(p, draft, main, Without(seats, main.key), focus.origin);
    }
  }

  lemma LayOk(p: Policy, plan: Plan, now: int)
    requires CatalogOk(p.catalog) && Blank(plan)
    ensures var built := Lay(p, plan, now).1;
      && SeatsOk(p.catalog, p.config.videoBudget, built) && FocusFirst(p.config.videoBudget, built)
      && built.selectedAudio == plan.selectedAudio
  {
    hide OrderedSeats, CatalogOk, BuildGrid, BuildFocused, LayoutOf, SeatsOk;
    match LayoutOf(p)
    case FocusedLayout(mode, allowShare) => FocusedOk(p, plan, mode, allowShare, now);
    case SmallGrid => GridOk(p, plan.(mode := Auto), 2, false);
    case PagedGrid(mode) =>
      GridOk(p, plan.(mode := mode), NormalizePageSize(p.viewport.pageSize, p.config.defaultPageSize), true);
  }

  // ------------------------------------------------------------------------
  // The whole plan.
  // ------------------------------------------------------------------------

  /** Every plan built over a catalog that keeps its invariant is in order. */
  lemma BuildOk(p: Policy, now: int)
    requires CatalogOk(p.catalog)
    ensures PlanOk(p.catalog, p.config.videoBudget, BuildPlan(p, now).1)
  {
    hide Lay, CatalogOk, SelectedAudio, Advance, RefreshShare, Find, AllAudio;
    AudioMeans(p.catalog);
    if p.catalog.Some? {
      var p' := Advanced(p, now);
      LayOk(p', WakeUp.Header(p, ResolveTrack(p.catalog, p'.speech.stable, Some(Camera))), now);
    } else {
      NothingToList(p.catalog);
    }
  }
}
