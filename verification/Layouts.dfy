/**
 Which seats a layout shows, in which roles and sizes: the grid window, the main
 seat with its sidebar window, the main seat with one inset
 (src/core/video_demand_policy.cpp:439-747).
 */
module Layouts {
  import opened Common
  import opened ParticipantEvents
  import opened DemandTypes
  import opened DemandPolicy
  import opened DemandSeats
  import Catalogs
  import Paging
  import WakeUp

  // ------------------------------------------------------------------------
  // Windows.
  // ------------------------------------------------------------------------

  /** The seats made for a row of candidates. */
  function Made(seats: seq<Candidate>, role: SeatRole, extent: Extent): (made: seq<Seat>)
    ensures |made| == |seats|
    ensures forall i :: 0 <= i < |seats| ==> made[i] == MakeSeat(seats[i], role, extent, NoOrigin)
  {
    if seats == [] then []
    else Made(seats[..|seats| - 1], role, extent) + [MakeSeat(seats[|seats| - 1], role, extent, NoOrigin)]
  }

  lemma {:induction false} AddSeatsMakes(budget: nat, plan: Plan, seats: seq<Candidate>, role: SeatRole, extent: Extent)
    requires |plan.seats| + |seats| <= budget
    ensures AddSeats(budget, plan, seats, role, extent).seats == plan.seats + Made(seats, role, extent)
  {
    hide MakeSeat;
    if seats != [] {
      AddSeatsMakes(budget, plan, seats[..|seats| - 1], role, extent);
    }
  }

  /** The anchor is remembered for this very page, and somebody sits at it. */
  predicate AnchorHolds(ps: PageState, seats: seq<Candidate>, page: nat, size: nat, shown: nat)
  {
    && ps.requested == page && ps.size == size && shown == page
    && ps.anchor.Some? && exists i :: 0 <= i < |seats| && seats[i].key == ps.anchor.value
  }

  /** A page starts at its anchor, and where that does not hold at its number. */
  ghost predicate PageStartsAt(ps: PageState, seats: seq<Candidate>, page: nat, size: nat, shown: nat, start: nat)
  {
    if AnchorHolds(ps, seats, page, size, shown) then start < |seats| && seats[start].key == ps.anchor.value
    else start == shown * size
  }

  lemma PagedMeans(ps: PageState, seats: seq<Candidate>, page: nat, size: nat, shown: nat)
    ensures var (next, start) := Paged(ps, seats, page, size, shown, Paging.PageStart(shown, size));
      && PageStartsAt(ps, seats, page, size, shown, start)
      && next == PageState(page, size, if start < |seats| then Some(seats[start].key) else None)
  {
    hide SeatIndex;
  }

  /** The seats of the first pages, one page after the other. */
  function Turned(seats: seq<Candidate>, size: nat, pages: nat): seq<Candidate>
  {
    if pages == 0 then []
    else Turned(seats, size, pages - 1) + Paging.Window(seats, Paging.PageStart(pages - 1, size), size)
  }

  lemma {:induction false} TurnedIsPrefix(seats: seq<Candidate>, size: nat, pages: nat)
    requires pages > 0 ==> Paging.PageStart(pages - 1, size) <= |seats|
    ensures Turned(seats, size, pages) == seats[..Min(|seats|, Paging.PageStart(pages, size))]
  {
    if pages > 0 {
      Paging.NextStart(pages - 1, size);
      if pages > 1 {
        Paging.Monotone(pages - 2, pages - 1, size);
      }
      TurnedIsPrefix(seats, size, pages - 1);
      hide Paging.PageStart;
    }
  }

  /** As many pages as it takes, of a grid or of a sidebar, show everybody once and in order. */
  lemma AllPagesTurned(seats: seq<Candidate>, size: nat)
    requires size > 0
    ensures Turned(seats, size, CeilDiv(|seats|, size)) == seats
    ensures |seats| > 0 ==> Paging.PageStart(CeilDiv(|seats|, size) - 1, size) < |seats|
  {
    Paging.CeilDivBounds(|seats|, size);
    if |seats| == 0 {
      Paging.EmptyCount(size);
    }
    hide CeilDiv;
    TurnedIsPrefix(seats, size, CeilDiv(|seats|, size));
  }

  // ------------------------------------------------------------------------
  // The grid.
  // ------------------------------------------------------------------------

  lemma GridMakes(p: Policy, plan: Plan, seats: seq<Candidate>, size: nat, paging: bool)
    returns (start: nat)
    requires size > 0 && plan.seats == []
    ensures var count := if paging then CeilDiv(|seats|, size) else 1;
      var shown := if paging then Min(p.viewport.page, count - 1) else 0;
      var (grid, built) := BuildGrid(p, plan, seats, size, paging);
      && built == plan.(pageSize := size, pageCount := count, page := shown, reason := Visible, seats := built.seats,
                        selectedVideo := built.selectedVideo)
      && built.seats == Made(Paging.Window(seats, start, Min(size, p.config.videoBudget)), GridSeat,
                             GridExtent(p.viewport.stage, size))
      && if paging then
           && PageStartsAt(p.grid, seats, p.viewport.page, size, shown, start)
           && grid == PageState(p.viewport.page, size, if start < |seats| then Some(seats[start].key) else None)
         else start == 0 && grid == p.grid
  {
    hide AddSeats, CeilDiv, GridExtent, Made, PageStartsAt, Paged;
    var count := if paging then CeilDiv(|seats|, size) else 1;
    var shown := if paging then Min(p.viewport.page, count - 1) else 0;
    PagedMeans(p.grid, seats, p.viewport.page, size, shown);
    start := if paging then Paged(p.grid, seats, p.viewport.page, size, shown, Paging.PageStart(shown, size)).1 else 0;
    var sized := plan.(pageSize := size, pageCount := count, page := shown);
    var window := Paging.Window(seats, start, Min(size, p.config.videoBudget));
    AddSeatsMakes(p.config.videoBudget, sized, window, GridSeat, GridExtent(p.viewport.stage, size));
    Paging.AddSeatsFrame(p.config.videoBudget, sized, window, GridSeat, GridExtent(p.viewport.stage, size));
  }

  // ------------------------------------------------------------------------
  // Around a focus.
  // ------------------------------------------------------------------------

  /** Everybody but the main seat, in the order of the seats. */
  lemma {:induction false} WithoutIsTheRest(seats: seq<Candidate>, at: nat)
    requires DistinctSeats(seats) && at < |seats|
    ensures Without(seats, seats[at].key) == seats[..at] + seats[at + 1..]
  {
    var n := |seats| - 1;
    if at < n {
      WithoutIsTheRest(seats[..n], at);
      assert seats[at + 1..] == seats[..n][at + 1..] + [seats[n]];
    } else {
      AbsentStays(seats[..n], seats[n].key);
    }
  }

  lemma {:induction false} AbsentStays(seats: seq<Candidate>, key: TrackKey)
    requires forall i :: 0 <= i < |seats| ==> seats[i].key != key
    ensures Without(seats, key) == seats
  {
    if seats != [] {
      AbsentStays(seats[..|seats| - 1], key);
    }
  }

  /** The main seat, with a window of the others beside it. */
  ghost predicate SidebarPlanned(p: Policy, main: Candidate, other: seq<Candidate>, origin: Origin, next: PageState,
                                 plan: Plan, start: nat)
  {
    var limit, stage := plan.pageSize, p.viewport.stage;
    var window := Paging.Window(other, start, limit);
    && limit == (if p.config.videoBudget > 1 then Min(p.config.sidebarLimit, p.config.videoBudget - 1) else 0)
    && plan.pageCount == CeilDiv(|other|, if limit == 0 then 1 else limit)
    && plan.page == Min(p.viewport.page, plan.pageCount - 1)
    && PageStartsAt(p.sidebar, other, p.viewport.page, limit, plan.page, start)
    && next == PageState(p.viewport.page, limit, if start < |other| then Some(other[start].key) else None)
    && plan.seats == (if p.config.videoBudget == 0 then []
                      else [MakeSeat(main, MainSeat, MainExtent(stage, window != []), origin)]
                           + Made(window, SidebarSeat, SidebarExtent(stage, |window|)))
  }

  lemma MainSeatMade(budget: nat, plan: Plan, main: Candidate, extent: Extent, origin: Origin)
    requires plan.seats == []
    ensures var r := AddSeat(budget, plan, main, MainSeat, extent, origin);
      && r == plan.(seats := r.seats, selectedVideo := r.selectedVideo)
      && r.seats == if budget == 0 then [] else [MakeSeat(main, MainSeat, extent, origin)]
  {
    hide MakeSeat;
  }

  lemma SideWindow(other: seq<Candidate>, start: nat, limit: nat)
    ensures var side := Min(limit, if start < |other| then |other| - start else 0);
      && Paging.Window(other, start, limit) == (if start + side <= |other| then other[start..start + side] else [])
      && |Paging.Window(other, start, limit)| == side
  {
  }

  lemma MainAndWindowMade(budget: nat, plan: Plan, main: Candidate, window: seq<Candidate>, big: Extent, small: Extent,
                          origin: Origin)
    requires plan.seats == [] && (window != [] ==> |window| + 1 <= budget)
    ensures var r := AddSeats(budget, AddSeat(budget, plan, main, MainSeat, big, origin), window, SidebarSeat, small);
      && r == plan.(seats := r.seats, selectedVideo := r.selectedVideo)
      && r.seats == if budget == 0 then [] else [MakeSeat(main, MainSeat, big, origin)] + Made(window, SidebarSeat, small)
  {
    hide AddSeat, AddSeats, MakeSeat;
    MainSeatMade(budget, plan, main, big, origin);
    var first := AddSeat(budget, plan, main, MainSeat, big, origin);
    AddSeatsMakes(budget, first, window, SidebarSeat, small);
    Paging.AddSeatsFrame(budget, first, window, SidebarSeat, small);
    assert window == [] ==> Made(window, SidebarSeat, small) == [];
  }

  lemma SidebarMakes(p: Policy, plan: Plan, main: Candidate, other: seq<Candidate>, origin: Origin) returns (start: nat)
    requires plan.seats == []
    ensures var (next, built) := BuildSidebar(p, plan, main, other, origin);
      && SidebarPlanned(p, main, other, origin, next, built, start)
      && built == plan.(pageSize := built.pageSize, pageCount := built.pageCount, page := built.page,
                        seats := built.seats, selectedVideo := built.selectedVideo)
  {
    hide AddSeat, AddSeats, CeilDiv, MainExtent, SidebarExtent, Made, PageStartsAt, Paged, MakeSeat, Paging.Window;
    var budget, stage, limit := p.config.videoBudget, p.viewport.stage, SideLimit(p.config);
    var count := CeilDiv(|other|, if limit == 0 then 1 else limit);
    var shown := Min(p.viewport.page, count - 1);
    PagedMeans(p.sidebar, other, p.viewport.page, limit, shown);
    start := Paged(p.sidebar, other, p.viewport.page, limit, shown, Paging.PageStart(shown, limit)).1;
    var window := Paging.Window(other, start, limit);
    SideWindow(other, start, limit);
    MainAndWindowMade(budget, plan.(pageSize := limit, pageCount := count, page := shown), main, window,
                      MainExtent(stage, window != []), SidebarExtent(stage, |window|), origin);
  }

  /** The main seat, with the first of the others as an inset. */
  predicate PipPlanned(p: Policy, main: Candidate, other: seq<Candidate>, origin: Origin, plan: Plan)
  {
    var inset, stage := other != [] && p.config.videoBudget > 1, p.viewport.stage;
    && plan.page == 0 && plan.pageCount == 1 && plan.pageSize == (if inset then 1 else 0)
    && plan.seats == (if p.config.videoBudget == 0 then []
                      else [MakeSeat(main, MainSeat, MainExtent(stage, false), origin)]
                           + if inset then [MakeSeat(other[0], PipSeat, PipExtent(stage), NoOrigin)] else [])
  }

  lemma PipMakes(p: Policy, plan: Plan, main: Candidate, other: seq<Candidate>, origin: Origin)
    requires plan.seats == []
    ensures var built := BuildPip(p, plan, main, other, origin);
      && PipPlanned(p, main, other, origin, built)
      && built == plan.(pageSize := built.pageSize, pageCount := built.pageCount, page := built.page,
                        seats := built.seats, selectedVideo := built.selectedVideo)
  {
    hide MakeSeat, MainExtent, PipExtent;
  }

  // ------------------------------------------------------------------------
  // One seat.
  // ------------------------------------------------------------------------

  /** The largest picture a seat asks for. */
  function Cap(role: SeatRole, source: TrackSource): Extent
  {
    if role != MainSeat then Extent(640, 360)
    else if source == ScreenShareVideo then Extent(1920, 1080)
    else Extent(1280, 720)
  }

  function Lines(tier: Quality): nat
  {
    match tier
    case NoVideo => 0
    case P180 => 180
    case P360 => 360
    case P720 => 720
    case P1080 => 1080
  }

  /** The lowest tier with that many lines, or the highest there is. */
  ghost predicate TierFor(width: nat, height: nat, tier: Quality)
  {
    if width == 0 || height == 0 then tier == NoVideo
    else
      && tier != NoVideo && (height <= Lines(tier) || tier == P1080)
      && forall lower :: lower != NoVideo && Lines(lower) < Lines(tier) ==> Lines(lower) < height
  }

  /** As much as tile and cap both allow. */
  predicate Largest(size: nat, tile: nat, cap: nat) { size <= tile && size <= cap && (size == tile || size == cap) }

  function Rank(role: SeatRole): nat
  {
    if role == MainSeat then 400 else if role == PipSeat then 200 else if role == SidebarSeat then 120 else 100
  }

  /** What a seat of a candidate says: size, tier, priority, and why it is or is not shown. */
  lemma SeatMeans(s: Candidate, role: SeatRole, extent: Extent, origin: Origin)
    ensures var seat := MakeSeat(s, role, extent, origin);
      && seat.key == s.key && seat.source == s.source && seat.role == role
      && (s.publication.None? ==>
            seat.width == 0 && seat.height == 0 && seat.quality == NoVideo && seat.priority == 0
            && seat.subscriptionError == NoError)
      && (s.publication.Some? ==>
            var state := s.publication.value.state;
            && Largest(seat.width, extent.width, Cap(role, state.source).width)
            && Largest(seat.height, extent.height, Cap(role, state.source).height)
            && TierFor(seat.width, seat.height, seat.quality)
            && seat.subscriptionError == state.subscriptionError
            && (origin == ByPin ==> seat.priority == 500)
            && (origin != ByPin ==> seat.priority == Rank(role) + if state.source == ScreenShareVideo then 50 else 0)
            && (!state.subscriptionAllowed ==> seat.reason == PermissionDenied)
            && (state.subscriptionAllowed && state.muted ==> seat.reason == Muted))
      && (s.publication.None? || IsShown(s.publication.value) ==>
            seat.reason == if origin == ByPin then Pinned
                           else if origin in {BySelectedShare, ByAutoShare} then ScreenShare
                           else if origin == BySpeaker then ActiveSpeaker
                           else if s.source == ScreenShareVideo then ScreenShare else Visible)
  {
    hide QualityFor, TierFor;
    forall width, height ensures TierFor(width, height, QualityFor(width, height)) {
      TierMeans(width, height);
    }
  }

  lemma TierMeans(width: nat, height: nat)
    ensures TierFor(width, height, QualityFor(width, height))
  {
  }

  predicate IsShown(v: Catalogs.Publication) { v.state.subscriptionAllowed && !v.state.muted }
}
