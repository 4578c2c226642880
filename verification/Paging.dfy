/**
 Grid paging: turning through the pages shows everyone once, and a page that
 stays requested keeps its first seat (src/core/video_demand_policy.cpp:493-536).
 */
module Paging {
  import opened Common
  import opened ParticipantEvents
  import opened DemandTypes
  import opened DemandPolicy
  import opened DemandSeats
  import WakeUp
  import Catalogs

  function SeatKeys(seats: seq<Seat>): (keys: seq<TrackKey>)
    ensures |keys| == |seats| && forall i :: 0 <= i < |seats| ==> keys[i] == seats[i].key
  {
    if seats == [] then [] else SeatKeys(seats[..|seats| - 1]) + [seats[|seats| - 1].key]
  }

  function CandidateKeys(seats: seq<Candidate>): (keys: seq<TrackKey>)
    ensures |keys| == |seats| && forall i :: 0 <= i < |seats| ==> keys[i] == seats[i].key
  {
    if seats == [] then [] else CandidateKeys(seats[..|seats| - 1]) + [seats[|seats| - 1].key]
  }

  function PageStart(page: nat, size: nat): nat { page * size }

  function PageSizeOf(p: Policy): (size: nat)
    ensures size > 0
  {
    NormalizePageSize(p.viewport.pageSize, p.config.defaultPageSize)
  }

  function PageCount(p: Policy): nat { CeilDiv(|OrderedSeats(p.catalog)|, PageSizeOf(p)) }

  /** A visible grid without a forced focus, whose pages fit the seat budget. */
  predicate InGrid(p: Policy)
  {
    && p.accepting && p.hasViewport && p.catalog.Some?
    && p.viewport.session == p.session
    && p.viewport.mode == Grid && p.viewport.content == VideoStage && !NothingVisible(p.viewport)
    && ResolveSeat(p.catalog, p.viewport.pinned).None?
    && ResolveTrack(p.catalog, p.viewport.selectedShare, Some(ScreenShareVideo)).None?
    && PageSizeOf(p) <= p.config.videoBudget
  }

  lemma {:induction false} AddSeatsAppends(budget: nat, plan: Plan, seats: seq<Candidate>, role: SeatRole, extent: Extent)
    requires |plan.seats| + |seats| <= budget
    ensures var r := AddSeats(budget, plan, seats, role, extent);
      SeatKeys(r.seats) == SeatKeys(plan.seats) + CandidateKeys(seats)
  {
    hide AddSeat;
    if seats != [] {
      var n := |seats| - 1;
      AddSeatsAppends(budget, plan, seats[..n], role, extent);
      AddSeatAppends(budget, AddSeats(budget, plan, seats[..n], role, extent), seats[n], role, extent);
    }
  }

  lemma AddSeatAppends(budget: nat, plan: Plan, s: Candidate, role: SeatRole, extent: Extent)
    requires |plan.seats| < budget
    ensures SeatKeys(AddSeat(budget, plan, s, role, extent, NoOrigin).seats) == SeatKeys(plan.seats) + [s.key]
  {
    var r := AddSeat(budget, plan, s, role, extent, NoOrigin);
    assert r.seats[..|r.seats| - 1] == plan.seats;
  }

  lemma {:induction false} AddSeatsFrame(budget: nat, plan: Plan, seats: seq<Candidate>, role: SeatRole, extent: Extent)
    ensures var r := AddSeats(budget, plan, seats, role, extent);
      r == plan.(seats := r.seats, selectedVideo := r.selectedVideo)
  {
    if seats != [] {
      AddSeatsFrame(budget, plan, seats[..|seats| - 1], role, extent);
    }
  }

  lemma CeilDivBounds(count: nat, size: nat)
    requires size > 0
    ensures count <= CeilDiv(count, size) * size
    ensures count > 0 ==> (CeilDiv(count, size) - 1) * size < count
  {
    var n := count + size - 1;
    assert n == size * (n / size) + n % size;
  }

  /** The window a grid shows. */
  function Window(seats: seq<Candidate>, start: nat, size: nat): seq<Candidate>
  {
    if start <= |seats| then seats[start..Min(|seats|, start + size)] else []
  }

  lemma WindowFits(seats: seq<Candidate>, start: nat, size: nat, budget: nat)
    requires size <= budget
    ensures |Window(seats, start, size)| <= budget
    ensures var limit := Min(|seats|, start + Min(size, budget));
      Window(seats, start, size) == if start <= limit then seats[start..limit] else []
  {
  }

  lemma GridShows(p: Policy, plan: Plan, seats: seq<Candidate>, size: nat)
    requires 0 < size <= p.config.videoBudget && plan.seats == []
    ensures var shown := Min(p.viewport.page, CeilDiv(|seats|, size) - 1);
      var (grid, start) := Paged(p.grid, seats, p.viewport.page, size, shown, PageStart(shown, size));
      var (grid', built) := BuildGrid(p, plan, seats, size, true);
      grid' == grid && SeatKeys(built.seats) == CandidateKeys(Window(seats, start, size))
  {
    hide Paged, AddSeats, CeilDiv, GridExtent, CandidateKeys, SeatKeys, Window;
    var shown := Min(p.viewport.page, CeilDiv(|seats|, size) - 1);
    var start := Paged(p.grid, seats, p.viewport.page, size, shown, PageStart(shown, size)).1;
    var sized := plan.(pageSize := size, pageCount := CeilDiv(|seats|, size), page := shown);
    WindowFits(seats, start, size, p.config.videoBudget);
    AddSeatsAppends(p.config.videoBudget, sized, Window(seats, start, size), GridSeat, GridExtent(p.viewport.stage, size));
    assert SeatKeys([]) + CandidateKeys(Window(seats, start, size)) == CandidateKeys(Window(seats, start, size));
  }

  /** q shows the window that the page state of p asks for. */
  ghost predicate ShowsWindow(p: Policy, grid: PageState, seats: seq<Seat>)
  {
    var all, size := OrderedSeats(p.catalog), PageSizeOf(p);
    var shown := Min(p.viewport.page, PageCount(p) - 1);
    var (next, start) := Paged(p.grid, all, p.viewport.page, size, shown, PageStart(shown, size));
    grid == next && SeatKeys(seats) == CandidateKeys(Window(all, start, size))
  }

  lemma GridReconciles(p: Policy, now: int)
    requires InGrid(p)
    ensures ShowsWindow(p, Reconciled(p, now).grid, Reconciled(p, now).plan.seats)
    ensures WakeUp.SameInputs(p, Reconciled(p, now)) && Reconciled(p, now).hasViewport
  {
    WakeUp.BuildKeepsInputs(p, now);
    GridPlan(p, now);
    var next := BuildPlan(p, now).1;
    WakeUp.SamePlanExact(next, p.plan);
    hide BuildPlan, OrderedSeats, Paged, CeilDiv, SamePlan, ShowsWindow;
  }

  lemma GridPlan(p: Policy, now: int)
    requires InGrid(p)
    ensures ShowsWindow(p, BuildPlan(p, now).0.grid, BuildPlan(p, now).1.seats)
    ensures BuildPlan(p, now).0.hasViewport == p.hasViewport
  {
    hide BuildGrid, OrderedSeats, Paged, CeilDiv, ResolveSeat, ResolveTrack, RefreshShare, Advance, SelectedAudio, IsAutoShare;
    var a := Advanced(p, now);
    var stable := ResolveTrack(p.catalog, a.speech.stable, Some(Camera));
    GridShows(a, WakeUp.Header(p, stable).(mode := Grid), OrderedSeats(p.catalog), PageSizeOf(p));
  }

  // ------------------------------------------------------------------------
  // Turning through the pages.
  // ------------------------------------------------------------------------

  /** The request for a page: a newer intent without an anchor. */
  function Request(p: Policy, page: nat): Viewport
  {
    p.viewport.(page := page, viewRevision := p.viewport.viewRevision + 1, pageAnchor := None)
  }

  function Turn(p: Policy, page: nat, now: int): Policy
  {
    Reconciled(WithViewport(p, Request(p, page)), now)
  }

  /** Pages 0 .. n-1 requested one after the other, at arbitrary times. */
  function TurnAll(p: Policy, times: seq<int>): Policy
  {
    if times == [] then p else Turn(TurnAll(p, times[..|times| - 1]), |times| - 1, times[|times| - 1])
  }

  /** The seats the turns show, page after page. */
  function Shown(p: Policy, times: seq<int>): seq<TrackKey>
  {
    if times == [] then [] else Shown(p, times[..|times| - 1]) + SeatKeys(TurnAll(p, times).plan.seats)
  }

  lemma PageInRange(p: Policy, page: nat)
    requires page < PageCount(p)
    ensures PageStart(page, PageSizeOf(p)) <= |OrderedSeats(p.catalog)|
  {
    hide OrderedSeats, CeilDiv, PageSizeOf;
    CeilDivBounds(|OrderedSeats(p.catalog)|, PageSizeOf(p));
    Monotone(page, PageCount(p) - 1, PageSizeOf(p));
    if |OrderedSeats(p.catalog)| == 0 {
      EmptyCount(PageSizeOf(p));
    }
  }

  lemma EmptyCount(size: nat)
    ensures CeilDiv(0, size) == 1
  {
  }

  lemma Monotone(a: nat, b: nat, size: nat)
    requires a <= b
    ensures a * size <= b * size
  {
  }

  /** The keys of the seats from position page * size on, at most one page. */
  function PageKeys(p: Policy, page: nat): seq<TrackKey>
  {
    CandidateKeys(Window(OrderedSeats(p.catalog), PageStart(page, PageSizeOf(p)), PageSizeOf(p)))
  }

  /** Still the same grid, now on this page. */
  predicate SameGrid(p: Policy, q: Policy, page: nat)
  {
    InGrid(q) && q.catalog == p.catalog && q.viewport.page == page && PageSizeOf(q) == PageSizeOf(p)
  }

  lemma TurnShows(p: Policy, page: nat, now: int)
    requires InGrid(p) && page < PageCount(p)
    requires p.viewport.page != page || p.grid.anchor.None?
    ensures SameGrid(p, Turn(p, page, now), page)
    ensures SeatKeys(Turn(p, page, now).plan.seats) == PageKeys(p, page)
  {
    hide OrderedSeats, CeilDiv, Reconciled, NormalizePageSize, ResolveSeat, ResolveTrack, WithViewport, CandidateKeys,
         SeatKeys, Window;
    var r := WithViewport(p, Request(p, page));
    RequestKeeps(p, page);
    PageInRange(p, page);
    GridReconciles(r, now);
    assert Min(page, PageCount(r) - 1) == page;
  }

  lemma RequestKeeps(p: Policy, page: nat)
    requires InGrid(p)
    requires p.viewport.page != page || p.grid.anchor.None?
    ensures var r := WithViewport(p, Request(p, page));
      && InGrid(r) && r.catalog == p.catalog && PageSizeOf(r) == PageSizeOf(p) && r.viewport.page == page
      && r.grid.anchor.None?
  {
    hide ResolveSeat, ResolveTrack;
  }

  /** The keys in display order that fill the first pages. */
  function FirstKeys(p: Policy, pages: nat): seq<TrackKey>
  {
    var keys := CandidateKeys(OrderedSeats(p.catalog));
    keys[..Min(|keys|, PageStart(pages, PageSizeOf(p)))]
  }

  /** A page goes on where the pages before it end. */
  lemma NextWindow(keys: seq<TrackKey>, start: nat, size: nat)
    requires start <= |keys|
    ensures keys[..start] + keys[start..Min(|keys|, start + size)] == keys[..Min(|keys|, start + size)]
  {
  }

  lemma WindowKeys(seats: seq<Candidate>, start: nat, size: nat)
    requires start <= |seats|
    ensures CandidateKeys(Window(seats, start, size)) == CandidateKeys(seats)[start..Min(|seats|, start + size)]
  {
    hide CandidateKeys;
  }

  lemma NextStart(page: nat, size: nat)
    ensures PageStart(page + 1, size) == PageStart(page, size) + size
  {
  }

  lemma NextPage(p: Policy, page: nat)
    requires page < PageCount(p)
    ensures FirstKeys(p, page) + PageKeys(p, page) == FirstKeys(p, page + 1)
  {
    hide OrderedSeats, CeilDiv, NormalizePageSize, PageSizeOf, CandidateKeys, PageStart, Window;
    PageInRange(p, page);
    var seats, start, size := OrderedSeats(p.catalog), PageStart(page, PageSizeOf(p)), PageSizeOf(p);
    NextStart(page, size);
    WindowKeys(seats, start, size);
    NextWindow(CandidateKeys(seats), start, size);
  }

  /**
   Requesting pages 0, 1, 2, ... of an unchanged grid shows the ordered seats
   from the first on, without gap, repetition or change of order.
   */
  lemma {:induction false} TurningShowsPrefix(p: Policy, times: seq<int>)
    requires InGrid(p) && |times| <= PageCount(p)
    requires p.viewport.page != 0 || p.grid.anchor.None?
    ensures times != [] ==> SameGrid(p, TurnAll(p, times), |times| - 1)
    ensures Shown(p, times) == FirstKeys(p, |times|)
  {
    hide OrderedSeats, CeilDiv, Turn, InGrid, NormalizePageSize, SeatKeys, PageKeys;
    if times != [] {
      var n := |times| - 1;
      TurningShowsPrefix(p, times[..n]);
      var q := TurnAll(p, times[..n]);
      TurnShows(q, n, times[n]);
      assert PageKeys(q, n) == PageKeys(p, n) by { SamePageKeys(p, q, n); }
      NextPage(p, n);
    }
  }

  lemma SamePageKeys(p: Policy, q: Policy, page: nat)
    requires q.catalog == p.catalog && PageSizeOf(q) == PageSizeOf(p)
    ensures PageKeys(q, page) == PageKeys(p, page)
  {
  }

  /** All pages together show every ordered seat exactly once and in order. */
  lemma PagesShowEveryone(p: Policy, times: seq<int>)
    requires InGrid(p) && |times| == PageCount(p)
    requires p.viewport.page != 0 || p.grid.anchor.None?
    ensures Shown(p, times) == CandidateKeys(OrderedSeats(p.catalog))
  {
    TurningShowsPrefix(p, times);
    CeilDivBounds(|OrderedSeats(p.catalog)|, PageSizeOf(p));
    hide Shown, OrderedSeats, InGrid, NormalizePageSize, CeilDiv, CandidateKeys;
  }

  // ------------------------------------------------------------------------
  // The anchor.
  // ------------------------------------------------------------------------

  /** The page on screen is the one requested, and its first seat is the anchor. */
  ghost predicate Anchored(p: Policy, anchor: TrackKey)
  {
    && InGrid(p)
    && p.grid == PageState(p.viewport.page, PageSizeOf(p), Some(anchor))
    && p.plan.seats != [] && p.plan.seats[0].key == anchor
  }

  /** A later catalog of the same generation that still has the anchor's seat and the page. */
  ghost predicate KeepsPage(p: Policy, s: Catalogs.Snapshot, anchor: TrackKey)
  {
    var q := p.(catalog := Some(s));
    && CatalogAccepted(p, s) && p.catalog.Some? && s.generation == p.catalog.value.generation
    && InGrid(q) && p.viewport.page < PageCount(q)
    && SeatIndex(OrderedSeats(Some(s)), anchor) < |OrderedSeats(Some(s))|
  }

  lemma AnchorSurvives(p: Policy, s: Catalogs.Snapshot, now: int, anchor: TrackKey)
    requires Anchored(p, anchor) && KeepsPage(p, s, anchor)
    ensures Anchored(Reconciled(WithCatalog(p, s), now), anchor)
  {
    var q := WithCatalog(p, s);
    assert q == p.(catalog := Some(s));
    GridReconciles(q, now);
    hide OrderedSeats, CeilDiv, Reconciled, NormalizePageSize, ResolveSeat, ResolveTrack;
    var seats := OrderedSeats(q.catalog);
    var r := Reconciled(q, now);
    assert SeatKeys(r.plan.seats)[0] == anchor;
  }

  datatype Change = Change(snapshot: Catalogs.Snapshot, now: int)

  function Follow(p: Policy, changes: seq<Change>): Policy
  {
    if changes == [] then p
    else
      var q, last := Follow(p, changes[..|changes| - 1]), changes[|changes| - 1];
      Reconciled(WithCatalog(q, last.snapshot), last.now)
  }

  function FirstSeat(plan: Plan): Option<TrackKey>
  {
    if plan.seats == [] then None else Some(plan.seats[0].key)
  }

  /** Every later catalog still has that seat and the page. */
  ghost predicate KeepsPageThroughout(p: Policy, changes: seq<Change>, anchor: TrackKey)
  {
    forall i :: 0 <= i < |changes| ==> KeepsPage(Follow(p, changes[..i]), changes[i].snapshot, anchor)
  }

  lemma {:induction false} AnchorFollows(p: Policy, changes: seq<Change>, anchor: TrackKey)
    requires Anchored(p, anchor)
    requires KeepsPageThroughout(p, changes, anchor)
    ensures Anchored(Follow(p, changes), anchor)
  {
    hide Anchored, KeepsPage, Reconciled, WithCatalog;
    if changes != [] {
      var n := |changes| - 1;
      assert forall i :: 0 <= i <= n ==> changes[..n][..i] == changes[..i];
      AnchorFollows(p, changes[..n], anchor);
      AnchorSurvives(Follow(p, changes[..n]), changes[n].snapshot, changes[n].now, anchor);
    }
  }

  lemma PageStartsInside(p: Policy, page: nat)
    requires page < PageCount(p) && OrderedSeats(p.catalog) != []
    ensures PageStart(page, PageSizeOf(p)) < |OrderedSeats(p.catalog)|
  {
    hide OrderedSeats, CeilDiv, NormalizePageSize;
    CeilDivBounds(|OrderedSeats(p.catalog)|, PageSizeOf(p));
    Monotone(page, PageCount(p) - 1, PageSizeOf(p));
  }

  /** A grid page in range that somebody sits on has its first seat as the anchor. */
  lemma AnchorStarts(p: Policy, now: int)
    requires InGrid(p) && p.viewport.page < PageCount(p) && OrderedSeats(p.catalog) != []
    ensures FirstSeat(Reconciled(p, now).plan).Some?
    ensures Anchored(Reconciled(p, now), FirstSeat(Reconciled(p, now).plan).value)
  {
    hide OrderedSeats, CeilDiv, Reconciled, NormalizePageSize, ResolveSeat, ResolveTrack, PageStart;
    PageStartsInside(p, p.viewport.page);
    GridReconciles(p, now);
    var q := Reconciled(p, now);
    assert |SeatKeys(q.plan.seats)| > 0;
    assert SeatKeys(q.plan.seats)[0] == q.plan.seats[0].key;
  }

  /**
   Whatever seat a page in range starts with stays its first seat while the page
   stays requested and in range and that seat stays, whoever else joins or leaves.
   */
  lemma AnchorStays(p: Policy, now: int, changes: seq<Change>, anchor: TrackKey)
    requires InGrid(p) && p.viewport.page < PageCount(p) && OrderedSeats(p.catalog) != []
    requires FirstSeat(Reconciled(p, now).plan) == Some(anchor)
    requires KeepsPageThroughout(Reconciled(p, now), changes, anchor)
    ensures FirstSeat(Follow(Reconciled(p, now), changes).plan) == Some(anchor)
    ensures Anchored(Follow(Reconciled(p, now), changes), anchor)
  {
    hide Follow, KeepsPage, Reconciled, OrderedSeats, InGrid;
    AnchorStarts(p, now);
    AnchorFollows(Reconciled(p, now), changes, anchor);
  }
}
