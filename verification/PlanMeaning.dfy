/**
 What a reconciled policy publishes, told of the plan and the catalog alone
 (src/core/video_demand_policy.cpp:165-175, 439-612).
 */
module PlanMeaning {
  import opened Common
  import opened ParticipantEvents
  import opened DemandTypes
  import opened DemandPolicy
  import opened DemandSeats
  import opened DemandMeaning
  import opened FocusOrder
  import opened Layouts
  import AudioOrder
  import Paging
  import PlanShape
  import WakeUp

  // ------------------------------------------------------------------------
  // What every plan carries.
  // ------------------------------------------------------------------------

  ghost predicate Headed(p: Policy, q: Policy)
  {
    && q.plan.session == p.session && q.plan.requestedMode == p.viewport.mode && q.plan.content == p.viewport.content
    && AudioOrder.AllAudio(p.catalog, q.plan.selectedAudio)
    && if p.catalog.None? then q.plan.catalogRevision == 0 && q.plan.stableSpeaker.None?
       else
         && q.plan.catalogRevision == p.catalog.value.revision
         && q.plan.stableSpeaker == if SpeakerHolds(p.catalog, q.speech.stable) then q.speech.stable else None
  }

  /** The published plan is the one built, under a revision of its own. */
  lemma PublishesBuilt(p: Policy, now: int)
    requires p.accepting
    ensures var (built, next) := BuildPlan(p, now);
      var q := Reconciled(p, now);
      q == built.(plan := next.(policyRevision := q.plan.policyRevision))
  {
    WakeUp.BuildKeepsInputs(p, now);
    WakeUp.SamePlanExact(BuildPlan(p, now).1, p.plan);
    hide BuildPlan, SamePlan;
  }

  /** A layout changes seats, paging and focus of the plan it is given, never its header. */
  predicate SameHeader(a: Plan, b: Plan)
  {
    && a.session == b.session && a.requestedMode == b.requestedMode && a.content == b.content
    && a.catalogRevision == b.catalogRevision && a.stableSpeaker == b.stableSpeaker && a.selectedAudio == b.selectedAudio
  }

  // ------------------------------------------------------------------------
  // The grid.
  // ------------------------------------------------------------------------

  /** A small catalog in automatic mode is shown at once, any other page by page. */
  predicate SmallStage(p: Policy) { p.viewport.mode == Auto && |OrderedSeats(p.catalog)| <= 2 }

  /** The seats from start on, a page of them or as many as the budget allows. */
  ghost predicate GridPlanned(p: Policy, grid: PageState, plan: Plan, start: nat)
  {
    var seats, budget := OrderedSeats(p.catalog), p.config.videoBudget;
    && plan.focused.None? && plan.reason == Visible
    && plan.seats == Made(Paging.Window(seats, start, Min(plan.pageSize, budget)), GridSeat,
                          GridExtent(p.viewport.stage, plan.pageSize))
    && if SmallStage(p) then
         start == 0 && plan.pageSize == 2 && plan.pageCount == 1 && plan.page == 0 && plan.mode == Auto && grid == p.grid
       else
         && plan.pageSize == Paging.PageSizeOf(p) && plan.pageCount == CeilDiv(|seats|, plan.pageSize)
         && plan.page == Min(p.viewport.page, plan.pageCount - 1) && plan.mode == Grid
         && PageStartsAt(p.grid, seats, p.viewport.page, plan.pageSize, plan.page, start)
         && grid == PageState(p.viewport.page, plan.pageSize, if start < |seats| then Some(seats[start].key) else None)
  }

  lemma LayGrid(a: Policy, plan: Plan, now: int) returns (start: nat)
    requires !LayoutOf(a).FocusedLayout? && plan.seats == [] && plan.focused.None?
    requires a.viewport.mode == Auto || a.viewport.mode == Grid
    ensures var (b, built) := Lay(a, plan, now);
      GridPlanned(a, b.grid, built, start) && b == a.(grid := b.grid) && SameHeader(plan, built)
  {
    hide BuildGrid, OrderedSeats, CeilDiv, GridExtent, PageStartsAt, Made, Paging.Window, ResolveSeat, ResolveTrack, IsAutoShare,
         NormalizePageSize;
    var seats := OrderedSeats(a.catalog);
    match LayoutOf(a)
    case SmallGrid => start := GridMakes(a, plan.(mode := Auto), seats, 2, false);
    case PagedGrid(mode) => start := GridMakes(a, plan.(mode := mode), seats, Paging.PageSizeOf(a), true);
  }

  // ------------------------------------------------------------------------
  // Around a focus.
  // ------------------------------------------------------------------------

  /** Why the plan shows what it shows. */
  ghost predicate ReasonGiven(focus: Focus, source: TrackSource, reason: Reason)
  {
    match focus.origin
    case ByPin => reason == Pinned
    case BySelectedShare | ByAutoShare => reason == ScreenShare
    case BySpeaker => reason == ActiveSpeaker
    case _ => reason == if source == ScreenShareVideo then ScreenShare else Visible
  }

  /** The seat in focus is main; the others keep their order around it. */
  ghost predicate FocusPlanned(p: Policy, q: Policy, at: nat, start: nat)
  {
    var seats, plan := OrderedSeats(p.catalog), q.plan;
    && at < |seats| && q.focus.key == Some(seats[at].key) && plan.focused == q.focus.key
    && ReasonGiven(q.focus, seats[at].source, plan.reason)
    && var other := seats[..at] + seats[at + 1..];
       if p.viewport.mode == PictureInPicture then
         plan.mode == PictureInPicture && q.sidebar == p.sidebar && PipPlanned(p, seats[at], other, q.focus.origin, plan)
       else
         plan.mode == SpeakerView && SidebarPlanned(p, seats[at], other, q.focus.origin, q.sidebar, plan, start)
  }

  /** With nobody in the room nobody is in focus. */
  predicate NobodyThere(p: Policy, q: Policy)
  {
    && q.focus.key.None? && q.plan.focused.None? && q.plan.seats == [] && q.plan.selectedVideo == []
    && q.plan.reason == Visible && q.sidebar == p.sidebar
    && q.plan.mode == if p.viewport.mode == PictureInPicture then PictureInPicture else SpeakerView
  }

  lemma ReasonIsAside(p: Policy, main: Candidate, other: seq<Candidate>, origin: Origin, next: PageState, plan: Plan,
                      start: nat, reason: Reason)
    ensures SidebarPlanned(p, main, other, origin, next, plan, start)
        ==> SidebarPlanned(p, main, other, origin, next, plan.(reason := reason), start)
    ensures PipPlanned(p, main, other, origin, plan) ==> PipPlanned(p, main, other, origin, plan.(reason := reason))
  {
  }

  lemma ArrangeMakes(p: Policy, plan: Plan, seats: seq<Candidate>, mode: LayoutMode, focus: Focus, at: nat)
    returns (start: nat)
    requires DistinctSeats(seats) && at < |seats| && focus.key == Some(seats[at].key) && plan.seats == []
    ensures var (sidebar, built) := Arrange(p, plan, seats, mode, focus);
      var other := seats[..at] + seats[at + 1..];
      && SameHeader(plan, built) && built.focused == focus.key && built.mode == mode
      && built.reason == ReasonForFocus(focus.origin, seats[at].source)
      && if mode == PictureInPicture then sidebar == p.sidebar && PipPlanned(p, seats[at], other, focus.origin, built)
         else SidebarPlanned(p, seats[at], other, focus.origin, sidebar, built, start)
  {
    hide BuildPip, BuildSidebar, SeatIndex, Without, DistinctSeats, SidebarPlanned, PipPlanned, ReasonForFocus;
    SeatIndexFinds(seats, at);
    WithoutIsTheRest(seats, at);
    var other, draft := seats[..at] + seats[at + 1..], plan.(mode := mode, focused := focus.key);
    var reason := ReasonForFocus(focus.origin, seats[at].source);
    PipMakes(p, draft, seats[at], other, focus.origin);
    start := SidebarMakes(p, draft, seats[at], other, focus.origin);
    var (next, beside) := BuildSidebar(p, draft, seats[at], other, focus.origin);
    ReasonIsAside(p, seats[at], other, focus.origin, next, beside, start, reason);
    ReasonIsAside(p, seats[at], other, focus.origin, next, BuildPip(p, draft, seats[at], other, focus.origin), start, reason);
  }

  lemma LayFocus(a: Policy, plan: Plan, now: int) returns (at: nat, start: nat)
    requires CatalogOk(a.catalog) && LayoutOf(a).FocusedLayout? && plan.seats == [] && plan.selectedVideo == []
    ensures var (b, built) := Lay(a, plan, now);
      var q := b.(plan := built);
      && SameHeader(plan, built) && b == a.(focus := b.focus, sidebar := b.sidebar)
      && if b.focus.key.None? then NobodyThere(a, q) else FocusPlanned(a, q, at, start)
  {
    hide OrderedSeats, CatalogOk, FocusFor, Arrange, SeatIndex, ResolveSeat, ResolveTrack, IsAutoShare, DistinctSeats,
         SidebarPlanned, PipPlanned, ReasonGiven, ReasonForFocus;
    var seats, mode := OrderedSeats(a.catalog), LayoutOf(a).mode;
    var focus := FocusFor(a, seats, LayoutOf(a).allowShare, now);
    at, start := 0, 0;
    if focus.key.Some? {
      SeatOfFocus(a, LayoutOf(a).allowShare, now);
      at := SeatIndex(seats, focus.key.value);
      SeatsFind(a.catalog);
      start := ArrangeMakes(a, plan, seats, mode, focus, at);
      ReasonMeans(focus, seats[at].source);
    } else {
      NobodyArranged(a, plan, seats, mode, focus);
    }
  }

  lemma ReasonMeans(focus: Focus, source: TrackSource)
    ensures ReasonGiven(focus, source, ReasonForFocus(focus.origin, source))
  {
  }

  lemma NobodyArranged(a: Policy, plan: Plan, seats: seq<Candidate>, mode: LayoutMode, focus: Focus)
    requires focus.key.None?
    ensures Arrange(a, plan, seats, mode, focus)
         == (a.sidebar, plan.(mode := mode, focused := None, reason := Visible))
  {
  }

  lemma SeatOfFocus(a: Policy, allowShare: bool, now: int)
    requires CatalogOk(a.catalog)
    ensures var f, seats := FocusFor(a, OrderedSeats(a.catalog), allowShare, now), OrderedSeats(a.catalog);
      f.key.Some? ==> SeatIndex(seats, f.key.value) < |seats|
  {
    PlanShape.FocusHasSeat(a, allowShare, now);
  }

  // ------------------------------------------------------------------------
  // The whole plan.
  // ------------------------------------------------------------------------

  predicate StageHidden(v: Viewport)
  {
    !v.windowVisible || v.minimized || v.stage.width == 0 || v.stage.height == 0
  }

  /** Without a catalog, on a hidden stage and on the whiteboard nobody is shown and nothing moves. */
  predicate NobodyShown(p: Policy, q: Policy)
  {
    var plan := q.plan;
    && plan.seats == [] && plan.selectedVideo == [] && plan.focused.None?
    && plan.mode == p.viewport.mode && plan.page == 0 && plan.pageSize == 0 && plan.pageCount == 1
    && plan.reason == (if p.catalog.None? || StageHidden(p.viewport) then Hidden else OnWhiteboard)
    && q.focus == p.focus && q.grid == p.grid && q.sidebar == p.sidebar
  }

  lemma HeaderMeans(p: Policy, now: int)
    requires CatalogOk(p.catalog) && p.catalog.Some?
    ensures var a := Advanced(p, now);
      var plan := WakeUp.Header(p, ResolveTrack(p.catalog, a.speech.stable, Some(Camera)));
      forall q: Policy :: SameHeader(plan, q.plan) && q.speech == a.speech ==> Headed(p, q)
  {
    hide CatalogOk, SelectedAudio, ResolveTrack, Advance, RefreshShare, AudioOrder.AllAudio, NamesCamera;
    AudioOrder.AudioMeans(p.catalog);
    NothingNamed(p.catalog);
    var stable := Advanced(p, now).speech.stable;
    if stable.Some? {
      TrackMeans(p.catalog, stable.value);
    }
  }

  lemma PlanWithoutVideo(p: Policy, now: int)
    requires CatalogOk(p.catalog) && p.accepting && !StageShowsVideo(p)
    ensures Headed(p, Reconciled(p, now)) && NobodyShown(p, Reconciled(p, now))
  {
    hide CatalogOk, SelectedAudio, ResolveTrack, Advance, RefreshShare, AudioOrder.AllAudio, Lay, Reconciled;
    PublishesBuilt(p, now);
    if p.catalog.Some? {
      HeaderMeans(p, now);
    } else {
      AudioOrder.NothingToList(p.catalog);
    }
  }

  lemma LaidOut(p: Policy, now: int)
    requires p.accepting && StageShowsVideo(p)
    ensures var a := Advanced(p, now);
      var plan := WakeUp.Header(p, ResolveTrack(p.catalog, a.speech.stable, Some(Camera)));
      var (b, built) := Lay(a, plan, now);
      && plan.seats == [] && plan.selectedVideo == [] && plan.focused.None?
      && Reconciled(p, now) == b.(plan := built.(policyRevision := Reconciled(p, now).plan.policyRevision))
  {
    hide SelectedAudio, ResolveTrack, Advanced, Lay, Reconciled;
    PublishesBuilt(p, now);
  }

  lemma GridCarries(p: Policy, a: Policy, grid: PageState, plan: Plan, start: nat, revision: nat)
    requires WakeUp.SameInputs(p, a) && a.grid == p.grid && GridPlanned(a, grid, plan, start)
    ensures GridPlanned(p, grid, plan.(policyRevision := revision), start)
  {
    hide OrderedSeats, CeilDiv, PageStartsAt, Made, Paging.Window, NormalizePageSize, GridExtent;
  }

  lemma FocusCarries(p: Policy, a: Policy, q: Policy, at: nat, start: nat, revision: nat)
    requires WakeUp.SameInputs(p, a) && a.sidebar == p.sidebar
    ensures var q' := q.(plan := q.plan.(policyRevision := revision));
      && (NobodyThere(a, q) ==> NobodyThere(p, q'))
      && (FocusPlanned(a, q, at, start) ==> FocusPlanned(p, q', at, start))
  {
    hide OrderedSeats, CeilDiv, PageStartsAt, Made, Paging.Window, ReasonGiven, MakeSeat;
  }

  /** A reconciliation is an observation, and detects who shares. */
  lemma Observes(p: Policy, now: int)
    requires CatalogOk(p.catalog) && p.accepting
    ensures var q := Reconciled(p, now);
      && WakeUp.SameInputs(p, q)
      && if p.catalog.None? then q.speech == p.speech && q.autoShare == p.autoShare
         else
           && Hears(p.catalog, p.speakers, p.speech, q.speech, now, p.config.candidateDelay)
           && DetectedShare(p.catalog, p.autoShare, q.autoShare)
  {
    hide CatalogOk, Hears, DetectedShare, Advance, RefreshShare, Reconciled, BuildPlan;
    PublishesBuilt(p, now);
    WakeUp.BuildKeepsInputs(p, now);
    if p.catalog.Some? {
      SpeechMeans(p.catalog, p.speakers, p.speech, now, p.config.candidateDelay);
      ShareMeans(p.catalog, p.autoShare);
    } else {
      NothingBuilt(p, now);
    }
  }

  lemma NothingBuilt(p: Policy, now: int)
    requires p.catalog.None?
    ensures BuildPlan(p, now).0 == p
  {
  }

  /**
   What a reconciliation publishes over any catalog that keeps its invariant: its
   header in any case; nobody on a stage that shows no video; around a focus the
   main seat and a sidebar window or an inset; otherwise a window of the grid.
   */
  lemma PlanIs(p: Policy, now: int) returns (at: nat, start: nat)
    requires WakeUp.Ready(p) && p.accepting
    ensures var q := Reconciled(p, now);
      && Headed(p, q)
      && (!StageShowsVideo(p) ==> NobodyShown(p, q))
      && (StageShowsVideo(p) && !AroundFocus(p) ==>
            GridPlanned(p, q.grid, q.plan, start) && q.focus == p.focus && q.sidebar == p.sidebar)
      && (AroundFocus(p) ==>
            q.grid == p.grid && if q.focus.key.None? then NobodyThere(p, q) else FocusPlanned(p, q, at, start))
  {
    hide CatalogOk, ResolveTrack, Lay, Advance, RefreshShare, Reconciled, Headed, NobodyShown, NobodyThere, FocusPlanned,
         GridPlanned, PinHolds, SelectionHolds, SomebodyShares, LayoutOf;
    at, start := 0, 0;
    if !StageShowsVideo(p) {
      PlanWithoutVideo(p, now);
    } else {
      var a := Advanced(p, now);
      var plan := WakeUp.Header(p, ResolveTrack(p.catalog, a.speech.stable, Some(Camera)));
      FocusedViewMeans(p, now);
      AdvancedKeeps(p, now);
      LaidOut(p, now);
      HeaderMeans(p, now);
      if AroundFocus(p) {
        at, start := LayFocus(a, plan, now);
        var (b, built) := Lay(a, plan, now);
        FocusCarries(p, a, b.(plan := built), at, start, Reconciled(p, now).plan.policyRevision);
      } else {
        start := LayGrid(a, plan, now);
        var (b, built) := Lay(a, plan, now);
        GridCarries(p, a, b.grid, built, start, Reconciled(p, now).plan.policyRevision);
      }
    }
  }

  // ------------------------------------------------------------------------
  // No wake-up in vain.
  // ------------------------------------------------------------------------

  lemma DueOrDue(q: Policy, now: int, t: int)
    requires NextReconcileAt(q, now) == Some(t) && t > now
    ensures q.accepting && (CandidateDue(q) == Some(t) || FocusDue(q) == Some(t))
  {
    hide CandidateDue, FocusDue;
  }

  /** A candidate that is due becomes the stable speaker; until then the stable speaker stays. */
  lemma CandidateComesDue(p: Policy, now: int, t: int)
    requires WakeUp.Ready(p) && p.accepting && p.catalog.Some?
    ensures var q := Reconciled(p, now);
      var r := Reconciled(q, t);
      && r.catalog == q.catalog
      && (CandidateDue(q) == Some(t) ==> r.speech.stable != q.speech.stable)
      && (StableCamera(r) != StableCamera(q) ==> r.speech.stable != q.speech.stable)
  {
    hide CatalogOk, SpeakerCamera, Advance, RefreshShare, Reconciled, ResolveTrack;
    WakeUp.ReconciledKeeps(p, now);
    var q := Reconciled(p, now);
    WakeUp.ReconciledAccepts(p, now);
    WakeUp.ReconciledKeeps(q, t);
    WakeUp.AdvanceLeaves(p.catalog, p.speakers, p.speech, now, p.config.candidateDelay);
    WakeUp.AdvanceAgain(p.catalog, p.speakers, q.speech, t, p.config.candidateDelay);
    if CandidateDue(q) == Some(t) {
      TrackIsKey(q.catalog, q.speech.candidate);
      TrackIsKey(q.catalog, Reconciled(q, t).speech.stable);
    }
  }

  function StableCamera(p: Policy): Option<TrackKey> { ResolveTrack(p.catalog, p.speech.stable, Some(Camera)) }

  lemma TrackIsKey(c: Catalog, key: Option<TrackKey>)
    ensures ResolveTrack(c, key, Some(Camera)).Some? ==> ResolveTrack(c, key, Some(Camera)) == key
  {
  }

  /** A residence that runs out around a focus gives the focus to the speaker. */
  lemma ResidenceRunsOut(p: Policy, now: int, t: int)
    requires WakeUp.Ready(p) && p.accepting && AroundFocus(p)
    requires FocusDue(Reconciled(p, now)) == Some(t)
    ensures var q := Reconciled(p, now);
      var r := Reconciled(q, t);
      r.speech.stable != q.speech.stable || r.focus.key != q.focus.key
  {
    hide CatalogOk, Reconciled, ResolveTrack, ResolveSeat, PinHolds, SelectionHolds, SomebodyShares, NamesSeat, NamesCamera,
         OrderedSeats, DetectedShare;
    var q := Reconciled(p, now);
    WakeUp.ReconciledKeeps(p, now);
    WakeUp.ReconciledReady(p, now);
    WakeUp.ReconciledAccepts(p, now);
    FocusFollows(p, now);
    assert AroundFocus(q) && (PinHolds(q) <==> PinHolds(p)) && (SelectionHolds(q) <==> SelectionHolds(p)) by {
      SameSight(p, q);
    }
    FocusFollows(q, t);
    TrackMeans(q.catalog, q.speech.stable.value);
  }

  lemma SameSight(p: Policy, q: Policy)
    requires WakeUp.SameInputs(p, q)
    ensures AroundFocus(q) <==> AroundFocus(p)
    ensures (PinHolds(q) <==> PinHolds(p)) && (SelectionHolds(q) <==> SelectionHolds(p))
  {
    hide NamesSeat, NamesShare, NamesLiveShare;
  }

  /**
   A wake-up in the future is not in vain: with no new input, reconciling at that
   time gives another stable speaker or another focus, unless nothing is laid out
   around a focus and the residence of a leftover focus runs out.
   */
  lemma WakeUpTight(p: Policy, now: int, t: int)
    requires WakeUp.Ready(p) && NextReconcileAt(Reconciled(p, now), now) == Some(t) && t > now
    ensures var q := Reconciled(p, now);
      var r := Reconciled(q, t);
      || r.speech.stable != q.speech.stable || r.focus.key != q.focus.key
      || (!AroundFocus(p) && FocusDue(q) == Some(t))
  {
    hide CatalogOk, Reconciled, CandidateDue, FocusDue, AroundFocus, NextReconcileAt;
    var q := Reconciled(p, now);
    DueOrDue(q, now, t);
    WakeUp.ReconciledAccepts(p, now);
    if p.catalog.None? {
      WakeUp.NothingDue(p, now);
    } else {
      CandidateComesDue(p, now, t);
      if AroundFocus(p) && FocusDue(q) == Some(t) {
        ResidenceRunsOut(p, now, t);
      }
    }
  }
}
