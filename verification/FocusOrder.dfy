/**
 Who is in focus: pin, selected share, detected share, speaker, present focus,
 first seat, in this order; told of the reconciled policy and the catalog
 (src/core/video_demand_policy.cpp:386-491, 538-612).
 */
module FocusOrder {
  import opened Common
  import opened ParticipantEvents
  import opened DemandTypes
  import opened DemandPolicy
  import opened DemandSeats
  import opened DemandMeaning
  import Layouts
  import WakeUp

  ghost predicate PinHolds(p: Policy)
  {
    p.viewport.pinned.Some? && NamesSeat(p.catalog, p.viewport.pinned.value)
  }

  ghost predicate SelectionHolds(p: Policy)
  {
    p.viewport.selectedShare.Some? && NamesShare(p.catalog, p.viewport.selectedShare.value)
  }

  ghost predicate SomebodyShares(c: Catalog) { exists key :: NamesLiveShare(c, key) }

  /** A stage with something on it, and videos as its content. */
  predicate StageShowsVideo(p: Policy)
  {
    && p.catalog.Some? && p.viewport.windowVisible && !p.viewport.minimized
    && p.viewport.stage.width > 0 && p.viewport.stage.height > 0 && p.viewport.content == VideoStage
  }

  /** The stage is laid out around a focus. */
  ghost predicate AroundFocus(p: Policy)
  {
    && StageShowsVideo(p)
    && (p.viewport.mode in {PictureInPicture, SpeakerView} || PinHolds(p) || SelectionHolds(p)
        || (p.viewport.mode == Auto && SomebodyShares(p.catalog)))
  }

  lemma HoldsMeans(p: Policy)
    requires CatalogOk(p.catalog)
    ensures ResolveSeat(p.catalog, p.viewport.pinned) == if PinHolds(p) then p.viewport.pinned else None
    ensures ResolveTrack(p.catalog, p.viewport.selectedShare, Some(ScreenShareVideo))
         == if SelectionHolds(p) then p.viewport.selectedShare else None
  {
    hide NamesSeat, NamesShare, Find, OrderedSeats, CatalogOk;
    if p.viewport.pinned.Some? {
      SeatMeans(p.catalog, p.viewport.pinned.value);
    }
    if p.viewport.selectedShare.Some? {
      TrackMeans(p.catalog, p.viewport.selectedShare.value);
    }
  }

  /** The share the policy goes on with is a live one exactly while somebody shares. */
  lemma ShareHolds(p: Policy, now: int)
    requires CatalogOk(p.catalog)
    ensures var share := Advanced(p, now).autoShare;
      && DetectedShare(p.catalog, p.autoShare, share)
      && (share.Some? <==> SomebodyShares(p.catalog))
      && (share.Some? ==> IsAutoShare(p.catalog, share.value))
  {
    hide OrderedSeats, CatalogOk, Advance, IsAutoShare, RefreshShare, NamesLiveShare, FirstSeat;
    ShareMeans(p.catalog, p.autoShare);
    var share := RefreshShare(p.catalog, p.autoShare);
    if share.Some? {
      TrackMeans(p.catalog, share.value);
      assert NamesLiveShare(p.catalog, share.value);
    }
  }

  lemma FocusedViewMeans(p: Policy, now: int)
    requires CatalogOk(p.catalog)
    ensures WakeUp.FocusedView(p, now) <==> AroundFocus(p)
  {
    hide CatalogOk, RefreshShare, Advance, OrderedSeats, IsAutoShare, ResolveSeat, ResolveTrack, NamesSeat, NamesShare,
         SomebodyShares, DetectedShare;
    HoldsMeans(p);
    ShareHolds(p, now);
  }

  // ------------------------------------------------------------------------
  // The order.
  // ------------------------------------------------------------------------

  /** The focus becomes this key; its time starts now unless it was the focus already. */
  predicate Takes(p: Policy, q: Policy, key: Option<TrackKey>, origin: Origin, now: int)
  {
    && q.focus.key == key && q.focus.origin == origin
    && q.focus.since == if p.focus.key == key then p.focus.since else Some(now)
  }

  /** A focus that is still there and was not gained by pin or share. */
  ghost predicate FreeFocus(p: Policy)
  {
    && p.focus.key.Some? && NamesSeat(p.catalog, p.focus.key.value)
    && p.focus.origin != ByPin && p.focus.origin != BySelectedShare && p.focus.origin != ByAutoShare
  }

  ghost predicate SpeakerHolds(c: Catalog, stable: Option<TrackKey>) { stable.Some? && NamesCamera(c, stable.value) }

  predicate Resides(p: Policy, now: int)
  {
    p.focus.since.Some? && now - p.focus.since.value < p.config.minimumResidence
  }

  /** What the speaker, the present focus and the first seat decide where nothing is forced into focus. */
  ghost predicate UnforcedFocus(p: Policy, q: Policy, now: int)
  {
    if SpeakerHolds(p.catalog, q.speech.stable) then
      if p.focus.key == q.speech.stable then q.focus == p.focus.(origin := BySpeaker)
      else if FreeFocus(p) && Resides(p, now) then q.focus == p.focus
      else Takes(p, q, q.speech.stable, BySpeaker, now)
    else if FreeFocus(p) then q.focus == p.focus
    else
      var seats := OrderedSeats(p.catalog);
      if seats != [] then Takes(p, q, Some(seats[0].key), ByFallback, now) else q.focus == NO_FOCUS
  }

  lemma ChoiceMeans(a: Policy, allowShare: bool, now: int)
    requires CatalogOk(a.catalog) && (a.focus.key.Some? <==> a.focus.since.Some?)
    requires a.autoShare.Some? ==> IsAutoShare(a.catalog, a.autoShare.value)
    ensures var q := a.(focus := FocusFor(a, OrderedSeats(a.catalog), allowShare, now));
      && (PinHolds(a) ==> Takes(a, q, a.viewport.pinned, ByPin, now))
      && (!PinHolds(a) && SelectionHolds(a) ==> Takes(a, q, a.viewport.selectedShare, BySelectedShare, now))
      && (!PinHolds(a) && !SelectionHolds(a) && allowShare && a.autoShare.Some? ==>
            Takes(a, q, a.autoShare, ByAutoShare, now))
      && (!PinHolds(a) && !SelectionHolds(a) && a.autoShare.None? ==> UnforcedFocus(a, q, now))
  {
    hide CatalogOk, OrderedSeats, IsAutoShare, ResolveSeat, ResolveTrack, NamesSeat, NamesShare, NamesCamera;
    HoldsMeans(a);
    if a.focus.key.Some? {
      SeatMeans(a.catalog, a.focus.key.value);
    }
    if a.speech.stable.Some? {
      TrackMeans(a.catalog, a.speech.stable.value);
    }
    assert ResolveSeat(a.catalog, None).None? && ResolveTrack(a.catalog, None, Some(Camera)).None? by { NothingNamed(a.catalog); }
  }

  lemma NothingNamed(c: Catalog)
    ensures ResolveSeat(c, None).None? && ResolveTrack(c, None, Some(Camera)).None?
  {
  }

  /**
   The order of the focus, for every policy over a catalog that keeps its
   invariant: the pin; then the selected share; then the detected share; then the
   stable speaker, once the present focus has resided; then the present focus;
   then the first seat.
   */
  lemma FocusFollows(p: Policy, now: int)
    requires WakeUp.Ready(p) && p.accepting && AroundFocus(p)
    ensures var q := Reconciled(p, now);
      && q.plan.focused == q.focus.key
      && (PinHolds(p) ==> Takes(p, q, p.viewport.pinned, ByPin, now))
      && (!PinHolds(p) && SelectionHolds(p) ==> Takes(p, q, p.viewport.selectedShare, BySelectedShare, now))
      && (!PinHolds(p) && !SelectionHolds(p) && SomebodyShares(p.catalog) ==>
            DetectedShare(p.catalog, p.autoShare, q.autoShare) && Takes(p, q, q.autoShare, ByAutoShare, now))
      && (!PinHolds(p) && !SelectionHolds(p) && !SomebodyShares(p.catalog) ==> UnforcedFocus(p, q, now))
  {
    hide CatalogOk, Advanced, Reconciled, FocusFor, LayoutOf, PinHolds, SelectionHolds, SomebodyShares, DetectedShare,
         NamesSeat, IsAutoShare, OrderedSeats, AroundFocus;
    var a, q := Advanced(p, now), Reconciled(p, now);
    FocusedViewMeans(p, now);
    WakeUp.ReconciledKeeps(p, now);
    WakeUp.FocusAfterLay(p, now);
    AdvancedKeeps(p, now);
    ShareHolds(p, now);
    ChoiceMeans(a, LayoutOf(a).allowShare, now);
    if !PinHolds(p) && !SelectionHolds(p) {
      SharesAllowed(p, now);
    }
    PlanFollowsFocus(p, now);
  }

  lemma AdvancedKeeps(p: Policy, now: int)
    ensures var a := Advanced(p, now); WakeUp.SameInputs(p, a) && a.focus == p.focus
    ensures var a := Advanced(p, now);
      && (PinHolds(a) <==> PinHolds(p)) && (SelectionHolds(a) <==> SelectionHolds(p)) && (FreeFocus(a) <==> FreeFocus(p))
  {
    hide Advance, RefreshShare, NamesSeat, NamesShare;
  }

  /** Only a grid that a pin or a selection turned into a focused layout ignores the detected share. */
  lemma SharesAllowed(p: Policy, now: int)
    requires CatalogOk(p.catalog) && AroundFocus(p) && !PinHolds(p) && !SelectionHolds(p)
    requires WakeUp.FocusedView(p, now)
    ensures LayoutOf(Advanced(p, now)).allowShare
  {
    hide CatalogOk, Advance, RefreshShare, OrderedSeats, IsAutoShare, ResolveSeat, ResolveTrack, NamesSeat, NamesShare,
         SomebodyShares;
    HoldsMeans(p);
  }

  lemma ArrangeKeepsFocus(p: Policy, plan: Plan, seats: seq<Candidate>, mode: LayoutMode, focus: Focus)
    requires plan.seats == []
    ensures Arrange(p, plan, seats, mode, focus).1.focused == focus.key
  {
    hide BuildPip, BuildSidebar, Without, ReasonForFocus, Layouts.SidebarPlanned, Layouts.PipPlanned;
    if focus.key.Some? && SeatIndex(seats, focus.key.value) < |seats| {
      var draft, main := plan.(mode := mode, focused := focus.key), seats[SeatIndex(seats, focus.key.value)];
      Layouts.PipMakes(p, draft, main, Without(seats, main.key), focus.origin);
      var start := Layouts.SidebarMakes(p, draft, main, Without(seats, main.key), focus.origin);
    }
  }

  lemma PlanFollowsFocus(p: Policy, now: int)
    requires p.accepting && WakeUp.FocusedView(p, now)
    ensures Reconciled(p, now).plan.focused == Reconciled(p, now).focus.key
  {
    WakeUp.BuildKeepsInputs(p, now);
    WakeUp.SamePlanExact(BuildPlan(p, now).1, p.plan);
    hide Advanced, FocusFor, OrderedSeats, SelectedAudio, ResolveTrack, LayoutOf, Arrange, SamePlan;
    var a := Advanced(p, now);
    var plan := WakeUp.Header(p, ResolveTrack(p.catalog, a.speech.stable, Some(Camera)));
    ArrangeKeepsFocus(a, plan, OrderedSeats(a.catalog), LayoutOf(a).mode, FocusFor(a, OrderedSeats(a.catalog), LayoutOf(a).allowShare, now));
  }

  // ------------------------------------------------------------------------
  // Due times.
  // ------------------------------------------------------------------------

  /** A candidate with a camera that is not stable yet is due when its delay is over. */
  ghost predicate CandidateWaits(p: Policy)
  {
    && p.speech.candidate.Some? && p.speech.since.Some? && p.speech.candidate != p.speech.stable
    && NamesCamera(p.catalog, p.speech.candidate.value)
  }

  /** The present focus stands in the way of the stable speaker. */
  ghost predicate FocusWaits(p: Policy)
  {
    SpeakerHolds(p.catalog, p.speech.stable) && FreeFocus(p) && p.focus.since.Some? && p.focus.key != p.speech.stable
  }

  /** The wake-up time: the end of the delay or of the residence, whichever is sooner, but not in the past. */
  lemma WakeUpMeans(p: Policy, now: int)
    requires CatalogOk(p.catalog) && p.accepting
    ensures var next := NextReconcileAt(p, now);
      var a := if CandidateWaits(p) then Some(p.speech.since.value + p.config.candidateDelay) else None;
      var b := if FocusWaits(p) then Some(p.focus.since.value + p.config.minimumResidence) else None;
      && (a.None? && b.None? <==> next.None?)
      && (next.Some? ==>
            && next.value >= now
            && (a.Some? ==> next.value <= Latest(now, a.value)) && (b.Some? ==> next.value <= Latest(now, b.value))
            && ((a.Some? && next.value == Latest(now, a.value)) || (b.Some? && next.value == Latest(now, b.value))))
  {
    hide CatalogOk, ResolveSeat, ResolveTrack, NamesSeat, NamesCamera;
    NothingNamed(p.catalog);
    if p.focus.key.Some? {
      SeatMeans(p.catalog, p.focus.key.value);
    }
    if p.speech.stable.Some? {
      TrackMeans(p.catalog, p.speech.stable.value);
    }
    if p.speech.candidate.Some? {
      TrackMeans(p.catalog, p.speech.candidate.value);
    }
  }

  function Latest(a: int, b: int): int { if a >= b then a else b }
}
