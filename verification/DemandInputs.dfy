/**
 What any operation does to the inputs and the memory of the policy: stale inputs
 are refused, the plan revision counts real changes, and no key outlives the
 generation it belongs to (src/core/video_demand_policy.cpp:71-175, 206-232).
 */
module DemandInputs {
  import opened Common
  import opened ParticipantEvents
  import opened DemandTypes
  import opened DemandPolicy
  import opened DemandSeats
  import opened DemandMeaning
  import Catalogs
  import WakeUp

  /** Later in the order of generations, then revisions. */
  predicate Later(a: Catalog, b: Catalog)
    requires a.Some? && b.Some?
  {
    b.value.generation > a.value.generation
    || (b.value.generation == a.value.generation && b.value.revision > a.value.revision)
  }

  /**
   A catalog is only replaced by a later one, a viewport only by one of a later
   revision, and only a retirement takes the catalog away.
   */
  lemma InputsOnlyAdvance(p: Policy, op: Op)
    ensures var q := Step(p, op);
      && q.session == p.session && q.config == p.config
      && (p.catalog.Some? && q.catalog.Some? && q.catalog != p.catalog ==> Later(p.catalog, q.catalog))
      && (p.catalog.Some? && q.catalog.None? ==> op.Retire? && !q.accepting)
      && (p.hasViewport ==> q.hasViewport && (q.viewport != p.viewport ==> q.viewport.viewRevision > p.viewport.viewRevision))
      && (p.viewport.session == p.session ==> q.viewport.session == q.session)
  {
    match op
    case Reconcile(now) => WakeUp.BuildKeepsInputs(p, now); ViewportStays(p, now); hide BuildPlan, SamePlan;
    case _ => hide Advance, SamePlan;
  }

  // ------------------------------------------------------------------------
  // What is taken, and what it leaves.
  // ------------------------------------------------------------------------

  /** A policy shows at most sixteen seats, whatever it is configured with, and starts with a usable page size. */
  lemma ConfigMeans(session: nat, config: Config)
    ensures var c := Initial(session, config).config;
      && c.videoBudget <= 16 && (config.videoBudget <= 16 ==> c.videoBudget == config.videoBudget)
      && (config.videoBudget > 16 ==> c.videoBudget == 16)
      && (config.defaultPageSize in {4, 9, 16} ==> c.defaultPageSize == config.defaultPageSize)
      && (config.defaultPageSize !in {4, 9, 16} ==> c.defaultPageSize == 9)
      && c.sidebarLimit == config.sidebarLimit && c.candidateDelay == config.candidateDelay
      && c.minimumResidence == config.minimumResidence
  {
  }

  /** A page size of four, nine or sixteen is taken as it is, any other as the default. */
  lemma PageSizeMeans(requested: nat, default: nat)
    ensures var size := NormalizePageSize(requested, default);
      && (requested == 4 || requested == 9 || requested == 16 ==> size == requested)
      && (requested != 4 && requested != 9 && requested != 16 ==>
            size == if default == 4 || default == 9 || default == 16 then default else 9)
  {
  }

  /**
   A catalog is taken exactly when the policy accepts, it is of this session and of
   some generation, and it is later than the present one. A new generation forgets
   whom and what the old one knew; nothing else moves.
   */
  lemma CatalogTakenExactly(p: Policy, s: Catalogs.Snapshot)
    ensures var q := Step(p, UpdateCatalog(s));
      var fits := p.accepting && s.session == p.session && s.generation > 0 && (p.catalog.Some? ==> Later(p.catalog, Some(s)));
      && (!fits ==> q == p)
      && (fits ==> q.catalog == Some(s))
      && (fits && p.catalog.Some? && s.generation > p.catalog.value.generation ==>
            && q.speech == Speech(None, None, None) && q.autoShare.None? && q.focus == Focus(None, NoOrigin, None)
            && q.grid == p.grid.(anchor := None) && q.sidebar == p.sidebar.(anchor := None))
      && (fits && (p.catalog.None? || s.generation == p.catalog.value.generation) ==>
            q.speech == p.speech && q.autoShare == p.autoShare && q.focus == p.focus
            && q.grid == p.grid && q.sidebar == p.sidebar)
      && q.viewport == p.viewport && q.hasViewport == p.hasViewport && q.speakers == p.speakers && q.plan == p.plan
      && q.accepting == p.accepting
  {
  }

  /** The viewport asks for another page than the present one. */
  predicate TurnsPage(p: Policy, v: Viewport)
  {
    || !p.hasViewport || v.mode != p.viewport.mode || v.page != p.viewport.page
    || NormalizePageSize(v.pageSize, p.config.defaultPageSize) != NormalizePageSize(p.viewport.pageSize, p.config.defaultPageSize)
  }

  /** What a viewport leaves of the page it is about. */
  predicate PageLeft(v: Viewport, turned: bool, before: PageState, after: PageState, size: nat)
  {
    if v.pageAnchor.Some? then after == PageState(v.page, size, v.pageAnchor)
    else after == before.(anchor := if turned then None else before.anchor)
  }

  /**
   A viewport is taken exactly when the policy accepts, it is of this session, and
   it is newer than the present one or repeats it. It is about the sidebar in
   speaker mode and about the grid in any other; nothing else moves.
   */
  lemma ViewportTakenExactly(p: Policy, v: Viewport)
    ensures var q := Step(p, UpdateViewport(v));
      var fits := p.accepting && v.session == p.session
        && (!p.hasViewport || v.viewRevision > p.viewport.viewRevision || v == p.viewport);
      && (!fits ==> q == p)
      && (fits ==>
            && q.viewport == v && q.hasViewport
            && q == p.(viewport := v, hasViewport := true, grid := q.grid, sidebar := q.sidebar)
            && if v.mode == SpeakerView then
                 q.grid == p.grid && PageLeft(v, TurnsPage(p, v), p.sidebar, q.sidebar, p.config.sidebarLimit)
               else
                 && q.sidebar == p.sidebar
                 && PageLeft(v, TurnsPage(p, v), p.grid, q.grid, NormalizePageSize(v.pageSize, p.config.defaultPageSize)))
  {
  }

  lemma SpeakersTakenExactly(p: Policy, speakers: seq<Speaker>, now: int)
    requires CatalogOk(p.catalog)
    ensures var q := Step(p, UpdateSpeakers(speakers, now));
      if !p.accepting then q == p
      else
        && q == p.(speakers := speakers, speech := q.speech)
        && Hears(p.catalog, speakers, p.speech, q.speech, now, p.config.candidateDelay)
  {
    SpeechMeans(p.catalog, speakers, p.speech, now, p.config.candidateDelay);
    hide CatalogOk, Advance, Hears;
  }

  lemma ViewportStays(p: Policy, now: int)
    ensures BuildPlan(p, now).0.hasViewport == p.hasViewport
  {
    hide BuildGrid, Arrange, ChooseFocus, LayoutOf, OrderedSeats, Advance, RefreshShare;
  }

  /** The policy revision rises, by one, exactly when the published plan changes in anything else. */
  lemma RevisionCountsChanges(p: Policy, op: Op)
    ensures var q := Step(p, op);
      q.plan.policyRevision == p.plan.policyRevision + if SamePlan(q.plan, p.plan) then 0 else 1
  {
    WakeUp.SamePlanExact(p.plan, p.plan);
    match op
    case Reconcile(now) =>
      WakeUp.BuildKeepsInputs(p, now);
      var next := BuildPlan(p, now).1;
      WakeUp.SamePlanExact(next, p.plan);
      WakeUp.SamePlanExact(next.(policyRevision := p.plan.policyRevision + 1), p.plan);
      hide BuildPlan, SamePlan;
    case Retire =>
      var stopped := EmptyPlan(p).(policyRevision := p.plan.policyRevision);
      WakeUp.SamePlanExact(stopped, p.plan);
      WakeUp.SamePlanExact(stopped.(policyRevision := p.plan.policyRevision + 1), p.plan);
      hide SamePlan;
    case _ => hide Advance, SamePlan;
  }

  /** After a retirement nothing moves any more. */
  lemma RetiredIsFinal(p: Policy, op: Op)
    requires p.accepting
    ensures var q := Step(p, Retire);
      && !q.accepting && q.catalog.None?
      && q.plan.seats == [] && q.plan.selectedVideo == [] && q.plan.selectedAudio == [] && q.plan.focused.None?
      && q.speakers == [] && q.speech == Speech(None, None, None) && q.autoShare.None?
      && q.focus.key.None? && q.focus.since.None? && q.grid.anchor.None? && q.sidebar.anchor.None?
      && Step(q, op) == q
      && forall now :: NextReconcileAt(q, now).None?
  {
    hide SamePlan;
  }

  // ------------------------------------------------------------------------
  // Keys do not outlive their generation.
  // ------------------------------------------------------------------------

  predicate OfGeneration(key: Option<TrackKey>, c: Catalog)
  {
    key.Some? ==> c.Some? && key.value.participant.generation == c.value.generation
  }

  /** Candidate, stable speaker, share and focus all belong to the generation of the catalog. */
  predicate KeysCurrent(p: Policy)
  {
    && OfGeneration(p.speech.candidate, p.catalog) && OfGeneration(p.speech.stable, p.catalog)
    && OfGeneration(p.autoShare, p.catalog) && OfGeneration(p.focus.key, p.catalog)
  }

  lemma ResolvedIsCurrent(c: Catalog, key: Option<TrackKey>)
    requires CatalogOk(c)
    ensures forall source :: OfGeneration(ResolveTrack(c, key, source), c)
    ensures OfGeneration(ResolveSeat(c, key), c)
    ensures key.Some? && IsAutoShare(c, key.value) ==> OfGeneration(key, c)
  {
    SeatsFind(c);
    hide OrderedSeats, CatalogOk;
  }

  lemma ChoicesAreCurrent(c: Catalog, speakers: seq<Speaker>)
    requires CatalogOk(c)
    ensures OfGeneration(SpeakerCamera(c, speakers), c)
    ensures OfGeneration(FirstShare(OrderedSeats(c)), c)
  {
    SpeakerCameraResolves(c, speakers);
    FirstShareIsShare(c, OrderedSeats(c));
    ResolvedIsCurrent(c, SpeakerCamera(c, speakers));
    ResolvedIsCurrent(c, FirstShare(OrderedSeats(c)));
    hide OrderedSeats, CatalogOk, SpeakerCamera, FirstShare;
  }

  lemma SpeechIsCurrent(c: Catalog, speakers: seq<Speaker>, s: Speech, now: int, delay: int)
    requires CatalogOk(c) && OfGeneration(s.candidate, c) && OfGeneration(s.stable, c)
    ensures var s' := Advance(c, speakers, s, now, delay); OfGeneration(s'.candidate, c) && OfGeneration(s'.stable, c)
  {
    hide OrderedSeats, CatalogOk, SpeakerCamera, FirstShare, IsAutoShare, Find;
    ChoicesAreCurrent(c, speakers);
  }

  lemma AdvancedIsCurrent(p: Policy, now: int)
    requires CatalogOk(p.catalog) && KeysCurrent(p)
    ensures KeysCurrent(Advanced(p, now))
  {
    hide OrderedSeats, CatalogOk, FirstShare, IsAutoShare, Find, Advance;
    SpeechIsCurrent(p.catalog, p.speakers, p.speech, now, p.config.candidateDelay);
    ChoicesAreCurrent(p.catalog, p.speakers);
  }

  lemma ForcedIsCurrent(c: Catalog, v: Viewport, share: Option<TrackKey>, allowShare: bool)
    requires CatalogOk(c)
    ensures OfGeneration(Forced(c, v, share, allowShare).0, c)
  {
    hide OrderedSeats, CatalogOk, ResolveSeat, ResolveTrack, IsAutoShare, Find;
    ResolvedIsCurrent(c, v.pinned);
    ResolvedIsCurrent(c, v.selectedShare);
    ResolvedIsCurrent(c, share);
  }

  lemma FirstSeatIsCurrent(c: Catalog)
    requires CatalogOk(c) && OrderedSeats(c) != []
    ensures OfGeneration(Some(OrderedSeats(c)[0].key), c)
  {
    SeatsFind(c);
    assert OrderedSeats(c)[0] in OrderedSeats(c);
  }

  lemma FocusIsCurrent(p: Policy, allowShare: bool, now: int)
    requires CatalogOk(p.catalog) && KeysCurrent(p)
    ensures OfGeneration(FocusFor(p, OrderedSeats(p.catalog), allowShare, now).key, p.catalog)
  {
    hide OrderedSeats, CatalogOk, ResolveSeat, ResolveTrack, Forced;
    ForcedIsCurrent(p.catalog, p.viewport, p.autoShare, allowShare);
    ResolvedIsCurrent(p.catalog, p.speech.stable);
    if OrderedSeats(p.catalog) != [] {
      FirstSeatIsCurrent(p.catalog);
    }
  }

  lemma LayIsCurrent(p: Policy, plan: Plan, now: int)
    requires CatalogOk(p.catalog) && KeysCurrent(p)
    ensures KeysCurrent(Lay(p, plan, now).0)
  {
    hide FocusFor, OrderedSeats, CatalogOk, LayoutOf, Arrange, BuildGrid;
    FocusIsCurrent(p, true, now);
    FocusIsCurrent(p, false, now);
    WakeUp.LayKeepsInputs(p, plan, now);
  }

  lemma BuiltIsCurrent(p: Policy, now: int)
    requires CatalogOk(p.catalog) && KeysCurrent(p)
    ensures KeysCurrent(BuildPlan(p, now).0)
  {
    hide CatalogOk, Advanced, Lay, SelectedAudio, ResolveTrack, KeysCurrent;
    if p.catalog.Some? {
      AdvancedIsCurrent(p, now);
      var a := Advanced(p, now);
      assert CatalogOk(a.catalog) by { AdvancedKeepsCatalog(p, now); }
      LayIsCurrent(a, WakeUp.Header(p, ResolveTrack(p.catalog, a.speech.stable, Some(Camera))), now);
    }
  }

  lemma AdvancedKeepsCatalog(p: Policy, now: int)
    ensures Advanced(p, now).catalog == p.catalog
  {
  }

  lemma StepIsCurrent(p: Policy, op: Op)
    requires WakeUp.Ready(p) && KeysCurrent(p)
    ensures KeysCurrent(Step(p, op))
  {
    match op
    case Reconcile(now) =>
      BuiltIsCurrent(p, now);
      WakeUp.BuildKeepsInputs(p, now);
      hide BuildPlan, SamePlan, CatalogOk;
    case UpdateSpeakers(speakers, now) =>
      SpeechIsCurrent(p.catalog, speakers, p.speech, now, p.config.candidateDelay);
      hide Advance, CatalogOk;
    case _ => hide SamePlan, CatalogOk;
  }

  /** In every reachable policy all remembered keys are of the catalog's generation. */
  lemma {:induction false} RunIsCurrent(session: nat, config: Config, ops: seq<Op>)
    requires WakeUp.GoodCatalogs(ops)
    ensures KeysCurrent(WakeUp.Run(session, config, ops))
  {
    hide Step, WakeUp.Ready;
    if ops != [] {
      var before := ops[..|ops| - 1];
      assert forall op :: op in before ==> op in ops;
      RunIsCurrent(session, config, before);
      WakeUp.RunReady(session, config, before);
      hide KeysCurrent;
      StepIsCurrent(WakeUp.Run(session, config, before), ops[|ops| - 1]);
    }
  }

  // ------------------------------------------------------------------------
  // Geometry and priority.
  // ------------------------------------------------------------------------

  /** A side that fits parts times, and would not if it were any longer. */
  predicate FitsExactly(side: nat, parts: nat, total: nat) { parts * side <= total < parts * (side + 1) }

  lemma Quotient(total: nat, parts: nat)
    requires parts > 0
    ensures FitsExactly(total / parts, parts, total)
  {
    assert total == parts * (total / parts) + total % parts;
  }

  /** The tiles of a full grid page are the largest that fit the stage side by side. */
  lemma GridTilesFit(stage: Extent, size: nat) returns (columns: nat, rows: nat)
    requires size in {2, 4, 9, 16}
    ensures columns * rows == size && rows <= columns
    ensures FitsExactly(GridExtent(stage, size).width, columns, stage.width)
    ensures FitsExactly(GridExtent(stage, size).height, rows, stage.height)
  {
    columns, rows := if size <= 4 then 2 else if size == 9 then 3 else 4,
                     if size == 2 then 1 else if size == 4 then 2 else if size == 9 then 3 else 4;
    Quotient(stage.width, columns);
    Quotient(stage.height, rows);
  }

  /** Sidebar seats share a quarter of the width and all of the height, an inset has a third of both; nothing is empty. */
  lemma SmallTilesFit(stage: Extent, count: nat)
    requires count > 0
    ensures var side := SidebarExtent(stage, count);
      && side.width > 0 && (FitsExactly(side.width, 4, stage.width) || (side.width == 1 && stage.width < 4))
      && side.height > 0 && (FitsExactly(side.height, count, stage.height) || (side.height == 1 && stage.height < count))
    ensures var inset := PipExtent(stage);
      && inset.width > 0 && (FitsExactly(inset.width, 3, stage.width) || (inset.width == 1 && stage.width < 3))
      && inset.height > 0 && (FitsExactly(inset.height, 3, stage.height) || (inset.height == 1 && stage.height < 3))
  {
    Quotient(stage.height, count);
  }

  /**
   Three quarters next to the sidebar, unless tripling the width leaves 32 bits;
   both fit the stage unless it has no width at all. Alone it has the whole stage.
   */
  lemma MainWidthExact(stage: Extent)
    ensures MainExtent(stage, true).width == stage.width * 3 / 4 <==> stage.width * 3 < 0x1_0000_0000
    ensures MainExtent(stage, true).width <= stage.width * 3 / 4
    ensures MainExtent(stage, true).width + SidebarExtent(stage, 1).width <= stage.width <==> stage.width > 0
    ensures MainExtent(stage, true).height == stage.height && MainExtent(stage, false) == stage
  {
  }

  /** The narrowest stage whose width wraps around leaves the main seat without any. */
  lemma MainWidthExample() returns (stage: Extent)
    ensures stage.width == 1431655766 && MainExtent(stage, true).width == 0 && SidebarExtent(stage, 1).width == 357913941
  {
    stage := Extent(1431655766, 1000);
  }

  /** A pin outranks everything, then the roles decide, and a share beats a camera in the same role. */
  lemma PrioritiesRank(role: SeatRole, other: SeatRole, source: TrackSource, from: TrackSource, origin: Origin)
    requires origin != ByPin
    ensures PriorityFor(role, source, ByPin) > PriorityFor(other, from, origin)
    ensures PriorityFor(role, ScreenShareVideo, origin) > PriorityFor(role, Camera, origin)
    ensures PriorityFor(MainSeat, source, origin) > PriorityFor(PipSeat, from, origin)
    ensures PriorityFor(PipSeat, source, origin) > PriorityFor(SidebarSeat, from, origin)
    ensures PriorityFor(SidebarSeat, source, origin) > PriorityFor(GridSeat, source, origin)
  {
  }
}
