/**
 The remote-video policy: which publications are shown, and when the decision
 can next change by itself (src/core/video_demand_policy.cpp). Times and delays
 are integers.
 */
module DemandPolicy {
  import opened Common
  import opened ParticipantEvents
  import opened DemandTypes
  import Catalogs

  type Catalog = Option<Catalogs.Snapshot>

  datatype Config = Config(
    videoBudget: nat,
    defaultPageSize: nat,
    sidebarLimit: nat,
    candidateDelay: int,
    minimumResidence: int)

  datatype Origin = NoOrigin | ByPin | BySelectedShare | ByAutoShare | BySpeaker | ByFallback

  datatype Speech = Speech(candidate: Option<TrackKey>, since: Option<int>, stable: Option<TrackKey>)

  datatype Focus = Focus(key: Option<TrackKey>, origin: Origin, since: Option<int>)

  datatype PageState = PageState(requested: nat, size: nat, anchor: Option<TrackKey>)

  datatype Policy = Policy(
    session: nat,
    config: Config,
    accepting: bool,
    catalog: Catalog,
    viewport: Viewport,
    hasViewport: bool,
    speakers: seq<Speaker>,
    speech: Speech,
    autoShare: Option<TrackKey>,
    focus: Focus,
    grid: PageState,
    sidebar: PageState,
    plan: Plan)

  const SILENCE := Speech(None, None, None)
  const NO_FOCUS := Focus(None, NoOrigin, None)

  // ------------------------------------------------------------------------
  // Seats in display order.
  // ------------------------------------------------------------------------

  datatype Candidate = Candidate(key: TrackKey, source: TrackSource, publication: Option<Catalogs.Publication>)

  function SourceOrder(source: TrackSource): nat
  {
    match source
    case Camera => 0
    case ScreenShareVideo => 1
    case _ => 2
  }

  predicate StringLess(a: string, b: string)
  {
    b != [] && (a == [] || a[0] < b[0] || (a[0] == b[0] && StringLess(a[1..], b[1..])))
  }

  /** The strict order the publications of one participant are sorted by. */
  predicate Precedes(a: Catalogs.Publication, b: Catalogs.Publication)
  {
    var x, y := SourceOrder(a.state.source), SourceOrder(b.state.source);
    x < y || (x == y && StringLess(a.key.sid, b.key.sid))
  }

  function Insert(sorted: seq<Catalogs.Publication>, p: Catalogs.Publication): (r: seq<Catalogs.Publication>)
    ensures |r| == |sorted| + 1
  {
    if sorted != [] && Precedes(p, sorted[|sorted| - 1]) then
      Insert(sorted[..|sorted| - 1], p) + [sorted[|sorted| - 1]]
    else sorted + [p]
  }

  /** A stable sort: an element passes only those it strictly precedes. */
  function StableSort(pubs: seq<Catalogs.Publication>): (r: seq<Catalogs.Publication>)
    ensures |r| == |pubs|
  {
    if pubs == [] then [] else Insert(StableSort(pubs[..|pubs| - 1]), pubs[|pubs| - 1])
  }

  predicate IsVideoOf(generation: nat, p: Catalogs.Publication)
  {
    p.state.kind == Video && p.key.participant.generation == generation
  }

  function VideosOf(generation: nat, pubs: seq<Catalogs.Publication>): seq<Catalogs.Publication>
  {
    if pubs == [] then []
    else
      var rest := VideosOf(generation, pubs[..|pubs| - 1]);
      if IsVideoOf(generation, pubs[|pubs| - 1]) then rest + [pubs[|pubs| - 1]] else rest
  }

  function SeatOf(p: Catalogs.Publication): Candidate { Candidate(p.key, p.state.source, Some(p)) }

  function SeatsOfAll(pubs: seq<Catalogs.Publication>): (r: seq<Candidate>)
    ensures |r| == |pubs|
    ensures forall i :: 0 <= i < |pubs| ==> r[i] == SeatOf(pubs[i])
  {
    if pubs == [] then [] else SeatsOfAll(pubs[..|pubs| - 1]) + [SeatOf(pubs[|pubs| - 1])]
  }

  function Placeholder(key: ParticipantKey): Candidate { Candidate(TrackKey(key, 0, ""), Camera, None) }

  function SeatsOf(generation: nat, p: Catalogs.Participant): seq<Candidate>
  {
    var videos := StableSort(VideosOf(generation, p.publications));
    if p.key.generation != generation then []
    else if videos == [] then [Placeholder(p.key)]
    else SeatsOfAll(videos)
  }

  function SeatsOfParticipants(generation: nat, ps: seq<Catalogs.Participant>): seq<Candidate>
  {
    if ps == [] then []
    else SeatsOfParticipants(generation, ps[..|ps| - 1]) + SeatsOf(generation, ps[|ps| - 1])
  }

  function OrderedSeats(c: Catalog): seq<Candidate>
  {
    if c.None? then [] else SeatsOfParticipants(c.value.generation, c.value.participants)
  }

  predicate Demandable(p: Catalogs.Publication)
  {
    p.state.kind == Video && p.state.subscriptionAllowed && !p.state.muted
  }

  function AudioOf(generation: nat, pubs: seq<Catalogs.Publication>, found: seq<TrackKey>): seq<TrackKey>
  {
    if pubs == [] then found
    else
      var before, p := AudioOf(generation, pubs[..|pubs| - 1], found), pubs[|pubs| - 1];
      if p.state.kind == Audio && p.state.subscriptionAllowed && p.key.participant.generation == generation
        && p.key !in before
      then before + [p.key] else before
  }

  function AudioOfParticipants(generation: nat, ps: seq<Catalogs.Participant>): seq<TrackKey>
  {
    if ps == [] then []
    else AudioOf(generation, ps[|ps| - 1].publications, AudioOfParticipants(generation, ps[..|ps| - 1]))
  }

  function SelectedAudio(c: Catalog): seq<TrackKey>
  {
    if c.None? then [] else AudioOfParticipants(c.value.generation, c.value.participants)
  }

  // ------------------------------------------------------------------------
  // Resolving keys against the catalog.
  // ------------------------------------------------------------------------

  function Find(c: Catalog, key: TrackKey): (found: Option<Catalogs.Publication>)
    ensures found.Some? ==> found.value.key == key
  {
    if c.None? || key.participant.generation != c.value.generation then None
    else Catalogs.Find(c.value.participants, key)
  }

  /** The key, if it names a video publication of the wanted source. */
  function ResolveTrack(c: Catalog, key: Option<TrackKey>, source: Option<TrackSource>): (r: Option<TrackKey>)
    ensures r.Some? ==> r == key
  {
    if key.None? then None
    else
      var found := Find(c, key.value);
      if found.None? || found.value.state.kind != Video || (source.Some? && found.value.state.source != source.value)
      then None else Some(found.value.key)
  }

  /** The position of the first candidate with this key, or the length. */
  function SeatIndex(seats: seq<Candidate>, key: TrackKey): (i: nat)
    ensures i <= |seats|
    ensures i < |seats| ==> seats[i].key == key
    ensures forall j :: 0 <= j < i ==> seats[j].key != key
  {
    if seats == [] || seats[0].key == key then 0 else 1 + SeatIndex(seats[1..], key)
  }

  function ResolveSeat(c: Catalog, key: Option<TrackKey>): (r: Option<TrackKey>)
    ensures r.Some? ==> r == key
  {
    if key.None? then None
    else if key.value.sid != "" then ResolveTrack(c, key, None)
    else if SeatIndex(OrderedSeats(c), key.value) < |OrderedSeats(c)| then key
    else None
  }

  predicate IsAutoShare(c: Catalog, key: TrackKey)
  {
    var found := Find(c, key);
    found.Some? && found.value.state.source == ScreenShareVideo && Demandable(found.value)
  }

  predicate CameraOf(who: ParticipantKey, s: Candidate)
  {
    && s.publication.Some? && s.publication.value.key.participant == who
    && s.publication.value.state.source == Camera && Demandable(s.publication.value)
  }

  function FirstCamera(who: ParticipantKey, seats: seq<Candidate>): (r: Option<TrackKey>)
  {
    if seats == [] then None
    else if CameraOf(who, seats[0]) then Some(seats[0].publication.value.key)
    else FirstCamera(who, seats[1..])
  }

  predicate Speaks(c: Catalog, s: Speaker)
  {
    !s.isLocal && s.speaking && c.Some? && s.key.generation == c.value.generation
  }

  /** The camera of the first remote speaker who has a demandable one. */
  function SpeakerCamera(c: Catalog, speakers: seq<Speaker>): Option<TrackKey>
  {
    if speakers == [] then None
    else
      var camera := if Speaks(c, speakers[0]) then FirstCamera(speakers[0].key, OrderedSeats(c)) else None;
      if camera.Some? then camera else SpeakerCamera(c, speakers[1..])
  }

  function FirstShare(seats: seq<Candidate>): Option<TrackKey>
  {
    if seats == [] then None
    else if seats[0].publication.Some? && seats[0].publication.value.state.source == ScreenShareVideo
      && Demandable(seats[0].publication.value)
    then Some(seats[0].publication.value.key)
    else FirstShare(seats[1..])
  }

  // ------------------------------------------------------------------------
  // Speaker, share and focus.
  // ------------------------------------------------------------------------

  function Advance(c: Catalog, speakers: seq<Speaker>, s: Speech, now: int, delay: int): Speech
  {
    var resolved := SpeakerCamera(c, speakers);
    if resolved != s.candidate then
      Speech(resolved, if resolved.Some? then Some(now) else None, if resolved.None? then None else s.stable)
    else if s.candidate.None? || s.since.None? then s.(stable := None)
    else
      var stable := if now - s.since.value >= delay then s.candidate else s.stable;
      s.(stable := if stable.Some? && Find(c, stable.value).None? then None else stable)
  }

  function RefreshShare(c: Catalog, current: Option<TrackKey>): Option<TrackKey>
  {
    if current.Some? && IsAutoShare(c, current.value) then current else FirstShare(OrderedSeats(c))
  }

  predicate Override(origin: Origin) { origin in {ByPin, BySelectedShare, ByAutoShare} }

  function SetFocus(f: Focus, key: Option<TrackKey>, origin: Origin, now: int): Focus
  {
    if key.None? then NO_FOCUS else Focus(key, origin, if f.key != key then Some(now) else f.since)
  }

  /** The keys a viewport and the share detection force into focus, strongest first. */
  function Forced(c: Catalog, v: Viewport, share: Option<TrackKey>, allowShare: bool): (Option<TrackKey>, Origin)
  {
    var pinned := ResolveSeat(c, v.pinned);
    var selected := ResolveTrack(c, v.selectedShare, Some(ScreenShareVideo));
    if pinned.Some? then (pinned, ByPin)
    else if selected.Some? then (selected, BySelectedShare)
    else if allowShare && share.Some? && IsAutoShare(c, share.value) then (share, ByAutoShare)
    else (None, NoOrigin)
  }

  function ChooseFocus(c: Catalog, v: Viewport, stableKey: Option<TrackKey>, share: Option<TrackKey>, allowShare: bool,
                       seats: seq<Candidate>, f: Focus, now: int, residence: int): Focus
  {
    var (forced, origin) := Forced(c, v, share, allowShare);
    var valid := ResolveSeat(c, f.key).Some?;
    var stable := ResolveTrack(c, stableKey, Some(Camera));
    if forced.Some? then SetFocus(f, forced, origin, now)
    else if stable.Some? then
      if f.key == stable then f.(origin := BySpeaker)
      else if valid && !Override(f.origin) && f.since.Some? && now - f.since.value < residence then f
      else SetFocus(f, stable, BySpeaker, now)
    else if valid && !Override(f.origin) then f
    else if seats != [] then SetFocus(f, Some(seats[0].key), ByFallback, now)
    else SetFocus(f, None, NoOrigin, now)
  }

  // ------------------------------------------------------------------------
  // Laying out.
  // ------------------------------------------------------------------------

  function CeilDiv(count: nat, size: nat): (pages: nat)
    ensures pages >= 1
  {
    if size == 0 || count == 0 then 1 else (count + size - 1) / size
  }

  function NormalizePageSize(requested: nat, default: nat): nat
  {
    if requested in {4, 9, 16} then requested else if default in {4, 9, 16} then default else 9
  }

  /** The page state and first index after asking for a page: an anchor that is still there decides. */
  function Paged(ps: PageState, seats: seq<Candidate>, page: nat, size: nat, shown: nat, start: nat): (PageState, nat)
  {
    var kept := if ps.requested != page || ps.size != size || shown != page then None else ps.anchor;
    var at := if kept.Some? then SeatIndex(seats, kept.value) else |seats|;
    if at < |seats| then (PageState(page, size, kept), at)
    else (PageState(page, size, if start < |seats| then Some(seats[start].key) else None), start)
  }

  function GridExtent(stage: Extent, size: nat): Extent
  {
    var columns := if size == 2 || size <= 4 then 2 else if size <= 9 then 3 else 4;
    var rows := if size == 2 then 1 else columns;
    Extent(stage.width / columns, stage.height / rows)
  }

  /** Three quarters are computed in 32 bits, so very wide stages wrap around. */
  function MainExtent(stage: Extent, hasSidebar: bool): Extent
  {
    Extent(if hasSidebar then (stage.width * 3) % 0x1_0000_0000 / 4 else stage.width, stage.height)
  }

  function AtLeastOne(x: U32): U32 { if x == 0 then 1 else x }

  function SidebarExtent(stage: Extent, count: nat): Extent
  {
    if count == 0 then Extent(0, 0) else Extent(AtLeastOne(stage.width / 4), AtLeastOne(stage.height / count))
  }

  function PipExtent(stage: Extent): Extent
  {
    Extent(AtLeastOne(stage.width / 3), AtLeastOne(stage.height / 3))
  }

  function ReasonForFocus(origin: Origin, source: TrackSource): Reason
  {
    match origin
    case ByPin => Pinned
    case BySelectedShare | ByAutoShare => ScreenShare
    case BySpeaker => ActiveSpeaker
    case _ => if source == ScreenShareVideo then ScreenShare else Visible
  }

  function QualityFor(width: nat, height: nat): Quality
  {
    if width == 0 || height == 0 then NoVideo
    else if height <= 180 then P180
    else if height <= 360 then P360
    else if height <= 720 then P720
    else P1080
  }

  function PriorityFor(role: SeatRole, source: TrackSource, origin: Origin): nat
  {
    if origin == ByPin then 500
    else
      (match role case GridSeat => 100 case SidebarSeat => 120 case PipSeat => 200 case MainSeat => 400)
      + (if source == ScreenShareVideo then 50 else 0)
  }

  function MakeSeat(s: Candidate, role: SeatRole, extent: Extent, origin: Origin): Seat
  {
    var reason := ReasonForFocus(origin, s.source);
    if s.publication.None? then Seat(s.key, s.source, role, 0, 0, NoVideo, 0, reason, NoError)
    else
      var state := s.publication.value.state;
      var big := role == MainSeat;
      var width := Min(extent.width, if !big then 640 else if state.source == ScreenShareVideo then 1920 else 1280);
      var height := Min(extent.height, if !big then 360 else if state.source == ScreenShareVideo then 1080 else 720);
      Seat(s.key, s.source, role, width, height, QualityFor(width, height), PriorityFor(role, state.source, origin),
           if !state.subscriptionAllowed then PermissionDenied else if state.muted then Muted else reason,
           state.subscriptionError)
  }

  function AddSeat(budget: nat, plan: Plan, s: Candidate, role: SeatRole, extent: Extent, origin: Origin): Plan
  {
    if |plan.seats| >= budget then plan
    else
      var seat := MakeSeat(s, role, extent, origin);
      var selects := s.publication.Some? && Demandable(s.publication.value) && seat.width != 0 && seat.height != 0
        && |plan.selectedVideo| < budget && s.publication.value.key !in plan.selectedVideo;
      plan.(seats := plan.seats + [seat],
            selectedVideo := if selects then plan.selectedVideo + [s.publication.value.key] else plan.selectedVideo)
  }

  function AddSeats(budget: nat, plan: Plan, seats: seq<Candidate>, role: SeatRole, extent: Extent): Plan
  {
    if seats == [] then plan
    else AddSeat(budget, AddSeats(budget, plan, seats[..|seats| - 1], role, extent), seats[|seats| - 1], role, extent, NoOrigin)
  }

  function BuildGrid(p: Policy, plan: Plan, seats: seq<Candidate>, size: nat, paging: bool): (PageState, Plan)
    requires size > 0
  {
    var count := if paging then CeilDiv(|seats|, size) else 1;
    var shown := if paging then Min(p.viewport.page, count - 1) else 0;
    var (grid, start) := if paging then Paged(p.grid, seats, p.viewport.page, size, shown, shown * size) else (p.grid, 0);
    var limit := Min(|seats|, start + Min(size, p.config.videoBudget));
    var sized := plan.(pageSize := size, pageCount := count, page := shown);
    var window := if start <= limit then seats[start..limit] else [];
    (grid, AddSeats(p.config.videoBudget, sized, window, GridSeat, GridExtent(p.viewport.stage, size)).(reason := Visible))
  }

  function Without(seats: seq<Candidate>, key: TrackKey): seq<Candidate>
  {
    if seats == [] then []
    else
      var rest := Without(seats[..|seats| - 1], key);
      if seats[|seats| - 1].key != key then rest + [seats[|seats| - 1]] else rest
  }

  function BuildPip(p: Policy, plan: Plan, main: Candidate, other: seq<Candidate>, origin: Origin): Plan
  {
    var budget, stage := p.config.videoBudget, p.viewport.stage;
    var hasPip := other != [] && budget > 1;
    var first := AddSeat(budget, plan, main, MainSeat, MainExtent(stage, false), origin);
    var both := if hasPip then AddSeat(budget, first, other[0], PipSeat, PipExtent(stage), NoOrigin) else first;
    both.(page := 0, pageSize := if hasPip then 1 else 0, pageCount := 1)
  }

  function SideLimit(c: Config): nat
  {
    if c.videoBudget > 1 then Min(c.sidebarLimit, c.videoBudget - 1) else 0
  }

  function BuildSidebar(p: Policy, plan: Plan, main: Candidate, other: seq<Candidate>, origin: Origin): (PageState, Plan)
  {
    var budget, stage, limit := p.config.videoBudget, p.viewport.stage, SideLimit(p.config);
    var count := CeilDiv(|other|, if limit == 0 then 1 else limit);
    var shown := Min(p.viewport.page, count - 1);
    var (sidebar, start) := Paged(p.sidebar, other, p.viewport.page, limit, shown, shown * limit);
    var side := Min(limit, if start < |other| then |other| - start else 0);
    var sized := plan.(pageSize := limit, pageCount := count, page := shown);
    var first := AddSeat(budget, sized, main, MainSeat, MainExtent(stage, side != 0), origin);
    var window := if start + side <= |other| then other[start..start + side] else [];
    (sidebar, AddSeats(budget, first, window, SidebarSeat, SidebarExtent(stage, side)))
  }

  /** The seats around a focus that is already chosen. */
  function Arrange(p: Policy, plan: Plan, seats: seq<Candidate>, mode: LayoutMode, focus: Focus): (PageState, Plan)
  {
    var plan' := plan.(mode := mode, focused := focus.key);
    if focus.key.None? then (p.sidebar, plan'.(reason := Visible))
    else
      var at := SeatIndex(seats, focus.key.value);
      if at == |seats| then (p.sidebar, plan')
      else
        var main, other := seats[at], Without(seats, seats[at].key);
        var (sidebar, built) :=
          if mode == PictureInPicture then (p.sidebar, BuildPip(p, plan', main, other, focus.origin))
          else BuildSidebar(p, plan', main, other, focus.origin);
        (sidebar, built.(reason := ReasonForFocus(focus.origin, main.source)))
  }

  function FocusFor(p: Policy, seats: seq<Candidate>, allowShare: bool, now: int): Focus
  {
    ChooseFocus(p.catalog, p.viewport, p.speech.stable, p.autoShare, allowShare, seats, p.focus, now,
                p.config.minimumResidence)
  }

  function BuildFocused(p: Policy, plan: Plan, seats: seq<Candidate>, mode: LayoutMode, allowShare: bool, now: int)
    : (Policy, Plan)
  {
    var focus := FocusFor(p, seats, allowShare, now);
    var (sidebar, built) := Arrange(p, plan, seats, mode, focus);
    (p.(focus := focus, sidebar := sidebar), built)
  }

  function EmptyPlan(p: Policy): Plan
  {
    Plan(p.session, 0, 0, p.viewport.mode, p.viewport.mode, p.viewport.content, 0, 0, 1, None, None, [], [], [], Hidden)
  }

  /** The part of the policy that time and the catalog move before a layout is chosen. */
  function Advanced(p: Policy, now: int): Policy
  {
    p.(speech := Advance(p.catalog, p.speakers, p.speech, now, p.config.candidateDelay),
       autoShare := RefreshShare(p.catalog, p.autoShare))
  }

  predicate NothingVisible(v: Viewport)
  {
    !v.windowVisible || v.minimized || v.stage.width == 0 || v.stage.height == 0
  }

  /** Which builder a visible video stage uses. */
  datatype Layout = FocusedLayout(mode: LayoutMode, allowShare: bool) | SmallGrid | PagedGrid(mode: LayoutMode)

  function LayoutOf(p: Policy): Layout
  {
    var v, c := p.viewport, p.catalog;
    var forced := ResolveSeat(c, v.pinned).Some? || ResolveTrack(c, v.selectedShare, Some(ScreenShareVideo)).Some?;
    var share := p.autoShare.Some? && IsAutoShare(c, p.autoShare.value);
    if v.mode == PictureInPicture then FocusedLayout(PictureInPicture, true)
    else if v.mode == SpeakerView || forced || (v.mode == Auto && share) then FocusedLayout(SpeakerView, v.mode != Grid)
    else if v.mode == Auto && |OrderedSeats(c)| <= 2 then SmallGrid
    else PagedGrid(if v.mode == Auto then Grid else v.mode)
  }

  function Lay(p: Policy, plan: Plan, now: int): (Policy, Plan)
  {
    var seats := OrderedSeats(p.catalog);
    match LayoutOf(p)
    case FocusedLayout(mode, allowShare) => BuildFocused(p, plan, seats, mode, allowShare, now)
    case SmallGrid =>
      var (grid, built) := BuildGrid(p, plan.(mode := Auto), seats, 2, false);
      (p.(grid := grid), built)
    case PagedGrid(mode) =>
      var size := NormalizePageSize(p.viewport.pageSize, p.config.defaultPageSize);
      var (grid, built) := BuildGrid(p, plan.(mode := mode), seats, size, true);
      (p.(grid := grid), built)
  }

  function BuildPlan(p: Policy, now: int): (Policy, Plan)
  {
    if p.catalog.None? then (p, EmptyPlan(p))
    else
      var p' := Advanced(p, now);
      var plan := EmptyPlan(p).(catalogRevision := p.catalog.value.revision, selectedAudio := SelectedAudio(p.catalog),
                                stableSpeaker := ResolveTrack(p.catalog, p'.speech.stable, Some(Camera)));
      if NothingVisible(p.viewport) then (p', plan)
      else if p.viewport.content == Whiteboard then (p', plan.(reason := OnWhiteboard))
      else Lay(p', plan, now)
  }

  predicate SamePlan(a: Plan, b: Plan)
  {
    && a.session == b.session && a.catalogRevision == b.catalogRevision && a.requestedMode == b.requestedMode
    && a.mode == b.mode && a.content == b.content && a.page == b.page && a.pageSize == b.pageSize
    && a.pageCount == b.pageCount && a.focused == b.focused && a.stableSpeaker == b.stableSpeaker
    && a.reason == b.reason && a.selectedVideo == b.selectedVideo && a.selectedAudio == b.selectedAudio
    && |a.seats| == |b.seats| && forall i :: 0 <= i < |a.seats| ==> a.seats[i] == b.seats[i]
  }

  function Publish(p: Policy, next: Plan): Policy
  {
    if SamePlan(next, p.plan) then p else p.(plan := next.(policyRevision := p.plan.policyRevision + 1))
  }

  function Reconciled(p: Policy, now: int): Policy
  {
    if !p.accepting then p else var (p', next) := BuildPlan(p, now); Publish(p', next)
  }

  // ------------------------------------------------------------------------
  // The wake-up time.
  // ------------------------------------------------------------------------

  function Later(now: int, value: int): int { if value <= now then now else value }

  function Sooner(a: Option<int>, b: Option<int>): Option<int>
  {
    if a.None? then b else if b.None? then a else Some(Min(a.value, b.value))
  }

  function CandidateDue(p: Policy): Option<int>
  {
    if p.speech.candidate.Some? && p.speech.since.Some? && p.speech.candidate != p.speech.stable
      && ResolveTrack(p.catalog, p.speech.candidate, Some(Camera)).Some?
    then Some(p.speech.since.value + p.config.candidateDelay) else None
  }

  function FocusDue(p: Policy): Option<int>
  {
    var stable := ResolveTrack(p.catalog, p.speech.stable, Some(Camera));
    if stable.Some? && p.focus.key.Some? && stable != p.focus.key && ResolveSeat(p.catalog, p.focus.key).Some?
      && !Override(p.focus.origin) && p.focus.since.Some?
    then Some(p.focus.since.value + p.config.minimumResidence) else None
  }

  function Clamp(now: int, due: Option<int>): Option<int>
  {
    if due.None? then None else Some(Later(now, due.value))
  }

  function NextReconcileAt(p: Policy, now: int): Option<int>
  {
    if !p.accepting then None else Sooner(Clamp(now, CandidateDue(p)), Clamp(now, FocusDue(p)))
  }

  // ------------------------------------------------------------------------
  // Inputs.
  // ------------------------------------------------------------------------

  /** Stale catalogs are refused; a new generation forgets whom and what the old one knew. */
  predicate CatalogAccepted(p: Policy, s: Catalogs.Snapshot)
  {
    && p.accepting && s.session == p.session && s.generation != 0
    && (p.catalog.Some? ==>
          || s.generation > p.catalog.value.generation
          || (s.generation == p.catalog.value.generation && s.revision > p.catalog.value.revision))
  }

  function WithCatalog(p: Policy, s: Catalogs.Snapshot): Policy
  {
    if !CatalogAccepted(p, s) then p
    else if p.catalog.Some? && s.generation != p.catalog.value.generation then
      p.(catalog := Some(s), speech := SILENCE, autoShare := None, focus := NO_FOCUS,
         grid := p.grid.(anchor := None), sidebar := p.sidebar.(anchor := None))
    else p.(catalog := Some(s))
  }

  predicate SameViewport(a: Viewport, b: Viewport) { a.(viewRevision := b.viewRevision) == b }

  predicate ViewportAccepted(p: Policy, v: Viewport)
  {
    && p.accepting && v.session == p.session
    && (p.hasViewport ==> v.viewRevision >= p.viewport.viewRevision
                          && (v.viewRevision == p.viewport.viewRevision ==> SameViewport(v, p.viewport)))
  }

  function WithViewport(p: Policy, v: Viewport): Policy
  {
    if !ViewportAccepted(p, v) then p
    else
      var size := NormalizePageSize(v.pageSize, p.config.defaultPageSize);
      var turned := !p.hasViewport || v.mode != p.viewport.mode || v.page != p.viewport.page
        || size != NormalizePageSize(p.viewport.pageSize, p.config.defaultPageSize);
      var grid := if turned && v.mode != SpeakerView then p.grid.(anchor := None) else p.grid;
      var sidebar := if turned && v.mode == SpeakerView then p.sidebar.(anchor := None) else p.sidebar;
      p.(viewport := v, hasViewport := true,
         grid := if v.pageAnchor.Some? && v.mode != SpeakerView then PageState(v.page, size, v.pageAnchor) else grid,
         sidebar := if v.pageAnchor.Some? && v.mode == SpeakerView
                    then PageState(v.page, p.config.sidebarLimit, v.pageAnchor) else sidebar)
  }

  function WithSpeakers(p: Policy, speakers: seq<Speaker>, now: int): Policy
  {
    if !p.accepting then p
    else p.(speakers := speakers, speech := Advance(p.catalog, speakers, p.speech, now, p.config.candidateDelay))
  }

  function Stopped(p: Policy): Policy
  {
    if !p.accepting then p
    else
      var stopped := EmptyPlan(p).(policyRevision := p.plan.policyRevision);
      p.(accepting := false, catalog := None, speakers := [], speech := SILENCE, autoShare := None,
         focus := Focus(None, p.focus.origin, None),
         grid := p.grid.(anchor := None), sidebar := p.sidebar.(anchor := None),
         plan := if SamePlan(stopped, p.plan) then stopped else stopped.(policyRevision := p.plan.policyRevision + 1))
  }

  function Normalized(c: Config): Config
  {
    c.(videoBudget := Min(c.videoBudget, 16), defaultPageSize := NormalizePageSize(c.defaultPageSize, 9))
  }

  function Initial(session: nat, config: Config): Policy
  {
    var c := Normalized(config);
    var v := Viewport(session, 0, 0, Auto, 0, c.defaultPageSize, None, None, None, VideoStage, Extent(0, 0), 0, true, false);
    Policy(session, c, true, None, v, false, [], SILENCE, None, NO_FOCUS, PageState(0, 0, None), PageState(0, 0, None),
           Plan(session, 0, 0, Auto, Auto, VideoStage, 0, 0, 1, None, None, [], [], [], Hidden))
  }

  datatype Op =
    | UpdateCatalog(snapshot: Catalogs.Snapshot)
    | UpdateViewport(viewport: Viewport)
    | UpdateSpeakers(speakers: seq<Speaker>, now: int)
    | Reconcile(now: int)
    | Retire

  function Step(p: Policy, op: Op): Policy
  {
    match op
    case UpdateCatalog(s) => WithCatalog(p, s)
    case UpdateViewport(v) => WithViewport(p, v)
    case UpdateSpeakers(speakers, now) => WithSpeakers(p, speakers, now)
    case Reconcile(now) => Reconciled(p, now)
    case Retire => Stopped(p)
  }
}
