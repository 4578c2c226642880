/**
 The policy as the object the session owns: each method does to the fields what
 the corresponding function of DemandPolicy says
 (src/core/video_demand_policy.cpp).
 */
module PolicyObject {
  import opened Common
  import opened ParticipantEvents
  import opened DemandTypes
  import opened D = DemandPolicy
  import Catalogs

  // ------------------------------------------------------------------------
  // The loops over the catalog.
  // ------------------------------------------------------------------------

  method FilterVideos(generation: nat, pubs: seq<Catalogs.Publication>) returns (videos: seq<Catalogs.Publication>)
    ensures videos == VideosOf(generation, pubs)
  {
    videos := [];
    for i := 0 to |pubs|
      invariant videos == VideosOf(generation, pubs[..i])
    {
      assert pubs[..i + 1][..i] == pubs[..i];
      if pubs[i].state.kind == Video && pubs[i].key.participant.generation == generation {
        videos := videos + [pubs[i]];
      }
    }
    assert pubs[..|pubs|] == pubs;
  }

  method AppendSeats(seats: seq<Candidate>, sorted: seq<Catalogs.Publication>) returns (all: seq<Candidate>)
    ensures all == seats + SeatsOfAll(sorted)
  {
    all := seats;
    for i := 0 to |sorted|
      invariant all == seats + SeatsOfAll(sorted[..i])
    {
      assert sorted[..i + 1][..i] == sorted[..i];
      all := all + [SeatOf(sorted[i])];
    }
    assert sorted[..|sorted|] == sorted;
  }

  method ComputeOrderedSeats(c: Catalog) returns (seats: seq<Candidate>)
    ensures seats == OrderedSeats(c)
  {
    seats := [];
    if c.None? {
      return;
    }
    var ps, generation := c.value.participants, c.value.generation;
    for i := 0 to |ps|
      invariant seats == SeatsOfParticipants(generation, ps[..i])
    {
      assert ps[..i + 1][..i] == ps[..i];
      if ps[i].key.generation != generation {
        continue;
      }
      var videos := FilterVideos(generation, ps[i].publications);
      var sorted := StableSort(videos);
      if sorted == [] {
        seats := seats + [Placeholder(ps[i].key)];
      } else {
        seats := AppendSeats(seats, sorted);
      }
    }
    assert ps[..|ps|] == ps;
  }

  method ComputeSelectedAudio(c: Catalog) returns (keys: seq<TrackKey>)
    ensures keys == SelectedAudio(c)
  {
    keys := [];
    if c.None? {
      return;
    }
    var ps, generation := c.value.participants, c.value.generation;
    for i := 0 to |ps|
      invariant keys == AudioOfParticipants(generation, ps[..i])
    {
      assert ps[..i + 1][..i] == ps[..i];
      var pubs := ps[i].publications;
      for j := 0 to |pubs|
        invariant keys == AudioOf(generation, pubs[..j], AudioOfParticipants(generation, ps[..i]))
      {
        assert pubs[..j + 1][..j] == pubs[..j];
        var p := pubs[j];
        if p.state.kind == Audio && p.state.subscriptionAllowed && p.key.participant.generation == generation
          && p.key !in keys {
          keys := keys + [p.key];
        }
      }
      assert pubs[..|pubs|] == pubs;
    }
    assert ps[..|ps|] == ps;
  }

  method FindCamera(who: ParticipantKey, seats: seq<Candidate>) returns (r: Option<TrackKey>)
    ensures r == FirstCamera(who, seats)
  {
    for i := 0 to |seats|
      invariant FirstCamera(who, seats) == FirstCamera(who, seats[i..])
    {
      if CameraOf(who, seats[i]) {
        return Some(seats[i].publication.value.key);
      }
      assert seats[i..][1..] == seats[i + 1..];
    }
    return None;
  }

  method ResolveSpeakerCamera(c: Catalog, speakers: seq<Speaker>) returns (r: Option<TrackKey>)
    ensures r == SpeakerCamera(c, speakers)
  {
    hide FirstCamera, OrderedSeats;
    for i := 0 to |speakers|
      invariant SpeakerCamera(c, speakers) == SpeakerCamera(c, speakers[i..])
    {
      assert speakers[i..][1..] == speakers[i + 1..];
      if !Speaks(c, speakers[i]) {
        continue;
      }
      var seats := ComputeOrderedSeats(c);
      r := FindCamera(speakers[i].key, seats);
      if r.Some? {
        return;
      }
    }
    return None;
  }

  method FindShare(seats: seq<Candidate>) returns (r: Option<TrackKey>)
    ensures r == FirstShare(seats)
  {
    for i := 0 to |seats|
      invariant FirstShare(seats) == FirstShare(seats[i..])
    {
      var p := seats[i].publication;
      if p.Some? && p.value.state.source == ScreenShareVideo && Demandable(p.value) {
        return Some(p.value.key);
      }
      assert seats[i..][1..] == seats[i + 1..];
    }
    return None;
  }

  method OtherSeats(seats: seq<Candidate>, key: TrackKey) returns (other: seq<Candidate>)
    ensures other == Without(seats, key)
  {
    other := [];
    for i := 0 to |seats|
      invariant other == Without(seats[..i], key)
    {
      assert seats[..i + 1][..i] == seats[..i];
      if seats[i].key != key {
        other := other + [seats[i]];
      }
    }
    assert seats[..|seats|] == seats;
  }

  lemma BuildersIgnoreFocus(p: Policy, f: Focus, draft: Plan, main: Candidate, other: seq<Candidate>)
    ensures D.BuildSidebar(p.(focus := f), draft, main, other, f.origin)
            == D.BuildSidebar(p, draft, main, other, f.origin)
    ensures BuildPip(p.(focus := f), draft, main, other, f.origin) == BuildPip(p, draft, main, other, f.origin)
  {
    hide D.AddSeat, AddSeats, Paged, CeilDiv, MainExtent, SidebarExtent;
  }

  // ------------------------------------------------------------------------
  // The object.
  // ------------------------------------------------------------------------

  class VideoDemandPolicy {
    const session: nat
    const config: Config
    var accepting: bool
    var catalog: Catalog
    var viewport: Viewport
    var hasViewport: bool
    var speakers: seq<Speaker>
    var speakerCandidate: Option<TrackKey>
    var speakerCandidateSince: Option<int>
    var stableSpeaker: Option<TrackKey>
    var currentAutoShare: Option<TrackKey>
    var currentFocus: Option<TrackKey>
    var currentFocusOrigin: Origin
    var focusSince: Option<int>
    var gridPage: PageState
    var sidebarPage: PageState
    var plan: Plan

    function SpeechView(): Speech
      reads this
    {
      Speech(speakerCandidate, speakerCandidateSince, stableSpeaker)
    }

    function FocusView(): Focus
      reads this
    {
      Focus(currentFocus, currentFocusOrigin, focusSince)
    }

    function View(): Policy
      reads this
    {
      Policy(session, config, accepting, catalog, viewport, hasViewport, speakers, SpeechView(), currentAutoShare,
             FocusView(), gridPage, sidebarPage, plan)
    }

    constructor (session: nat, config: Config)
      ensures View() == Initial(session, config)
    {
      var c := Normalized(config);
      this.session, this.config := session, c;
      accepting, catalog, hasViewport, speakers := true, None, false, [];
      viewport := Viewport(session, 0, 0, Auto, 0, c.defaultPageSize, None, None, None, VideoStage, Extent(0, 0), 0,
                           true, false);
      speakerCandidate, speakerCandidateSince, stableSpeaker := None, None, None;
      currentAutoShare, currentFocus, currentFocusOrigin, focusSince := None, None, NoOrigin, None;
      gridPage, sidebarPage := PageState(0, 0, None), PageState(0, 0, None);
      plan := Plan(session, 0, 0, Auto, Auto, VideoStage, 0, 0, 1, None, None, [], [], [], Hidden);
    }

    method AdvanceSpeaker(now: int)
      modifies this`speakerCandidate, this`speakerCandidateSince, this`stableSpeaker
      ensures SpeechView() == Advance(catalog, speakers, old(SpeechView()), now, config.candidateDelay)
    {
      hide SpeakerCamera, D.Find;
      var resolved := ResolveSpeakerCamera(catalog, speakers);
      if resolved != speakerCandidate {
        speakerCandidate := resolved;
        speakerCandidateSince := if resolved.Some? then Some(now) else None;
        if resolved.None? {
          stableSpeaker := None;
        }
        return;
      }
      if speakerCandidate.None? || speakerCandidateSince.None? {
        stableSpeaker := None;
        return;
      }
      if now - speakerCandidateSince.value >= config.candidateDelay {
        stableSpeaker := speakerCandidate;
      }
      if stableSpeaker.Some? && D.Find(catalog, stableSpeaker.value).None? {
        stableSpeaker := None;
      }
    }

    method RefreshAutoShare()
      modifies this`currentAutoShare
      ensures currentAutoShare == RefreshShare(catalog, old(currentAutoShare))
    {
      hide OrderedSeats, FirstShare, IsAutoShare;
      if currentAutoShare.Some? && IsAutoShare(catalog, currentAutoShare.value) {
        return;
      }
      var seats := ComputeOrderedSeats(catalog);
      currentAutoShare := FindShare(seats);
    }

    method StoreFocus(key: Option<TrackKey>, origin: Origin, now: int)
      modifies this`currentFocus, this`currentFocusOrigin, this`focusSince
      ensures FocusView() == SetFocus(old(FocusView()), key, origin, now)
    {
      if currentFocus != key {
        focusSince := Some(now);
      }
      currentFocus := key;
      currentFocusOrigin := if key.Some? then origin else NoOrigin;
      if key.None? {
        focusSince := None;
      }
    }

    method ChooseFocus(seats: seq<Candidate>, allowShare: bool, now: int)
      modifies this`currentFocus, this`currentFocusOrigin, this`focusSince
      ensures FocusView() == D.ChooseFocus(catalog, viewport, stableSpeaker, currentAutoShare, allowShare, seats,
                                           old(FocusView()), now, config.minimumResidence)
    {
      hide ResolveSeat, ResolveTrack, IsAutoShare, SetFocus;
      var pinned := ResolveSeat(catalog, viewport.pinned);
      var selected := ResolveTrack(catalog, viewport.selectedShare, Some(ScreenShareVideo));
      var share := if allowShare && currentAutoShare.Some? && IsAutoShare(catalog, currentAutoShare.value)
        then currentAutoShare else None;
      if pinned.Some? {
        StoreFocus(pinned, ByPin, now);
        return;
      }
      if selected.Some? {
        StoreFocus(selected, BySelectedShare, now);
        return;
      }
      if share.Some? {
        StoreFocus(share, ByAutoShare, now);
        return;
      }
      ChooseUnforced(seats, now);
    }

    /** No pin and no share: the stable speaker, the present focus or the first seat. */
    method ChooseUnforced(seats: seq<Candidate>, now: int)
      modifies this`currentFocus, this`currentFocusOrigin, this`focusSince
      ensures var f, c := old(FocusView()), catalog;
        var valid, stable := ResolveSeat(c, f.key).Some?, ResolveTrack(c, stableSpeaker, Some(Camera));
        FocusView() ==
          if stable.Some? then
            if f.key == stable then f.(origin := BySpeaker)
            else if valid && !Override(f.origin) && f.since.Some? && now - f.since.value < config.minimumResidence then f
            else SetFocus(f, stable, BySpeaker, now)
          else if valid && !Override(f.origin) then f
          else if seats != [] then SetFocus(f, Some(seats[0].key), ByFallback, now)
          else SetFocus(f, None, NoOrigin, now)
    {
      hide ResolveSeat, ResolveTrack, SetFocus;
      var previousOverride := Override(currentFocusOrigin);
      var currentValid := ResolveSeat(catalog, currentFocus).Some?;
      var stable := ResolveTrack(catalog, stableSpeaker, Some(Camera));
      if stable.Some? {
        if currentFocus == stable {
          currentFocusOrigin := BySpeaker;
          return;
        }
        if currentValid && !previousOverride && focusSince.Some?
          && now - focusSince.value < config.minimumResidence {
          return;
        }
        StoreFocus(stable, BySpeaker, now);
        return;
      }
      if currentValid && !previousOverride {
        return;
      }
      if seats != [] {
        StoreFocus(Some(seats[0].key), ByFallback, now);
        return;
      }
      StoreFocus(None, NoOrigin, now);
    }

    /** The seat is made field by field and selected when it can show media. */
    method AddSeat(draft: Plan, s: Candidate, role: SeatRole, extent: Extent, origin: Origin) returns (out: Plan)
      ensures out == D.AddSeat(config.videoBudget, draft, s, role, extent, origin)
    {
      hide ReasonForFocus;
      if |draft.seats| >= config.videoBudget {
        return draft;
      }
      var seat := Seat(s.key, s.source, role, 0, 0, NoVideo, 0, ReasonForFocus(origin, s.source), NoError);
      if s.publication.None? {
        return draft.(seats := draft.seats + [seat]);
      }
      var publication := s.publication.value;
      seat := FillSeat(seat, publication, extent, origin);
      out := draft.(seats := draft.seats + [seat]);
      if Demandable(publication) && seat.width != 0 && seat.height != 0
        && |out.selectedVideo| < config.videoBudget && publication.key !in out.selectedVideo {
        out := out.(selectedVideo := out.selectedVideo + [publication.key]);
      }
    }

    method FillSeat(blank: Seat, publication: Catalogs.Publication, extent: Extent, origin: Origin) returns (seat: Seat)
      requires blank == Seat(blank.key, blank.source, blank.role, 0, 0, NoVideo, 0,
                             ReasonForFocus(origin, blank.source), NoError)
      ensures seat == MakeSeat(Candidate(blank.key, blank.source, Some(publication)), blank.role, extent, origin)
    {
      hide ReasonForFocus;
      seat := blank.(subscriptionError := publication.state.subscriptionError);
      if !publication.state.subscriptionAllowed {
        seat := seat.(reason := PermissionDenied);
      } else if publication.state.muted {
        seat := seat.(reason := Muted);
      }
      var maxWidth, maxHeight := 640, 360;
      if seat.role == MainSeat {
        if publication.state.source == ScreenShareVideo {
          maxWidth, maxHeight := 1920, 1080;
        } else {
          maxWidth, maxHeight := 1280, 720;
        }
      }
      seat := seat.(width := Min(extent.width, maxWidth), height := Min(extent.height, maxHeight));
      seat := seat.(quality := QualityFor(seat.width, seat.height));
      seat := seat.(priority := PriorityFor(seat.role, publication.state.source, origin));
    }

    method AddAll(draft: Plan, window: seq<Candidate>, role: SeatRole, extent: Extent) returns (out: Plan)
      ensures out == AddSeats(config.videoBudget, draft, window, role, extent)
    {
      hide D.AddSeat;
      out := draft;
      for i := 0 to |window|
        invariant out == AddSeats(config.videoBudget, draft, window[..i], role, extent)
      {
        assert window[..i + 1][..i] == window[..i];
        out := AddSeat(out, window[i], role, extent, NoOrigin);
      }
      assert window[..|window|] == window;
    }

    method BuildGrid(draft: Plan, seats: seq<Candidate>, size: nat, paging: bool) returns (out: Plan)
      requires size > 0
      modifies this`gridPage
      ensures D.BuildGrid(old(View()), draft, seats, size, paging) == (gridPage, out)
    {
      hide AddSeats, CeilDiv, GridExtent, SeatIndex;
      var count := if paging then CeilDiv(|seats|, size) else 1;
      var shown := if paging then Min(viewport.page, count - 1) else 0;
      var start := if paging then shown * size else 0;
      if paging {
        var anchor := gridPage.anchor;
        if gridPage.requested != viewport.page || gridPage.size != size || shown != viewport.page {
          anchor := None;
        }
        if anchor.Some? {
          var found := SeatIndex(seats, anchor.value);
          if found < |seats| {
            start := found;
          } else {
            anchor := None;
          }
        }
        if anchor.None? && start < |seats| {
          anchor := Some(seats[start].key);
        }
        gridPage := PageState(viewport.page, size, anchor);
      }
      var limit := Min(|seats|, start + Min(size, config.videoBudget));
      var sized := draft.(pageSize := size, pageCount := count, page := shown);
      out := AddAll(sized, if start <= limit then seats[start..limit] else [], GridSeat,
                    GridExtent(viewport.stage, size));
      out := out.(reason := Visible);
    }

    /** The sidebar stays at its anchor while that seat is there; gives its first seat. */
    method TurnSidebar(other: seq<Candidate>, limit: nat, shown: nat, pageStart: nat) returns (start: nat)
      modifies this`sidebarPage
      ensures Paged(old(sidebarPage), other, viewport.page, limit, shown, pageStart) == (sidebarPage, start)
    {
      start := pageStart;
      var anchor := sidebarPage.anchor;
      if sidebarPage.requested != viewport.page || sidebarPage.size != limit || shown != viewport.page {
        anchor := None;
      }
      if anchor.Some? {
        var found := SeatIndex(other, anchor.value);
        if found < |other| {
          start := found;
        } else {
          anchor := None;
        }
      }
      if anchor.None? && start < |other| {
        anchor := Some(other[start].key);
      }
      sidebarPage := PageState(viewport.page, limit, anchor);
    }

    method BuildSidebar(draft: Plan, main: Candidate, other: seq<Candidate>, origin: Origin) returns (out: Plan)
      modifies this`sidebarPage
      ensures D.BuildSidebar(old(View()), draft, main, other, origin) == (sidebarPage, out)
    {
      hide AddSeats, D.AddSeat, CeilDiv, MainExtent, SidebarExtent, SeatIndex, Paged;
      var limit := SideLimit(config);
      var count := CeilDiv(|other|, if limit == 0 then 1 else limit);
      var shown := Min(viewport.page, count - 1);
      var start := TurnSidebar(other, limit, shown, shown * limit);
      var side := Min(limit, if start < |other| then |other| - start else 0);
      out := draft.(pageSize := limit, pageCount := count, page := shown);
      out := AddSeat(out, main, MainSeat, MainExtent(viewport.stage, side != 0), origin);
      out := AddAll(out, if start + side <= |other| then other[start..start + side] else [], SidebarSeat,
                    SidebarExtent(viewport.stage, side));
    }

    method BuildPictureInPicture(draft: Plan, main: Candidate, other: seq<Candidate>, origin: Origin) returns (out: Plan)
      ensures out == BuildPip(View(), draft, main, other, origin)
    {
      hide D.AddSeat;
      var hasPip := other != [] && config.videoBudget > 1;
      out := AddSeat(draft, main, MainSeat, MainExtent(viewport.stage, false), origin);
      if hasPip {
        out := AddSeat(out, other[0], PipSeat, PipExtent(viewport.stage), NoOrigin);
      }
      out := out.(page := 0, pageSize := if hasPip then 1 else 0, pageCount := 1);
    }

    method BuildFocused(draft: Plan, seats: seq<Candidate>, mode: LayoutMode, allowShare: bool, now: int)
      returns (out: Plan)
      modifies this`currentFocus, this`currentFocusOrigin, this`focusSince, this`sidebarPage
      ensures D.BuildFocused(old(View()), draft, seats, mode, allowShare, now) == (View(), out)
    {
      hide D.ChooseFocus, D.BuildSidebar, BuildPip, SeatIndex, Without, ReasonForFocus;
      ghost var before := View();
      out := draft.(mode := mode);
      ChooseFocus(seats, allowShare, now);
      out := out.(focused := currentFocus);
      if currentFocus.None? {
        return out.(reason := Visible);
      }
      var at := SeatIndex(seats, currentFocus.value);
      if at == |seats| {
        return;
      }
      var main := seats[at];
      var other := OtherSeats(seats, main.key);
      BuildersIgnoreFocus(before, FocusView(), out, main, other);
      if mode == PictureInPicture {
        out := BuildPictureInPicture(out, main, other, currentFocusOrigin);
      } else {
        out := BuildSidebar(out, main, other, currentFocusOrigin);
      }
      out := out.(reason := ReasonForFocus(currentFocusOrigin, main.source));
    }

    method LayOut(draft: Plan, now: int) returns (out: Plan)
      modifies this`currentFocus, this`currentFocusOrigin, this`focusSince, this`sidebarPage, this`gridPage
      ensures Lay(old(View()), draft, now) == (View(), out)
    {
      hide D.BuildFocused, D.BuildGrid, OrderedSeats, ResolveSeat, ResolveTrack, IsAutoShare;
      var seats := ComputeOrderedSeats(catalog);
      var pinned := ResolveSeat(catalog, viewport.pinned).Some?;
      var selected := ResolveTrack(catalog, viewport.selectedShare, Some(ScreenShareVideo)).Some?;
      var share := currentAutoShare.Some? && IsAutoShare(catalog, currentAutoShare.value);
      if viewport.mode == PictureInPicture {
        out := BuildFocused(draft, seats, PictureInPicture, true, now);
      } else if viewport.mode == SpeakerView || pinned || selected || (viewport.mode == Auto && share) {
        out := BuildFocused(draft, seats, SpeakerView, viewport.mode != Grid, now);
      } else if viewport.mode == Auto && |seats| <= 2 {
        out := BuildGrid(draft.(mode := Auto), seats, 2, false);
      } else {
        out := BuildGrid(draft.(mode := if viewport.mode == Auto then Grid else viewport.mode), seats,
                         NormalizePageSize(viewport.pageSize, config.defaultPageSize), true);
      }
    }

    method BuildPlan(now: int) returns (out: Plan)
      modifies this
      ensures D.BuildPlan(old(View()), now) == (View(), out)
    {
      hide Lay, SelectedAudio, Advance, RefreshShare, ResolveTrack;
      out := Plan(session, 0, 0, viewport.mode, viewport.mode, viewport.content, 0, 0, 1, None, None, [], [], [], Hidden);
      if catalog.None? {
        return;
      }
      var audio := ComputeSelectedAudio(catalog);
      out := out.(catalogRevision := catalog.value.revision, selectedAudio := audio);
      AdvanceSpeaker(now);
      RefreshAutoShare();
      out := out.(stableSpeaker := ResolveTrack(catalog, stableSpeaker, Some(Camera)));
      if NothingVisible(viewport) {
        return;
      }
      if viewport.content == Whiteboard {
        return out.(reason := OnWhiteboard);
      }
      out := LayOut(out, now);
    }

    method Reconcile(now: int)
      modifies this
      ensures View() == Reconciled(old(View()), now)
    {
      hide D.BuildPlan, SamePlan;
      if !accepting {
        return;
      }
      var next := BuildPlan(now);
      if !SamePlan(next, plan) {
        plan := next.(policyRevision := plan.policyRevision + 1);
      }
    }

    method NextWakeUp(now: int) returns (next: Option<int>)
      ensures next == NextReconcileAt(View(), now)
    {
      hide ResolveTrack, ResolveSeat;
      next := None;
      if !accepting {
        return;
      }
      if speakerCandidate.Some? && speakerCandidateSince.Some? && speakerCandidate != stableSpeaker
        && ResolveTrack(catalog, speakerCandidate, Some(Camera)).Some? {
        next := Some(Later(now, speakerCandidateSince.value + config.candidateDelay));
      }
      var stable := ResolveTrack(catalog, stableSpeaker, Some(Camera));
      if stable.Some? && currentFocus.Some? && stable != currentFocus
        && ResolveSeat(catalog, currentFocus).Some? && !Override(currentFocusOrigin) && focusSince.Some? {
        var due := Later(now, focusSince.value + config.minimumResidence);
        if next.None? || due < next.value {
          next := Some(due);
        }
      }
    }

    /** Whom and what the old generation knew. */
    method ForgetGeneration()
      modifies this`speakerCandidate, this`speakerCandidateSince, this`stableSpeaker, this`currentAutoShare,
        this`currentFocus, this`currentFocusOrigin, this`focusSince, this`gridPage, this`sidebarPage
      ensures SpeechView() == SILENCE && currentAutoShare == None && FocusView() == NO_FOCUS
      ensures gridPage == old(gridPage).(anchor := None) && sidebarPage == old(sidebarPage).(anchor := None)
    {
      speakerCandidate, speakerCandidateSince, stableSpeaker := None, None, None;
      currentAutoShare, currentFocus, currentFocusOrigin, focusSince := None, None, NoOrigin, None;
      gridPage := gridPage.(anchor := None);
      sidebarPage := sidebarPage.(anchor := None);
    }

    method UpdateCatalog(s: Catalogs.Snapshot) returns (taken: bool)
      modifies this
      ensures View() == WithCatalog(old(View()), s)
      ensures taken == CatalogAccepted(old(View()), s)
    {
      if !accepting || s.session != session || s.generation == 0 {
        return false;
      }
      if catalog.Some? {
        var known := catalog.value;
        if s.generation < known.generation
          || (s.generation == known.generation && s.revision <= known.revision) {
          return false;
        }
        if s.generation != known.generation {
          ForgetGeneration();
        }
      }
      catalog := Some(s);
      return true;
    }

    method UpdateViewport(v: Viewport) returns (changed: bool)
      modifies this
      ensures View() == WithViewport(old(View()), v)
      ensures changed == (ViewportAccepted(old(View()), v)
                          && !(old(hasViewport) && SameViewport(v, old(viewport))))
    {
      hide SameViewport, NormalizePageSize;
      if !accepting || v.session != session {
        return false;
      }
      if hasViewport && v.viewRevision < viewport.viewRevision {
        return false;
      }
      var same := hasViewport && SameViewport(v, viewport);
      if hasViewport && v.viewRevision == viewport.viewRevision && !same {
        return false;
      }
      AdoptViewport(v);
      return !same;
    }

    /** The part of UpdateViewport that follows the checks: a turned page loses its anchor unless it brings one. */
    method AdoptViewport(v: Viewport)
      modifies this`viewport, this`hasViewport, this`gridPage, this`sidebarPage
      ensures viewport == v && hasViewport
      ensures gridPage == AnchoredAt(v, v.mode != SpeakerView, old(TurnsPage(v)), old(gridPage), GridSize(v))
      ensures sidebarPage == AnchoredAt(v, v.mode == SpeakerView, old(TurnsPage(v)), old(sidebarPage), config.sidebarLimit)
    {
      var size := NormalizePageSize(v.pageSize, config.defaultPageSize);
      if !hasViewport || v.mode != viewport.mode || v.page != viewport.page
        || size != NormalizePageSize(viewport.pageSize, config.defaultPageSize) {
        if v.mode == SpeakerView {
          sidebarPage := sidebarPage.(anchor := None);
        } else {
          gridPage := gridPage.(anchor := None);
        }
      }
      viewport, hasViewport := v, true;
      if v.pageAnchor.Some? {
        if v.mode == SpeakerView {
          sidebarPage := PageState(v.page, config.sidebarLimit, v.pageAnchor);
        } else {
          gridPage := PageState(v.page, size, v.pageAnchor);
        }
      }
    }

    function GridSize(v: Viewport): nat { NormalizePageSize(v.pageSize, config.defaultPageSize) }

    predicate TurnsPage(v: Viewport)
      reads this
    {
      !hasViewport || v.mode != viewport.mode || v.page != viewport.page || GridSize(v) != GridSize(viewport)
    }

    /** The page state that a viewport leaves to the grid or to the sidebar. */
    function AnchoredAt(v: Viewport, concerned: bool, turned: bool, page: PageState, size: nat): PageState
    {
      if !concerned then page
      else if v.pageAnchor.Some? then PageState(v.page, size, v.pageAnchor)
      else if turned then page.(anchor := None)
      else page
    }

    method UpdateSpeakers(heard: seq<Speaker>, now: int) returns (changed: bool)
      modifies this
      ensures View() == WithSpeakers(old(View()), heard, now)
      ensures changed == (accepting && heard != old(speakers))
    {
      hide Advance;
      if !accepting {
        return false;
      }
      changed := heard != speakers;
      if changed {
        speakers := heard;
      }
      AdvanceSpeaker(now);
    }

    method ForgetEverything()
      modifies this`catalog, this`speakers, this`speakerCandidate, this`speakerCandidateSince, this`stableSpeaker,
        this`currentAutoShare, this`currentFocus, this`focusSince, this`gridPage, this`sidebarPage
      ensures catalog == None && speakers == [] && SpeechView() == SILENCE && currentAutoShare == None
      ensures currentFocus == None && focusSince == None
      ensures gridPage == old(gridPage).(anchor := None) && sidebarPage == old(sidebarPage).(anchor := None)
    {
      catalog, speakers := None, [];
      speakerCandidate, speakerCandidateSince, stableSpeaker := None, None, None;
      currentAutoShare, currentFocus, focusSince := None, None, None;
      gridPage := gridPage.(anchor := None);
      sidebarPage := sidebarPage.(anchor := None);
    }

    method Retire()
      modifies this
      ensures View() == Stopped(old(View()))
    {
      hide SamePlan;
      if !accepting {
        return;
      }
      accepting := false;
      ForgetEverything();
      var stopped := Plan(session, plan.policyRevision, 0, viewport.mode, viewport.mode, viewport.content, 0, 0, 1,
                          None, None, [], [], [], Hidden);
      if !SamePlan(stopped, plan) {
        stopped := stopped.(policyRevision := plan.policyRevision + 1);
      }
      plan := stopped;
    }
  }
}
