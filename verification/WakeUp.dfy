/**
 The wake-up time is sound: between a reconciliation and NextReconcileAt, with
 no new input, reconciling again changes nothing
 (src/core/video_demand_policy.cpp:165-204, 355-437, 439-612).
 */
module WakeUp {
  import opened Common
  import opened ParticipantEvents
  import opened DemandTypes
  import opened DemandPolicy
  import opened DemandSeats

  /** Candidate and focus carry a time exactly when they are there. */
  ghost predicate Coherent(p: Policy)
  {
    && (p.speech.candidate.Some? <==> p.speech.since.Some?)
    && (p.focus.key.Some? <==> p.focus.since.Some?)
  }

  ghost predicate Ready(p: Policy) { Coherent(p) && CatalogOk(p.catalog) }

  /** Before the due time, with none pending when there is none. */
  predicate Before(now: int, due: Option<int>) { due.None? || now < due.value }

  // ------------------------------------------------------------------------
  // Speech: only a candidate that becomes due can change what is stable.
  // ------------------------------------------------------------------------

  function StableCamera(c: Catalog, s: Speech): Option<TrackKey> { ResolveTrack(c, s.stable, Some(Camera)) }

  ghost predicate SpeechCoherent(s: Speech) { s.candidate.Some? <==> s.since.Some? }

  /** What any observation leaves: the camera heard as candidate, and a stable key only with a candidate and in the catalog. */
  lemma AdvanceLeaves(c: Catalog, speakers: seq<Speaker>, s: Speech, now: int, delay: int)
    requires CatalogOk(c) && SpeechCoherent(s)
    ensures var s' := Advance(c, speakers, s, now, delay);
      && s'.candidate == SpeakerCamera(c, speakers) && SpeechCoherent(s')
      && ResolveTrack(c, s'.candidate, Some(Camera)) == s'.candidate
      && (s'.stable.Some? ==> s'.candidate.Some?)
  {
    SpeakerCameraResolves(c, speakers);
    hide SpeakerCamera, ResolveTrack, Find, CatalogOk;
  }

  /** A second observation of the same camera: it takes over when its delay is over. */
  lemma AdvanceAgain(c: Catalog, speakers: seq<Speaker>, s: Speech, now: int, delay: int)
    requires s.candidate == SpeakerCamera(c, speakers) && SpeechCoherent(s)
    requires ResolveTrack(c, s.candidate, Some(Camera)) == s.candidate && (s.stable.Some? ==> s.candidate.Some?)
    ensures var s', taken := Advance(c, speakers, s, now, delay), s.since.Some? && now - s.since.value >= delay;
      && s'.candidate == s.candidate && s'.since == s.since
      && StableCamera(c, s') == if taken then s.candidate else StableCamera(c, s)
  {
    hide SpeakerCamera;
  }

  /** The share is detected again as it was. */
  lemma ShareStays(c: Catalog, current: Option<TrackKey>)
    requires CatalogOk(c)
    ensures var share := RefreshShare(c, current); RefreshShare(c, share) == share
  {
    FirstShareIsShare(c, OrderedSeats(c));
    hide OrderedSeats, FirstShare, IsAutoShare, CatalogOk;
  }

  lemma SpeechSettles(p: Policy, t1: int, t: int)
    requires Ready(p) && t1 <= t
    requires var q := Advanced(p, t1); Before(t, CandidateDue(q))
    ensures var q := Advanced(p, t1);
      var r := Advanced(q, t);
      && r.speech.candidate == q.speech.candidate
      && r.speech.since == q.speech.since
      && StableCamera(p.catalog, r.speech) == StableCamera(p.catalog, q.speech)
      && r.autoShare == q.autoShare
      && Coherent(q) && Coherent(r)
  {
    hide SpeakerCamera, RefreshShare, CatalogOk, Advance, ResolveTrack;
    AdvanceLeaves(p.catalog, p.speakers, p.speech, t1, p.config.candidateDelay);
    AdvanceAgain(p.catalog, p.speakers, Advanced(p, t1).speech, t, p.config.candidateDelay);
    ShareStays(p.catalog, p.autoShare);
  }

  // ------------------------------------------------------------------------
  // Focus: only an overdue residence can move it.
  // ------------------------------------------------------------------------

  /** The residence of the focus ends; until then a stable speaker does not take over. */
  ghost predicate ResidenceHolds(c: Catalog, stable: Option<TrackKey>, g: Focus, t: int, residence: int)
  {
    var due := ResolveTrack(c, stable, Some(Camera));
    (due.Some? && g.key.Some? && due != g.key && !Override(g.origin) && g.since.Some? && ResolveSeat(c, g.key).Some?) ==>
      t < g.since.value + residence
  }

  lemma FocusSettles(c: Catalog, v: Viewport, stable: Option<TrackKey>, later: Option<TrackKey>,
                     share: Option<TrackKey>, allowShare: bool, f: Focus, t1: int, t: int, residence: int)
    requires CatalogOk(c) && (f.key.Some? <==> f.since.Some?) && t1 <= t
    requires ResolveTrack(c, stable, Some(Camera)) == ResolveTrack(c, later, Some(Camera))
    requires ResidenceHolds(c, stable, ChooseFocus(c, v, stable, share, allowShare, OrderedSeats(c), f, t1, residence), t, residence)
    ensures var g := ChooseFocus(c, v, stable, share, allowShare, OrderedSeats(c), f, t1, residence);
      ChooseFocus(c, v, later, share, allowShare, OrderedSeats(c), g, t, residence) == g
      && (g.key.Some? <==> g.since.Some?)
  {
    hide ResolveSeat, ResolveTrack, OrderedSeats, Find, CatalogOk, Forced;
    if OrderedSeats(c) != [] {
      SeatResolves(c, OrderedSeats(c)[0]);
    }
  }

  // ------------------------------------------------------------------------
  // Paging: asking for the same page again keeps the window.
  // ------------------------------------------------------------------------

  lemma PagingSettles(ps: PageState, seats: seq<Candidate>, page: nat, size: nat, shown: nat, start: nat)
    requires DistinctSeats(seats)
    ensures var (ps', at) := Paged(ps, seats, page, size, shown, start);
      Paged(ps', seats, page, size, shown, start) == (ps', at)
  {
    if start < |seats| {
      SeatIndexFinds(seats, start);
    }
  }

  lemma {:induction false} WithoutDistinct(seats: seq<Candidate>, key: TrackKey)
    requires DistinctSeats(seats)
    ensures DistinctSeats(Without(seats, key))
    ensures forall s :: s in Without(seats, key) <==> s in seats && s.key != key
  {
    if seats != [] {
      var n := |seats| - 1;
      WithoutDistinct(seats[..n], key);
      var rest := Without(seats[..n], key);
      assert Without(seats, key) == if seats[n].key != key then rest + [seats[n]] else rest;
      hide Without;
      assert seats == seats[..n] + [seats[n]];
      forall i | 0 <= i < |rest| ensures rest[i].key != seats[n].key {
        assert rest[i] in rest;
        var j :| 0 <= j < n && seats[j] == rest[i];
      }
    }
  }

  // ------------------------------------------------------------------------
  // Whole plans.
  // ------------------------------------------------------------------------

  /** Same inputs, same plan: the policies agree on everything a builder reads. */
  ghost predicate SameInputs(p: Policy, q: Policy)
  {
    p.session == q.session && p.config == q.config && p.catalog == q.catalog && p.viewport == q.viewport
    && p.speakers == q.speakers && p.accepting == q.accepting
  }

  lemma SidebarSettles(p: Policy, q: Policy, plan: Plan, main: Candidate, other: seq<Candidate>, origin: Origin)
    requires DistinctSeats(other) && p.config == q.config && p.viewport == q.viewport
    requires q.sidebar == BuildSidebar(p, plan, main, other, origin).0
    ensures BuildSidebar(q, plan, main, other, origin) == BuildSidebar(p, plan, main, other, origin)
  {
    hide Paged, AddSeats, AddSeat, CeilDiv, SideLimit, MainExtent, SidebarExtent;
    var limit := SideLimit(p.config);
    var shown := Min(p.viewport.page, CeilDiv(|other|, if limit == 0 then 1 else limit) - 1);
    PagingSettles(p.sidebar, other, p.viewport.page, limit, shown, shown * limit);
  }

  lemma GridSettles(p: Policy, q: Policy, plan: Plan, seats: seq<Candidate>, size: nat, paging: bool)
    requires DistinctSeats(seats) && size > 0 && p.config == q.config && p.viewport == q.viewport
    requires q.grid == BuildGrid(p, plan, seats, size, paging).0
    ensures BuildGrid(q, plan, seats, size, paging) == BuildGrid(p, plan, seats, size, paging)
  {
    hide Paged, AddSeats, CeilDiv, GridExtent;
    var shown := Min(p.viewport.page, CeilDiv(|seats|, size) - 1);
    PagingSettles(p.grid, seats, p.viewport.page, size, shown, shown * size);
  }

  lemma ArrangeSettles(p: Policy, q: Policy, plan: Plan, mode: LayoutMode, focus: Focus)
    requires CatalogOk(p.catalog) && p.config == q.config && p.viewport == q.viewport && p.catalog == q.catalog
    requires q.sidebar == Arrange(p, plan, OrderedSeats(p.catalog), mode, focus).0
    ensures Arrange(q, plan, OrderedSeats(p.catalog), mode, focus) == Arrange(p, plan, OrderedSeats(p.catalog), mode, focus)
  {
    var seats := OrderedSeats(p.catalog);
    SeatsFind(p.catalog);
    hide OrderedSeats, CatalogOk, BuildSidebar, Without, SeatIndex, AddSeat;
    if focus.key.Some? {
      var at := SeatIndex(seats, focus.key.value);
      if at < |seats| && mode != PictureInPicture {
        WithoutDistinct(seats, seats[at].key);
        SidebarSettles(p, q, plan.(mode := mode, focused := focus.key), seats[at], Without(seats, seats[at].key),
                       focus.origin);
      }
    }
  }

  /** What a first reconciliation leaves behind for a second one at t. */
  ghost predicate After(p: Policy, laid: Policy, q: Policy, t: int)
  {
    && SameInputs(p, q) && p.autoShare == q.autoShare
    && StableCamera(p.catalog, p.speech) == StableCamera(q.catalog, q.speech)
    && q.focus == laid.focus && q.grid == laid.grid && q.sidebar == laid.sidebar
    && ResidenceHolds(p.catalog, p.speech.stable, laid.focus, t, p.config.minimumResidence)
  }

  lemma FocusedSettles(p: Policy, plan: Plan, mode: LayoutMode, allowShare: bool, t1: int, q: Policy, t: int)
    requires Ready(p) && t1 <= t
    requires After(p, BuildFocused(p, plan, OrderedSeats(p.catalog), mode, allowShare, t1).0, q, t)
    ensures BuildFocused(q, plan, OrderedSeats(p.catalog), mode, allowShare, t).1
         == BuildFocused(p, plan, OrderedSeats(p.catalog), mode, allowShare, t1).1
  {
    hide OrderedSeats, ChooseFocus, ResolveSeat, ResolveTrack, CatalogOk, Arrange, ResidenceHolds;
    FocusSettles(p.catalog, p.viewport, p.speech.stable, q.speech.stable, p.autoShare, allowShare, p.focus, t1, t,
                 p.config.minimumResidence);
    ArrangeSettles(p, q, plan, mode, q.focus);
  }

  lemma LayoutSame(p: Policy, q: Policy)
    requires SameInputs(p, q) && p.autoShare == q.autoShare
    ensures LayoutOf(q) == LayoutOf(p)
  {
  }

  lemma LaySettles(p: Policy, plan: Plan, t1: int, q: Policy, t: int)
    requires Ready(p) && t1 <= t
    requires After(p, Lay(p, plan, t1).0, q, t)
    ensures Lay(q, plan, t).1 == Lay(p, plan, t1).1
  {
    LayoutSame(p, q);
    var seats := OrderedSeats(p.catalog);
    SeatsFind(p.catalog);
    match LayoutOf(p)
    case FocusedLayout(mode, allowShare) =>
      hide BuildFocused, OrderedSeats, CatalogOk, LayoutOf, ResidenceHolds;
      FocusedSettles(p, plan, mode, allowShare, t1, q, t);
    case SmallGrid =>
      hide BuildGrid, OrderedSeats, CatalogOk, LayoutOf, ResidenceHolds;
      GridSettles(p, q, plan.(mode := Auto), seats, 2, false);
    case PagedGrid(mode) =>
      hide BuildGrid, OrderedSeats, CatalogOk, LayoutOf, ResidenceHolds;
      GridSettles(p, q, plan.(mode := mode), seats,
                  NormalizePageSize(p.viewport.pageSize, p.config.defaultPageSize), true);
  }

  /** Plans are the same when they differ at most in the policy revision. */
  lemma SamePlanExact(a: Plan, b: Plan)
    ensures SamePlan(a, b) <==> a.(policyRevision := b.policyRevision) == b
  {
    if SamePlan(a, b) {
      assert a.seats == b.seats;
    }
  }

  /** Laying out leaves alone everything the next reconciliation reads first. */
  lemma LayKeepsInputs(p: Policy, plan: Plan, now: int)
    ensures var q := Lay(p, plan, now).0;
      SameInputs(p, q) && q.speech == p.speech && q.autoShare == p.autoShare && q.plan == p.plan
  {
    hide BuildGrid, Arrange, ChooseFocus, LayoutOf, OrderedSeats;
  }

  lemma BuildKeepsInputs(p: Policy, now: int)
    ensures var q := BuildPlan(p, now).0;
      SameInputs(p, q) && q.plan == p.plan
      && (p.catalog.Some? ==> q.speech == Advanced(p, now).speech && q.autoShare == Advanced(p, now).autoShare)
  {
    hide Lay, Advance, RefreshShare;
    if p.catalog.Some? {
      var plan := EmptyPlan(p).(catalogRevision := p.catalog.value.revision, selectedAudio := SelectedAudio(p.catalog),
        stableSpeaker := ResolveTrack(p.catalog, Advanced(p, now).speech.stable, Some(Camera)));
      LayKeepsInputs(Advanced(p, now), plan, now);
    }
  }

  lemma DueTimes(p: Policy, t1: int, t: int)
    requires p.accepting && t1 <= t && Before(t, NextReconcileAt(p, t1))
    ensures Before(t, CandidateDue(p)) && Before(t, FocusDue(p))
  {
  }

  /** What BuildPlan starts from once a catalog is there. */
  function Header(p: Policy, stable: Option<TrackKey>): Plan
    requires p.catalog.Some?
  {
    EmptyPlan(p).(catalogRevision := p.catalog.value.revision, selectedAudio := SelectedAudio(p.catalog),
                  stableSpeaker := stable)
  }

  /** A second reconciliation reads the same header, and the state the first one left. */
  lemma SecondStart(p: Policy, t1: int, q: Policy, t: int)
    requires Ready(p) && p.catalog.Some? && t1 <= t
    requires q == BuildPlan(p, t1).0.(plan := q.plan)
    requires Before(t, CandidateDue(q))
    ensures var a, b := Advanced(p, t1), Advanced(q, t);
      && Ready(a) && SameInputs(a, b) && b.autoShare == a.autoShare
      && q.speech == a.speech
      && StableCamera(p.catalog, b.speech) == StableCamera(p.catalog, a.speech)
      && b.focus == q.focus && b.grid == q.grid && b.sidebar == q.sidebar
      && a.catalog == p.catalog == q.catalog && EmptyPlan(q) == EmptyPlan(p)
  {
    BuildKeepsInputs(p, t1);
    hide BuildPlan, Advance, RefreshShare, ResolveTrack, CatalogOk;
    var a := Advanced(p, t1);
    assert Before(t, CandidateDue(a));
    SpeechSettles(p, t1, t);
    assert Advanced(q, t).speech == Advanced(a, t).speech;
  }

  lemma BuildSettles(p: Policy, t1: int, q: Policy, t: int)
    requires Ready(p) && t1 <= t
    requires q == BuildPlan(p, t1).0.(plan := q.plan)
    requires Before(t, CandidateDue(q)) && Before(t, FocusDue(q))
    ensures BuildPlan(q, t).1 == BuildPlan(p, t1).1
  {
    if p.catalog.Some? {
      SecondStart(p, t1, q, t);
      hide Advanced, ResolveTrack, ResolveSeat, CatalogOk, SelectedAudio, Lay, CandidateDue, Coherent;
      var a, b := Advanced(p, t1), Advanced(q, t);
      var plan := Header(p, StableCamera(p.catalog, a.speech));
      if !NothingVisible(p.viewport) && p.viewport.content != Whiteboard {
        assert After(a, Lay(a, plan, t1).0, b, t);
        LaySettles(a, plan, t1, b, t);
      }
    } else {
      BuildKeepsInputs(p, t1);
    }
  }

  /**
   Wake-up soundness, for any delays. The catalog invariant is all it takes; with
   t == t1 it says that reconciling is idempotent.
   */
  lemma WakeUpSound(p: Policy, t1: int, t: int)
    requires Ready(p) && t1 <= t
    requires Before(t, NextReconcileAt(Reconciled(p, t1), t1))
    ensures Reconciled(Reconciled(p, t1), t).plan == Reconciled(p, t1).plan
  {
    if p.accepting {
      var (built, next) := BuildPlan(p, t1);
      var q := Reconciled(p, t1);
      BuildKeepsInputs(p, t1);
      hide BuildPlan, CatalogOk, NextReconcileAt, Coherent, SamePlan;
      SamePlanExact(next, p.plan);
      DueTimes(q, t1, t);
      BuildSettles(p, t1, q, t);
      SamePlanExact(BuildPlan(q, t).1, q.plan);
      BuildKeepsInputs(q, t);
    }
  }

  // ------------------------------------------------------------------------
  // When the wake-up time is strictly in the future.
  // ------------------------------------------------------------------------

  lemma CandidateDueLater(p: Policy, now: int)
    requires p.config.candidateDelay > 0 && Ready(p) && p.catalog.Some?
    ensures var due := CandidateDue(Advanced(p, now)); due.Some? ==> due.value > now
  {
    hide SpeakerCamera, RefreshShare;
  }

  predicate Overdue(due: Option<int>, now: int) { due.Some? && due.value <= now }

  /** A visible video stage that is laid out around a focus. */
  predicate FocusedView(p: Policy, now: int)
  {
    p.catalog.Some? && !NothingVisible(p.viewport) && p.viewport.content == VideoStage
    && LayoutOf(Advanced(p, now)).FocusedLayout?
  }

  lemma FocusDueLater(p: Policy, seats: seq<Candidate>, allowShare: bool, now: int)
    ensures var due := FocusDue(p.(focus := FocusFor(p, seats, allowShare, now))); due.Some? ==> due.value > now
  {
    hide ResolveSeat, ResolveTrack, OrderedSeats, IsAutoShare;
  }

  lemma FocusAfterLay(p: Policy, now: int)
    requires p.accepting && FocusedView(p, now)
    ensures var a := Advanced(p, now);
      && Reconciled(p, now).focus == FocusFor(a, OrderedSeats(p.catalog), LayoutOf(a).allowShare, now)
      && FocusDue(Reconciled(p, now)) == FocusDue(a.(focus := Reconciled(p, now).focus))
  {
    BuildKeepsInputs(p, now);
    hide Advanced, FocusFor, Arrange, OrderedSeats, SamePlan, SelectedAudio, ResolveTrack, ResolveSeat, LayoutOf;
  }

  /** Every other plan leaves the focus alone. */
  lemma FocusLeftAlone(p: Policy, now: int)
    requires p.accepting && p.catalog.Some? && !FocusedView(p, now)
    ensures Reconciled(p, now).focus == p.focus
    ensures FocusDue(Reconciled(p, now)) == FocusDue(Advanced(p, now))
  {
    BuildKeepsInputs(p, now);
    hide Advance, RefreshShare, BuildGrid, BuildFocused, OrderedSeats, SamePlan, SelectedAudio, ResolveTrack,
         ResolveSeat, LayoutOf;
  }

  lemma CandidateDueStays(p: Policy, now: int)
    requires p.accepting && p.catalog.Some?
    ensures CandidateDue(Reconciled(p, now)) == CandidateDue(Advanced(p, now))
  {
    BuildKeepsInputs(p, now);
    hide BuildPlan, Advance, RefreshShare, SamePlan, ResolveTrack;
  }

  lemma NothingDue(p: Policy, now: int)
    requires p.catalog.None?
    ensures CandidateDue(Reconciled(p, now)).None? && FocusDue(Reconciled(p, now)).None?
    ensures FocusDue(Advanced(p, now)).None? && CandidateDue(Advanced(p, now)).None?
  {
    hide Advance, RefreshShare, SamePlan;
  }

  /**
   Exactly when the wake-up time is the present, told before the reconciliation:
   the speaker and the share have advanced, and then either a candidate is
   already due, which a positive delay rules out, or no focused layout is shown
   and the residence of a leftover focus has run out.
   */
  lemma WakesAtOnceExactly(p: Policy, now: int)
    ensures NextReconcileAt(Reconciled(p, now), now) == Some(now) <==>
      && p.accepting
      && (Overdue(CandidateDue(Advanced(p, now)), now)
          || (!FocusedView(p, now) && Overdue(FocusDue(Advanced(p, now)), now)))
    ensures Ready(p) && p.config.candidateDelay > 0 ==> !Overdue(CandidateDue(Advanced(p, now)), now)
  {
    hide Advanced, Ready, CandidateDue, FocusDue, Reconciled, LayoutOf, NothingVisible;
    ReconciledAccepts(p, now);
    if p.accepting && p.catalog.Some? {
      CandidateDueStays(p, now);
      if FocusedView(p, now) {
        FocusAfterLay(p, now);
        FocusDueLater(Advanced(p, now), OrderedSeats(p.catalog), LayoutOf(Advanced(p, now)).allowShare, now);
      } else {
        FocusLeftAlone(p, now);
      }
    }
    if p.catalog.Some? {
      if Ready(p) && p.config.candidateDelay > 0 {
        CandidateDueLater(p, now);
      }
    } else {
      NothingDue(p, now);
    }
  }

  lemma ReconciledAccepts(p: Policy, now: int)
    ensures Reconciled(p, now).accepting == p.accepting
  {
    BuildKeepsInputs(p, now);
    hide BuildPlan, SamePlan;
  }

  /** A focused layout never leaves an overdue focus behind. */
  lemma FocusedWakesLater(p: Policy, now: int)
    requires Ready(p) && p.config.candidateDelay > 0 && p.accepting && FocusedView(p, now)
    ensures var next := NextReconcileAt(Reconciled(p, now), now); next.Some? ==> next.value > now
  {
    WakesAtOnceExactly(p, now);
    hide Reconciled, Ready, CandidateDue, FocusDue, Advanced, FocusedView;
  }

  // ------------------------------------------------------------------------
  // A wake-up at once repeats: the timer is armed again after every wake-up.
  // ------------------------------------------------------------------------

  lemma ReconciledReady(p: Policy, now: int)
    requires Ready(p)
    ensures Ready(Reconciled(p, now)) && Reconciled(p, now).config == p.config
  {
    StepReady(p, Reconcile(now));
    hide Reconciled, Ready;
  }

  lemma ReconciledKeeps(p: Policy, now: int)
    requires p.accepting && p.catalog.Some?
    ensures var q := Reconciled(p, now);
      SameInputs(p, q) && q.speech == Advanced(p, now).speech && q.autoShare == Advanced(p, now).autoShare
  {
    BuildKeepsInputs(p, now);
    hide BuildPlan, Advanced, SamePlan;
  }

  lemma StillUnfocused(p: Policy, now: int, t: int)
    requires Ready(p) && p.accepting && p.catalog.Some?
    ensures FocusedView(Reconciled(p, now), t) == FocusedView(p, now)
  {
    hide Reconciled, CatalogOk, LayoutOf, Advance, RefreshShare;
    var q := Reconciled(p, now);
    ReconciledKeeps(p, now);
    ShareStays(p.catalog, p.autoShare);
    LayoutSame(Advanced(p, now), Advanced(q, t));
  }

  /** How an overdue focus fares when time goes on: only the candidate taking over can settle it. */
  lemma StillDue(p: Policy, now: int, q: Policy, t: int)
    requires Ready(p) && p.config.candidateDelay > 0 && now <= t
    requires SameInputs(p, q) && q.focus == p.focus && q.speech == Advanced(p, now).speech
    requires Overdue(FocusDue(Advanced(p, now)), now)
    ensures Overdue(FocusDue(Advanced(q, t)), t) <==> !(q.speech.candidate == q.focus.key && Overdue(CandidateDue(q), t))
  {
    hide SpeakerCamera, RefreshShare, CatalogOk, Advance, ResolveTrack, ResolveSeat;
    AdvanceLeaves(p.catalog, p.speakers, p.speech, now, p.config.candidateDelay);
    AdvanceAgain(p.catalog, p.speakers, q.speech, t, p.config.candidateDelay);
  }

  /**
   With no new input, a wake-up at once is followed by another one at every later
   wake-up, for ever, unless the waiting candidate is the focus itself: then it
   goes on until that candidate becomes the stable speaker.
   */
  lemma AtOnceRepeatsExactly(p: Policy, now: int, t: int)
    requires Ready(p) && p.config.candidateDelay > 0 && now <= t
    requires NextReconcileAt(Reconciled(p, now), now) == Some(now)
    ensures var q := Reconciled(p, now);
      NextReconcileAt(Reconciled(q, t), t) == Some(t) <==>
        !(q.speech.candidate == q.focus.key && Overdue(CandidateDue(q), t))
  {
    var q := Reconciled(p, now);
    hide Reconciled, Advanced, FocusedView, FocusDue, CandidateDue, CatalogOk;
    WakesAtOnceExactly(p, now);
    ReconciledReady(p, now);
    WakesAtOnceExactly(q, t);
    if p.catalog.None? {
      NothingDue(p, now);
    } else {
      ReconciledKeeps(p, now);
      FocusLeftAlone(p, now);
      StillUnfocused(p, now, t);
      StillDue(p, now, q, t);
    }
  }

  function ReconciledAt(p: Policy, times: seq<int>): Policy
    decreases |times|
  {
    if times == [] then p else ReconciledAt(Reconciled(p, times[0]), times[1..])
  }

  ghost predicate NotBefore(now: int, times: seq<int>)
    decreases |times|
  {
    times != [] ==> now <= times[0] && NotBefore(times[0], times[1..])
  }

  /** Unless the waiting candidate is the focus, every later wake-up asks for another one at once. */
  lemma {:induction false} AtOnceForEver(p: Policy, now: int, times: seq<int>)
    requires Ready(p) && p.config.candidateDelay > 0 && NotBefore(now, times)
    requires NextReconcileAt(Reconciled(p, now), now) == Some(now)
    requires Reconciled(p, now).speech.candidate != Reconciled(p, now).focus.key
    ensures var last := if times == [] then now else times[|times| - 1];
      NextReconcileAt(ReconciledAt(Reconciled(p, now), times), last) == Some(last)
    decreases |times|
  {
    hide Reconciled, NextReconcileAt, Ready, Overdue;
    if times != [] {
      var q, t := Reconciled(p, now), times[0];
      ReconciledReady(p, now);
      AtOnceRepeatsExactly(p, now, t);
      AtOnceKeeps(p, now, t);
      AtOnceForEver(q, t, times[1..]);
    }
  }

  lemma AtOnceKeeps(p: Policy, now: int, t: int)
    requires Ready(p) && p.config.candidateDelay > 0 && now <= t
    requires NextReconcileAt(Reconciled(p, now), now) == Some(now)
    ensures var q := Reconciled(p, now);
      var r := Reconciled(q, t);
      r.speech.candidate == q.speech.candidate && r.focus.key == q.focus.key
  {
    hide Reconciled, Advance, RefreshShare, FocusedView, FocusDue, CandidateDue, CatalogOk, ResolveTrack, SpeakerCamera;
    var q := Reconciled(p, now);
    WakesAtOnceExactly(p, now);
    ReconciledReady(p, now);
    if p.catalog.None? {
      NothingDue(p, now);
    } else {
      ReconciledKeeps(p, now);
      ReconciledKeeps(q, t);
      StillUnfocused(p, now, t);
      FocusLeftAlone(q, t);
      AdvanceLeaves(p.catalog, p.speakers, p.speech, now, p.config.candidateDelay);
      AdvanceAgain(p.catalog, p.speakers, q.speech, t, p.config.candidateDelay);
    }
  }

  // ------------------------------------------------------------------------
  // Every reachable policy is ready.
  // ------------------------------------------------------------------------

  function Run(session: nat, config: Config, ops: seq<Op>): Policy
  {
    if ops == [] then Initial(session, config)
    else Step(Run(session, config, ops[..|ops| - 1]), ops[|ops| - 1])
  }

  /** Every catalog handed to the policy keeps the catalog invariant. */
  ghost predicate GoodCatalogs(ops: seq<Op>)
  {
    forall op :: op in ops && op.UpdateCatalog? ==>
      Catalogs.ParticipantsOk(op.snapshot.generation, op.snapshot.participants)
  }

  lemma FocusCoherent(p: Policy, seats: seq<Candidate>, allowShare: bool, now: int)
    requires Coherent(p)
    ensures var f := FocusFor(p, seats, allowShare, now); f.key.Some? <==> f.since.Some?
  {
    hide ResolveSeat, ResolveTrack, SpeakerCamera, Find;
  }

  lemma LayCoherent(p: Policy, plan: Plan, now: int)
    requires Coherent(p)
    ensures Coherent(Lay(p, plan, now).0)
  {
    hide FocusFor, OrderedSeats, BuildGrid, Arrange, LayoutOf, NormalizePageSize;
    match LayoutOf(p)
    case FocusedLayout(_, allowShare) => FocusCoherent(p, OrderedSeats(p.catalog), allowShare, now);
    case _ =>
  }

  lemma AdvanceCoherent(p: Policy, now: int)
    requires Coherent(p)
    ensures Coherent(Advanced(p, now))
  {
    hide SpeakerCamera, RefreshShare, ResolveTrack;
  }

  lemma ReconcileCoherent(p: Policy, now: int)
    requires Coherent(p)
    ensures Coherent(Reconciled(p, now))
  {
    hide Lay, Advanced, SamePlan, SelectedAudio, NothingVisible, ResolveTrack;
    AdvanceCoherent(p, now);
    if p.catalog.Some? {
      var p' := Advanced(p, now);
      var plan := EmptyPlan(p).(catalogRevision := p.catalog.value.revision, selectedAudio := SelectedAudio(p.catalog),
                                stableSpeaker := ResolveTrack(p.catalog, p'.speech.stable, Some(Camera)));
      LayCoherent(p', plan, now);
    }
  }

  lemma StepReady(p: Policy, op: Op)
    requires Ready(p)
    requires op.UpdateCatalog? ==> Catalogs.ParticipantsOk(op.snapshot.generation, op.snapshot.participants)
    ensures Ready(Step(p, op)) && Step(p, op).config == p.config
  {
    hide SpeakerCamera;
    match op
    case Reconcile(now) =>
      ReconcileCoherent(p, now);
      BuildKeepsInputs(p, now);
      hide BuildPlan, Coherent, SamePlan;
    case _ =>
  }

  lemma {:induction false} RunReady(session: nat, config: Config, ops: seq<Op>)
    requires GoodCatalogs(ops)
    ensures Ready(Run(session, config, ops)) && Run(session, config, ops).config == Normalized(config)
  {
    hide Step, Ready;
    if ops == [] {
      assert Ready(Initial(session, config)) by { InitialReady(session, config); }
    } else {
      var before := ops[..|ops| - 1];
      assert forall op :: op in before ==> op in ops;
      assert ops[|ops| - 1] in ops;
      RunReady(session, config, before);
      StepReady(Run(session, config, before), ops[|ops| - 1]);
    }
  }

  lemma InitialReady(session: nat, config: Config)
    ensures Ready(Initial(session, config))
  {
  }

  /** In every reachable state of the policy, sleeping until NextReconcileAt misses nothing. */
  lemma SleepingMissesNothing(session: nat, config: Config, ops: seq<Op>, t1: int, t: int)
    requires GoodCatalogs(ops) && t1 <= t
    requires Before(t, NextReconcileAt(Run(session, config, ops + [Reconcile(t1)]), t1))
    ensures Run(session, config, ops + [Reconcile(t1)] + [Reconcile(t)]).plan
         == Run(session, config, ops + [Reconcile(t1)]).plan
  {
    RunReady(session, config, ops);
    var once := ops + [Reconcile(t1)];
    assert once[..|once| - 1] == ops;
    assert (once + [Reconcile(t)])[..|once|] == once;
    hide Reconciled, NextReconcileAt, Ready;
    WakeUpSound(Run(session, config, ops), t1, t);
  }
}
