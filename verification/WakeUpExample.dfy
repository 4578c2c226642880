/**
 A reachable policy that wants to wake up at once: a fallback focus is left over
 from a speaker view, the grid is shown, and another speaker has become stable
 (src/core/video_demand_policy.cpp:177-204, 386-437).
 */
module WakeUpExample {
  import opened Common
  import opened ParticipantEvents
  import opened DemandTypes
  import opened DemandPolicy
  import opened DemandSeats
  import opened WakeUp
  import Catalogs

  const ANN := ParticipantKey(1, 1, "PA", "ann")
  const BEN := ParticipantKey(1, 2, "PB", "ben")
  const ANN_CAMERA := TrackKey(ANN, 1, "TA")
  const BEN_CAMERA := TrackKey(BEN, 1, "TB")
  const LIVE := TrackState("", Video, Camera, false, false, true, NoError)
  const ANN_VIDEO := Catalogs.Publication(ANN_CAMERA, Lost, LIVE, true)
  const BEN_VIDEO := Catalogs.Publication(BEN_CAMERA, Lost, LIVE, true)
  const BOTH := Catalogs.Snapshot(1, 1, 1, [
    Catalogs.Participant(ANN, Lost, "ann", false, 0, [ANN_VIDEO]),
    Catalogs.Participant(BEN, Lost, "ben", true, 0, [BEN_VIDEO])])

  const SETTINGS := Config(16, 9, 4, 1000, 3000)
  const IN_FOCUS := Viewport(1, 1, 1, SpeakerView, 0, 9, None, None, None, VideoStage, Extent(1280, 720), 0, true, false)
  const IN_GRID := IN_FOCUS.(viewRevision := 2, mode := Grid)
  const BEN_SPEAKS := [Speaker(BEN, false, true)]

  lemma OneVideo(p: Catalogs.Participant, v: Catalogs.Publication)
    requires p.key.generation == 1 && p.publications == [v] && v.state == LIVE && v.key.participant == p.key
    ensures SeatsOf(1, p) == [SeatOf(v)]
  {
    assert [v][..0] == [];
    assert VideosOf(1, [v]) == [v];
    assert StableSort([v]) == [v];
    assert SeatsOfAll([v]) == [SeatOf(v)];
  }

  const ANN_IN := BOTH.participants[0]
  const BEN_IN := BOTH.participants[1]

  lemma InOrderOfEntry()
    ensures OrderedSeats(Some(BOTH)) == [SeatOf(ANN_VIDEO), SeatOf(BEN_VIDEO)]
  {
    var ps := BOTH.participants;
    OneVideo(ANN_IN, ANN_VIDEO);
    OneVideo(BEN_IN, BEN_VIDEO);
    hide SeatsOf;
    assert ps[..1][..0] == [] && ps[..1] == [ps[0]];
    assert SeatsOfParticipants(1, ps[..1]) == [SeatOf(ANN_VIDEO)];
    assert SeatsOfParticipants(1, ps) == SeatsOfParticipants(1, ps[..1]) + SeatsOf(1, ps[1]);
  }

  lemma GoodCatalog()
    ensures Catalogs.ParticipantsOk(1, BOTH.participants)
  {
    assert Catalogs.PublicationsOk(ANN, [ANN_VIDEO]) && Catalogs.PublicationsOk(BEN, [BEN_VIDEO]);
    assert Catalogs.Separate(ANN, BEN);
  }

  lemma CamerasResolve()
    ensures ResolveTrack(Some(BOTH), Some(BEN_CAMERA), Some(Camera)) == Some(BEN_CAMERA)
    ensures ResolveSeat(Some(BOTH), Some(ANN_CAMERA)) == Some(ANN_CAMERA)
    ensures Find(Some(BOTH), BEN_CAMERA) == Some(BEN_VIDEO)
  {
    GoodCatalog();
    assert ANN_VIDEO in ANN_IN.publications && BEN_VIDEO in BEN_IN.publications;
    assert ANN_IN in BOTH.participants && BEN_IN in BOTH.participants;
    FindExact(Some(BOTH), ANN_IN, ANN_VIDEO);
    FindExact(Some(BOTH), BEN_IN, BEN_VIDEO);
    hide Find, OrderedSeats;
  }

  lemma BenIsHeard()
    ensures SpeakerCamera(Some(BOTH), BEN_SPEAKS) == Some(BEN_CAMERA)
    ensures FirstShare(OrderedSeats(Some(BOTH))) == None
  {
    InOrderOfEntry();
    var seats := [SeatOf(ANN_VIDEO), SeatOf(BEN_VIDEO)];
    assert seats[1..] == [SeatOf(BEN_VIDEO)] && seats[1..][1..] == [];
    assert FirstCamera(BEN, seats[1..]) == Some(BEN_CAMERA);
    assert FirstShare(seats[1..][1..]) == None;
    assert FirstShare(seats[1..]) == None;
  }

  /** Nobody speaks in a speaker view: the first seat becomes the focus. */
  lemma FallbackInFocus(p: Policy)
    requires p.accepting && p.catalog == Some(BOTH) && p.viewport == IN_FOCUS && p.speakers == []
    requires p.speech == SILENCE && p.autoShare.None? && p.focus == NO_FOCUS
    ensures Reconciled(p, 0).focus == Focus(Some(ANN_CAMERA), ByFallback, Some(0))
    ensures Reconciled(p, 0).speech == SILENCE && SameInputs(p, Reconciled(p, 0))
  {
    InOrderOfEntry();
    BenIsHeard();
    hide OrderedSeats, FirstShare, Reconciled;
    assert Advanced(p, 0).speech == SILENCE && Advanced(p, 0).autoShare == None;
    assert FocusedView(p, 0);
    FocusAfterLay(p, 0);
    ReconciledKeeps(p, 0);
  }

  /** In the grid that focus stays behind, and the speaker who is heard for long enough is due to take it over. */
  lemma LeftoverIsDue(p: Policy, now: int)
    requires p.accepting && p.catalog == Some(BOTH) && p.viewport == IN_GRID && p.speakers == BEN_SPEAKS
    requires p.config == SETTINGS && p.focus == Focus(Some(ANN_CAMERA), ByFallback, Some(0)) && now >= 3000
    requires p.speech.candidate == Some(BEN_CAMERA) && p.speech.since == Some(0)
    ensures NextReconcileAt(Reconciled(p, now), now) == Some(now)
  {
    CamerasResolve();
    BenIsHeard();
    hide SpeakerCamera, RefreshShare, Find, ResolveSeat, OrderedSeats, Reconciled;
    assert Advanced(p, now).speech.stable == Some(BEN_CAMERA);
    assert FocusDue(Advanced(p, now)) == Some(3000);
    assert !FocusedView(p, now) by { NotFocused(p, now); }
    WakesAtOnceExactly(p, now);
  }

  lemma NotFocused(p: Policy, now: int)
    requires p.viewport == IN_GRID
    ensures !FocusedView(p, now)
  {
    hide Advance, RefreshShare, OrderedSeats;
  }

  const ENTER: seq<Op> := [UpdateCatalog(BOTH), UpdateViewport(IN_FOCUS), Reconcile(0)]
  const SWITCH: seq<Op> := [UpdateViewport(IN_GRID), UpdateSpeakers(BEN_SPEAKS, 0)]

  lemma RunMore(ops: seq<Op>, op: Op)
    ensures Run(1, SETTINGS, ops + [op]) == Step(Run(1, SETTINGS, ops), op)
  {
    assert (ops + [op])[..|ops|] == ops;
  }

  lemma Entered()
    ensures var p := Run(1, SETTINGS, ENTER);
      && p.accepting && p.catalog == Some(BOTH) && p.viewport == IN_FOCUS && p.hasViewport && p.session == 1
      && p.config == SETTINGS && p.speech == SILENCE && p.focus == Focus(Some(ANN_CAMERA), ByFallback, Some(0))
  {
    var start := Initial(1, SETTINGS);
    assert Run(1, SETTINGS, []) == start;
    hide Run;
    RunMore([], UpdateCatalog(BOTH));
    RunMore([UpdateCatalog(BOTH)], UpdateViewport(IN_FOCUS));
    var p := Step(Step(start, UpdateCatalog(BOTH)), UpdateViewport(IN_FOCUS));
    assert [] + [UpdateCatalog(BOTH)] == [UpdateCatalog(BOTH)];
    assert [UpdateCatalog(BOTH)] + [UpdateViewport(IN_FOCUS)] == ENTER[..2];
    assert Run(1, SETTINGS, ENTER[..2]) == p;
    RunMore(ENTER[..2], Reconcile(0));
    assert ENTER[..2] + [Reconcile(0)] == ENTER;
    FallbackInFocus(p);
    InputsStay(p);
    hide Reconciled;
  }

  lemma InputsStay(p: Policy)
    requires p.accepting && p.catalog.Some?
    ensures Reconciled(p, 0).hasViewport == p.hasViewport
  {
    hide BuildGrid, Arrange, ChooseFocus, LayoutOf, OrderedSeats, Advance, RefreshShare, SamePlan;
  }

  lemma RunIsGood()
    ensures GoodCatalogs(ENTER + SWITCH)
  {
    GoodCatalog();
  }

  /** The wake-up time of a reachable policy is the present. */
  lemma WakesAtOnceExample()
    ensures exists ops ::
      && GoodCatalogs(ops) && SETTINGS.candidateDelay > 0
      && NextReconcileAt(Run(1, SETTINGS, ops + [Reconcile(3000)]), 3000) == Some(3000)
  {
    hide Run, Reconciled, SpeakerCamera, ResolveTrack, ResolveSeat, Find, NextReconcileAt, GoodCatalogs, FirstShare,
         OrderedSeats;
    var ops := ENTER + SWITCH;
    Entered();
    BenIsHeard();
    RunMore(ENTER, SWITCH[0]);
    RunMore(ENTER + [SWITCH[0]], SWITCH[1]);
    assert ENTER + [SWITCH[0]] + [SWITCH[1]] == ops;
    LeftoverIsDue(Run(1, SETTINGS, ops), 3000);
    RunMore(ops, Reconcile(3000));
    RunIsGood();
  }
}
