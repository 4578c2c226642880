/**
 The two delays of the policy, over whole runs: who becomes the stable speaker,
 and when the focus may move to another speaker
 (src/core/video_demand_policy.cpp:355-372, 386-437).
 */
module Hysteresis {
  import opened Common
  import opened ParticipantEvents
  import opened DemandTypes
  import opened DemandPolicy
  import DemandMeaning
  import DemandSeats
  import PlanMeaning
  import WakeUp

  /** One look at who speaks, and the focus one reconciliation left. */
  datatype Heard = Heard(time: int, camera: Option<TrackKey>)
  datatype Seen = Seen(time: int, focus: Option<TrackKey>)

  datatype Watch = Watch(policy: Policy, heard: seq<Heard>, seen: seq<Seen>)

  function HeardBy(p: Policy, op: Op): seq<Heard>
  {
    match op
    case UpdateSpeakers(speakers, now) =>
      if p.accepting then [Heard(now, SpeakerCamera(p.catalog, speakers))] else []
    case Reconcile(now) =>
      if p.accepting && p.catalog.Some? then [Heard(now, SpeakerCamera(p.catalog, p.speakers))] else []
    case _ => []
  }

  function StepWatch(w: Watch, op: Op): Watch
  {
    var p := Step(w.policy, op);
    Watch(p, w.heard + HeardBy(w.policy, op),
          if op.Reconcile? && w.policy.accepting then w.seen + [Seen(op.now, p.focus.key)] else w.seen)
  }

  function RunWatch(session: nat, config: Config, ops: seq<Op>): Watch
  {
    if ops == [] then Watch(Initial(session, config), [], [])
    else StepWatch(RunWatch(session, config, ops[..|ops| - 1]), ops[|ops| - 1])
  }

  /** The entries from i to the last all heard this camera. */
  ghost predicate HeardSince(heard: seq<Heard>, i: int, camera: Option<TrackKey>)
  {
    0 <= i < |heard| && forall j :: i <= j < |heard| ==> heard[j].camera == camera
  }

  ghost predicate SeenSince(seen: seq<Seen>, i: int, focus: Option<TrackKey>)
  {
    0 <= i < |seen| && forall j :: i <= j < |seen| ==> seen[j].focus == focus
  }

  /** Every observation since that time, and one at that time, heard this camera. */
  ghost predicate HeardFrom(heard: seq<Heard>, camera: Option<TrackKey>, since: int)
  {
    exists i :: HeardSince(heard, i, camera) && heard[i].time == since
  }

  ghost predicate SeenFrom(seen: seq<Seen>, focus: Option<TrackKey>, since: int)
  {
    exists i :: SeenSince(seen, i, focus) && seen[i].time == since
  }

  ghost predicate SpeechRemembered(heard: seq<Heard>, s: Speech)
  {
    && (s.candidate.Some? <==> s.since.Some?)
    && (s.candidate.Some? ==> HeardFrom(heard, s.candidate, s.since.value))
  }

  ghost predicate FocusRemembered(seen: seq<Seen>, f: Focus)
  {
    && (f.key.Some? <==> f.since.Some?)
    && (f.key.Some? ==> SeenFrom(seen, f.key, f.since.value))
  }

  /** The times the policy remembers are those at which the present streaks began. */
  ghost predicate Remembers(w: Watch)
  {
    SpeechRemembered(w.heard, w.policy.speech) && FocusRemembered(w.seen, w.policy.focus)
  }

  lemma SpeechRemembers(heard: seq<Heard>, c: Catalog, speakers: seq<Speaker>, s: Speech, now: int, delay: int)
    requires SpeechRemembered(heard, s)
    ensures SpeechRemembered(heard + [Heard(now, SpeakerCamera(c, speakers))], Advance(c, speakers, s, now, delay))
  {
    hide SpeakerCamera, Find;
    var s' := Advance(c, speakers, s, now, delay);
    var heard' := heard + [Heard(now, SpeakerCamera(c, speakers))];
    if s'.candidate.Some? {
      if s.candidate == s'.candidate {
        var i :| HeardSince(heard, i, s.candidate) && heard[i].time == s.since.value;
        assert HeardSince(heard', i, s'.candidate);
      } else {
        assert HeardSince(heard', |heard|, s'.candidate);
        assert heard'[|heard|].time == s'.since.value;
      }
    }
  }

  /** How a reconciliation moves the focus: it stays with its time, goes, or starts now. */
  lemma ReconcileFocus(p: Policy, now: int)
    requires p.focus.key.Some? <==> p.focus.since.Some?
    ensures var f, g := p.focus, Reconciled(p, now).focus;
      && (g.key.Some? <==> g.since.Some?)
      && (g.key.Some? ==> g.since == if f.key == g.key then f.since else Some(now))
  {
    hide Advance, RefreshShare, OrderedSeats, ResolveSeat, ResolveTrack, BuildGrid, Arrange, SamePlan, LayoutOf,
         SelectedAudio, Find;
  }

  lemma ReconcileSpeech(p: Policy, now: int)
    requires p.accepting
    ensures Reconciled(p, now).speech
      == if p.catalog.Some? then Advance(p.catalog, p.speakers, p.speech, now, p.config.candidateDelay) else p.speech
  {
    WakeUp.BuildKeepsInputs(p, now);
    assert p.catalog.None? ==> BuildPlan(p, now).0 == p;
    hide BuildPlan, Advance, SamePlan;
  }

  lemma FocusRemembers(seen: seq<Seen>, p: Policy, now: int)
    requires FocusRemembered(seen, p.focus)
    ensures FocusRemembered(seen + [Seen(now, Reconciled(p, now).focus.key)], Reconciled(p, now).focus)
  {
    ReconcileFocus(p, now);
    hide Reconciled;
    var f, g := p.focus, Reconciled(p, now).focus;
    var seen' := seen + [Seen(now, g.key)];
    if g.key.Some? {
      if f.key == g.key {
        var i :| SeenSince(seen, i, f.key) && seen[i].time == f.since.value;
        assert SeenSince(seen', i, g.key);
      } else {
        assert SeenSince(seen', |seen|, g.key);
        assert seen'[|seen|].time == g.since.value;
      }
    }
  }

  lemma StepRemembers(w: Watch, op: Op)
    requires Remembers(w)
    ensures Remembers(StepWatch(w, op))
  {
    hide SpeechRemembered, FocusRemembered, Advance, SpeakerCamera;
    var p := w.policy;
    match op
    case Reconcile(now) =>
      if p.accepting {
        ReconcileSpeech(p, now);
        FocusRemembers(w.seen, p, now);
        SpeechRemembers(w.heard, p.catalog, p.speakers, p.speech, now, p.config.candidateDelay);
        hide Reconciled;
        assert p.catalog.None? ==> StepWatch(w, op).heard == w.heard;
      } else {
        assert StepWatch(w, op) == w;
      }
    case UpdateSpeakers(speakers, now) =>
      if p.accepting {
        SpeechRemembers(w.heard, p.catalog, speakers, p.speech, now, p.config.candidateDelay);
      } else {
        assert StepWatch(w, op) == w;
      }
    case _ =>
      assert StepWatch(w, op).heard == w.heard && StepWatch(w, op).seen == w.seen;
      NothingRemembered(w);
  }

  lemma NothingRemembered(w: Watch)
    ensures SpeechRemembered(w.heard, SILENCE)
    ensures forall o :: FocusRemembered(w.seen, Focus(None, o, None))
  {
  }

  lemma {:induction false} RunRemembers(session: nat, config: Config, ops: seq<Op>)
    ensures Remembers(RunWatch(session, config, ops))
  {
    hide StepWatch;
    NothingRemembered(RunWatch(session, config, []));
    if ops != [] {
      RunRemembers(session, config, ops[..|ops| - 1]);
      StepRemembers(RunWatch(session, config, ops[..|ops| - 1]), ops[|ops| - 1]);
    }
  }

  lemma AdvanceGrants(c: Catalog, speakers: seq<Speaker>, s: Speech, now: int, delay: int, k: TrackKey)
    requires s.stable != Some(k) && Advance(c, speakers, s, now, delay).stable == Some(k)
    ensures var s' := Advance(c, speakers, s, now, delay);
      s'.candidate == Some(k) && s'.since.Some? && now - s'.since.value >= delay
  {
  }

  /** Only an observation can grant: it is logged, and the candidate has waited long enough. */
  lemma GrantIsObserved(w: Watch, op: Op, k: TrackKey)
    requires w.policy.speech.stable != Some(k) && Step(w.policy, op).speech.stable == Some(k)
    ensures var w' := StepWatch(w, op);
      var s := w'.policy.speech;
      && s.candidate == Some(k) && s.since.Some? && w'.heard != []
      && w'.heard[|w'.heard| - 1].time - s.since.value >= w.policy.config.candidateDelay
  {
    hide SpeakerCamera, Find, Advance;
    var p := w.policy;
    if op.Reconcile? && p.accepting {
      ReconcileSpeech(p, op.now);
      hide Reconciled;
      AdvanceGrants(p.catalog, p.speakers, p.speech, op.now, p.config.candidateDelay, k);
    } else if op.UpdateSpeakers? {
      AdvanceGrants(p.catalog, op.speakers, p.speech, op.now, p.config.candidateDelay, k);
    }
  }

  /** This camera was heard by every observation of a stretch of at least that length, up to the last one. */
  ghost predicate HeardThroughout(heard: seq<Heard>, k: TrackKey, delay: int)
  {
    exists i :: HeardSince(heard, i, Some(k)) && heard[|heard| - 1].time - heard[i].time >= delay
  }

  /**
   A key becomes the stable speaker only after every observation of the last
   candidate delay has heard it.
   */
  lemma SpeakerHysteresis(session: nat, config: Config, ops: seq<Op>, op: Op, k: TrackKey)
    requires RunWatch(session, config, ops).policy.speech.stable != Some(k)
    requires RunWatch(session, config, ops + [op]).policy.speech.stable == Some(k)
    ensures HeardThroughout(RunWatch(session, config, ops + [op]).heard, k,
                            RunWatch(session, config, ops).policy.config.candidateDelay)
  {
    var w := RunWatch(session, config, ops);
    assert (ops + [op])[..|ops|] == ops;
    RunRemembers(session, config, ops + [op]);
    GrantIsObserved(w, op, k);
    var w' := StepWatch(w, op);
    hide StepWatch, RunWatch;
    var i :| HeardSince(w'.heard, i, Some(k)) && w'.heard[i].time == w'.policy.speech.since.value;
  }

  // ------------------------------------------------------------------------
  // The other way round: who is heard for long enough becomes stable.
  // ------------------------------------------------------------------------

  /** An observation while the catalog stays: speakers, or a reconciliation. */
  predicate Listens(op: Op) { op.UpdateSpeakers? || op.Reconcile? }

  function StepAll(p: Policy, ops: seq<Op>): Policy
  {
    if ops == [] then p else Step(StepAll(p, ops[..|ops| - 1]), ops[|ops| - 1])
  }

  /** Every one of these observations hears this camera. */
  ghost predicate HearsAll(p: Policy, ops: seq<Op>, k: TrackKey)
  {
    ops != [] ==>
      var before, op := StepAll(p, ops[..|ops| - 1]), ops[|ops| - 1];
      && HearsAll(p, ops[..|ops| - 1], k)
      && Listens(op)
      && DemandMeaning.HeardCamera(before.catalog, if op.UpdateSpeakers? then op.speakers else before.speakers, Some(k))
  }

  /** At most one camera is the first one heard. */
  lemma OneCameraHeard(c: Catalog, speakers: seq<Speaker>, a: Option<TrackKey>, b: Option<TrackKey>)
    requires DemandMeaning.HeardCamera(c, speakers, a) && DemandMeaning.HeardCamera(c, speakers, b)
    ensures a == b
  {
    hide DemandMeaning.CanBeHeard, OrderedSeats, DemandMeaning.FilmsLive;
    if a.Some? && b.Some? {
      var m: nat :| DemandMeaning.HeardAt(c, speakers, a.value, m);
      var n: nat :| DemandMeaning.HeardAt(c, speakers, b.value, n);
      assert m == n;
    }
  }

  predicate HasWaited(p: Policy, k: TrackKey, now: int)
  {
    p.speech.candidate == Some(k) && p.speech.since.Some? && now - p.speech.since.value >= p.config.candidateDelay
  }

  lemma ListenStep(p: Policy, op: Op, k: TrackKey)
    requires DemandSeats.CatalogOk(p.catalog) && p.accepting && p.catalog.Some? && Listens(op)
    requires DemandMeaning.HeardCamera(p.catalog, if op.UpdateSpeakers? then op.speakers else p.speakers, Some(k))
    ensures var q := Step(p, op);
      && q.catalog == p.catalog && q.accepting && q.config == p.config
      && q.speech.candidate == Some(k)
      && q.speech.since == (if p.speech.candidate == Some(k) then p.speech.since else Some(op.now))
      && (HasWaited(p, k, op.now) ==> q.speech.stable == Some(k))
  {
    hide DemandSeats.CatalogOk, Advance, DemandMeaning.HeardCamera, Reconciled;
    if op.UpdateSpeakers? {
      DemandMeaning.SpeechMeans(p.catalog, op.speakers, p.speech, op.now, p.config.candidateDelay);
      OneCameraHeard(p.catalog, op.speakers, Some(k), Step(p, op).speech.candidate);
    } else {
      PlanMeaning.Observes(p, op.now);
      OneCameraHeard(p.catalog, p.speakers, Some(k), Step(p, op).speech.candidate);
    }
  }

  /** What a row of such observations leaves: the camera is the candidate, since the first of them at the latest. */
  lemma {:induction false} ListenAll(p: Policy, ops: seq<Op>, k: TrackKey)
    requires DemandSeats.CatalogOk(p.catalog) && p.accepting && p.catalog.Some? && HearsAll(p, ops, k) && ops != []
    requires Listens(ops[0]) && (p.speech.candidate == Some(k) ==> p.speech.since.Some? && p.speech.since.value <= ops[0].now)
    ensures var q := StepAll(p, ops);
      && q.catalog == p.catalog && q.accepting && q.config == p.config
      && q.speech.candidate == Some(k) && q.speech.since.Some? && q.speech.since.value <= ops[0].now
  {
    hide Step, DemandSeats.CatalogOk, DemandMeaning.HeardCamera;
    var n := |ops| - 1;
    if n == 0 {
      assert StepAll(p, ops[..0]) == p;
      ListenStep(p, ops[0], k);
    } else {
      assert ops[..n][0] == ops[0];
      ListenAll(p, ops[..n], k);
      ListenStep(StepAll(p, ops[..n]), ops[n], k);
    }
  }

  /**
   A camera that every observation hears, from one to another at least the
   candidate delay later, is the stable speaker after the last of them.
   */
  lemma HeardLongEnough(p: Policy, ops: seq<Op>, k: TrackKey)
    requires DemandSeats.CatalogOk(p.catalog) && p.accepting && p.catalog.Some? && HearsAll(p, ops, k) && |ops| >= 2
    requires Listens(ops[0]) && (p.speech.candidate == Some(k) ==> p.speech.since.Some? && p.speech.since.value <= ops[0].now)
    requires Listens(ops[|ops| - 1]) && ops[|ops| - 1].now - ops[0].now >= p.config.candidateDelay
    ensures StepAll(p, ops).speech.stable == Some(k)
  {
    hide Step, DemandSeats.CatalogOk, DemandMeaning.HeardCamera;
    var n := |ops| - 1;
    assert ops[..n][0] == ops[0];
    ListenAll(p, ops[..n], k);
    ListenStep(StepAll(p, ops[..n]), ops[n], k);
  }

  /** p left its present, not overridden focus f for a speaker in becoming q. */
  ghost predicate LeftForSpeaker(p: Policy, q: Policy, f: TrackKey)
  {
    && p.focus.key == Some(f) && !Override(p.focus.origin) && ResolveSeat(p.catalog, Some(f)).Some?
    && q.focus.key != Some(f) && q.focus.origin == BySpeaker
  }

  lemma FocusYields(p: Policy, now: int, f: TrackKey)
    requires p.focus.since.Some? && LeftForSpeaker(p, Reconciled(p, now), f)
    ensures now - p.focus.since.value >= p.config.minimumResidence
  {
    hide Advance, RefreshShare, OrderedSeats, ResolveSeat, ResolveTrack, BuildGrid, Arrange, SamePlan, LayoutOf,
         SelectedAudio, Find;
  }

  ghost predicate SeenThroughout(seen: seq<Seen>, f: TrackKey, now: int, residence: int)
  {
    exists i :: SeenSince(seen, i, Some(f)) && now - seen[i].time >= residence
  }

  /**
   A focus that is still present and was not gained by pin or share yields to a
   speaker only after it has been the focus of every reconciliation for at least
   the minimum residence.
   */
  lemma FocusHysteresis(session: nat, config: Config, ops: seq<Op>, now: int, f: TrackKey)
    requires LeftForSpeaker(RunWatch(session, config, ops).policy,
                            RunWatch(session, config, ops + [Reconcile(now)]).policy, f)
    ensures SeenThroughout(RunWatch(session, config, ops).seen, f, now,
                           RunWatch(session, config, ops).policy.config.minimumResidence)
  {
    hide *;
    var w := RunWatch(session, config, ops);
    RunRemembers(session, config, ops);
    RunReconcile(session, config, ops, now);
    FocusYieldsRemembered(w, now, f);
  }

  lemma RunReconcile(session: nat, config: Config, ops: seq<Op>, now: int)
    ensures RunWatch(session, config, ops + [Reconcile(now)]).policy
         == Reconciled(RunWatch(session, config, ops).policy, now)
  {
    hide Reconciled;
    assert (ops + [Reconcile(now)])[..|ops|] == ops;
  }

  lemma FocusYieldsRemembered(w: Watch, now: int, f: TrackKey)
    requires Remembers(w) && LeftForSpeaker(w.policy, Reconciled(w.policy, now), f)
    ensures SeenThroughout(w.seen, f, now, w.policy.config.minimumResidence)
  {
    hide Reconciled, ResolveSeat;
    FocusYields(w.policy, now, f);
    var i :| SeenSince(w.seen, i, Some(f)) && w.seen[i].time == w.policy.focus.since.value;
  }
}
