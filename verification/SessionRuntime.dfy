/**
 One meeting session: the catalog feeds the policy, and both feed the media plan
 the room applies; a recovery request waits for its room generation
 (src/core/meeting_session_runtime.h).
 */
module SessionRuntime {
  import opened Common
  import opened ParticipantEvents
  import opened DemandTypes
  import opened DemandPolicy
  import Catalogs
  import AudioOrder
  import DemandMeaning
  import DemandSeats
  import PlanShape
  import PolicyObject
  import WakeUp

  datatype TrackDemand = TrackDemand(
    key: TrackKey,
    policyRevision: nat,
    width: nat,
    height: nat,
    quality: Quality,
    maxFps: nat,
    priority: nat)

  datatype MediaPlan = MediaPlan(
    session: nat,
    generation: nat,
    catalogRevision: nat,
    policyRevision: nat,
    recoveryEpoch: nat,
    recoveryToken: string,
    known: seq<TrackKey>,
    video: seq<TrackDemand>,
    audio: seq<TrackKey>)

  datatype Recovery = Recovery(session: nat, generation: nat, catalogRevision: nat, epoch: nat, token: string)

  /** A completion callback is known by the number of the request that brought it. */
  datatype PendingRecovery = PendingRecovery(request: Recovery, completion: nat)

  /** A completion that was called, and the plan it was given. */
  datatype Answer = Answer(completion: nat, plan: MediaPlan)

  datatype Session = Session(
    generation: nat,
    catalog: Catalogs.Catalog,
    policy: Policy,
    hasIntent: bool,
    pending: Option<PendingRecovery>)

  // ------------------------------------------------------------------------
  // The media plan.
  // ------------------------------------------------------------------------

  function KeysIn(pubs: seq<Catalogs.Publication>): seq<TrackKey>
  {
    if pubs == [] then [] else KeysIn(pubs[..|pubs| - 1]) + [pubs[|pubs| - 1].key]
  }

  function KnownIn(ps: seq<Catalogs.Participant>): seq<TrackKey>
  {
    if ps == [] then [] else KnownIn(ps[..|ps| - 1]) + KeysIn(ps[|ps| - 1].publications)
  }

  function SeatPosition(seats: seq<Seat>, key: TrackKey): (i: nat)
    ensures i <= |seats|
    ensures i < |seats| ==> seats[i].key == key
    ensures forall j :: 0 <= j < i ==> seats[j].key != key
  {
    if seats == [] || seats[0].key == key then 0 else 1 + SeatPosition(seats[1..], key)
  }

  function DemandFor(seat: Seat, policyRevision: nat): TrackDemand
  {
    TrackDemand(seat.key, policyRevision, seat.width, seat.height, seat.quality,
                if seat.quality == P180 then 15 else 30, seat.priority)
  }

  /** One demand per selected key that has a seat. */
  function DemandsFor(plan: Plan, keys: seq<TrackKey>): seq<TrackDemand>
  {
    if keys == [] then []
    else
      var rest := DemandsFor(plan, keys[..|keys| - 1]);
      var at := SeatPosition(plan.seats, keys[|keys| - 1]);
      if at == |plan.seats| then rest else rest + [DemandFor(plan.seats[at], plan.policyRevision)]
  }

  function MediaPlanOf(s: Session, recovery: Option<Recovery>): MediaPlan
  {
    var snapshot, demand := s.catalog.snapshot, s.policy.plan;
    MediaPlan(s.generation, snapshot.generation, snapshot.revision, demand.policyRevision,
              if recovery.Some? then recovery.value.epoch else 0, if recovery.Some? then recovery.value.token else "",
              KnownIn(snapshot.participants), DemandsFor(demand, demand.selectedVideo), demand.selectedAudio)
  }

  function Reconciling(s: Session, now: int): Session { s.(policy := Reconciled(s.policy, now)) }

  function BuildMediaPlan(s: Session, recovery: Option<Recovery>, now: int): (Session, MediaPlan)
  {
    (Reconciling(s, now), MediaPlanOf(Reconciling(s, now), recovery))
  }

  // ------------------------------------------------------------------------
  // The operations.
  // ------------------------------------------------------------------------

  function Complete(s: Session, now: int): (Session, Option<Answer>)
  {
    if s.pending.None? || s.catalog.snapshot.generation < s.pending.value.request.generation then (s, None)
    else
      var PendingRecovery(request, completion) := s.pending.value;
      var idle := s.(pending := None);
      if s.catalog.snapshot.generation == request.generation then
        var (s', plan) := BuildMediaPlan(idle, Some(request), now);
        (s', Some(Answer(completion, plan)))
      else (idle, None)
  }

  function TakeEvent(s: Session, e: ParticipantEvent, now: int): (Session, Option<Answer>)
  {
    var (catalog, result) := Catalogs.ApplyEvent(s.catalog, e);
    if result == Catalogs.Applied then
      Complete(s.(catalog := catalog, policy := WithCatalog(s.policy, catalog.snapshot)), now)
    else (s.(catalog := catalog), None)
  }

  function Recover(s: Session, request: Recovery, completion: Option<nat>, now: int): (Session, Option<Answer>)
  {
    if completion.None? || request.session != s.generation || request.generation == 0 then (s, None)
    else if s.catalog.snapshot.generation == request.generation then
      var (s', plan) := BuildMediaPlan(s, Some(request), now);
      (s', Some(Answer(completion.value, plan)))
    else if s.catalog.snapshot.generation > request.generation then (s, None)
    else if s.pending.Some? && request.epoch <= s.pending.value.request.epoch then (s, None)
    else (s.(pending := Some(PendingRecovery(request, completion.value))), None)
  }

  function StopDemand(s: Session): Session
  {
    s.(pending := None, hasIntent := false, policy := Stopped(s.policy), catalog := Catalogs.Retired(s.catalog))
  }

  predicate TakesIntent(s: Session, v: Viewport)
  {
    ViewportAccepted(s.policy, v) && !(s.policy.hasViewport && SameViewport(v, s.policy.viewport))
  }

  datatype Op =
    | Event(event: ParticipantEvent, now: int)
    | Intent(viewport: Viewport)
    | Heard(speakers: seq<Speaker>, now: int)
    | ReconcileDemand(now: int)
    | RequestRecovery(request: Recovery, completion: Option<nat>, now: int)
    | StopVideo

  function Step(s: Session, op: Op): (Session, Option<Answer>)
  {
    match op
    case Event(event, now) => TakeEvent(s, event, now)
    case Intent(v) => (s.(policy := WithViewport(s.policy, v), hasIntent := s.hasIntent || TakesIntent(s, v)), None)
    case Heard(speakers, now) => (s.(policy := WithSpeakers(s.policy, speakers, now)), None)
    case ReconcileDemand(now) => (Reconciling(s, now), None)
    case RequestRecovery(request, completion, now) => Recover(s, request, completion, now)
    case StopVideo => (StopDemand(s), None)
  }

  function Start(session: nat, config: Config): Session
  {
    Session(session, Catalogs.New(session), Initial(session, config), false, None)
  }

  /** The session after some operations, and the answers given on the way. */
  function Run(session: nat, config: Config, ops: seq<Op>): (Session, seq<Answer>)
  {
    if ops == [] then (Start(session, config), [])
    else
      var (s, answers) := Run(session, config, ops[..|ops| - 1]);
      var (s', answer) := Step(s, ops[|ops| - 1]);
      (s', if answer.Some? then answers + [answer.value] else answers)
  }

  ghost predicate GoodEvents(ops: seq<Op>)
  {
    forall op :: op in ops && op.Event? ==> Catalogs.WellFormed(op.event)
  }

  // ------------------------------------------------------------------------
  // The invariant of a session.
  // ------------------------------------------------------------------------

  /** The policy decides over what the catalog holds, up to tickets. */
  ghost predicate InStep(c: Catalog, snapshot: Catalogs.Snapshot)
  {
    if c.Some? then Catalogs.SameBut(c.value, snapshot) && snapshot.generation != 0 else snapshot.participants == []
  }

  predicate Silent(plan: Plan)
  {
    plan.seats == [] && plan.selectedVideo == [] && plan.selectedAudio == [] && plan.focused.None?
  }

  /** A recovery waits for a generation to come; only before the first applied event can it have come already. */
  predicate Waiting(s: Session)
  {
    s.pending.Some? ==>
      && s.pending.value.request.session == s.generation
      && (s.pending.value.request.generation > s.catalog.snapshot.generation
          || (s.catalog.accepting && s.policy.catalog.None?))
  }

  ghost predicate Bound(s: Session)
  {
    && s.policy.session == s.catalog.snapshot.session == s.generation
    && s.policy.config.videoBudget <= 16
    && s.policy.accepting == s.catalog.accepting
    && Catalogs.CatalogOk(s.catalog)
    && WakeUp.Ready(s.policy)
    && InStep(s.policy.catalog, s.catalog.snapshot)
    && (!s.policy.accepting ==> s.policy.catalog.None? && Silent(s.policy.plan))
  }

  ghost predicate SessionOk(s: Session) { Bound(s) && Waiting(s) }

  lemma SameButJoins(a: Catalogs.Snapshot, b: Catalogs.Snapshot, c: Catalogs.Snapshot)
    requires Catalogs.SameBut(a, b) && Catalogs.SameBut(b, c)
    ensures Catalogs.SameBut(a, c)
  {
    forall i | 0 <= i < |a.participants|
      ensures Catalogs.SameParticipant(a.participants[i], c.participants[i])
    {
      assert Catalogs.SameParticipant(b.participants[i], c.participants[i]);
    }
  }

  /** What an event that is not applied leaves of the catalog. */
  lemma UnappliedEvent(c: Catalogs.Catalog, e: ParticipantEvent)
    requires Catalogs.CatalogOk(c) && Catalogs.ApplyEvent(c, e).1 != Catalogs.Applied
    ensures var s := Catalogs.ApplyEvent(c, e).0.snapshot;
      && s.session == c.snapshot.session && s.generation >= c.snapshot.generation
      && (Catalogs.SameBut(c.snapshot, s) || (c.accepting && c.snapshot.generation == 0 && s.participants == []))
  {
    Catalogs.RevisionLaw(c, e);
    hide Catalogs.EffectOf;
  }

  lemma AppliedEvent(c: Catalogs.Catalog, e: ParticipantEvent)
    requires Catalogs.CatalogOk(c) && Catalogs.ApplyEvent(c, e).1 == Catalogs.Applied
    ensures var s := Catalogs.ApplyEvent(c, e).0.snapshot;
      && c.accepting && s.session == c.snapshot.session && s.generation != 0
      && s.generation >= c.snapshot.generation && s.revision == c.snapshot.revision + 1
  {
    Catalogs.RevisionLaw(c, e);
    hide Catalogs.EffectOf;
  }

  lemma ReconcileKeeps(s: Session, now: int)
    requires Bound(s)
    ensures Bound(Reconciling(s, now))
    ensures Reconciling(s, now).catalog == s.catalog && Reconciling(s, now).pending == s.pending
    ensures s.policy.accepting ==> SamePlan(BuildPlan(s.policy, now).1, Reconciling(s, now).policy.plan)
    ensures Reconciling(s, now).policy.catalog == s.policy.catalog
    ensures Reconciling(s, now).policy.config == s.policy.config
  {
    hide Catalogs.CatalogOk, InStep, BuildPlan, WakeUp.Ready;
    WakeUp.StepReady(s.policy, Reconcile(now));
    WakeUp.BuildKeepsInputs(s.policy, now);
    WakeUp.SamePlanExact(BuildPlan(s.policy, now).1, s.policy.plan);
    WakeUp.SamePlanExact(BuildPlan(s.policy, now).1, Reconciled(s.policy, now).plan);
  }

  lemma TakesCatalog(s: Session, c: Catalogs.Catalog)
    requires Bound(s) && s.catalog.accepting && c.accepting && Catalogs.CatalogOk(c)
    requires c.snapshot.session == s.generation && c.snapshot.generation != 0
    requires c.snapshot.generation >= s.catalog.snapshot.generation && c.snapshot.revision > s.catalog.snapshot.revision
    ensures var s' := s.(catalog := c, policy := WithCatalog(s.policy, c.snapshot));
      Bound(s') && s'.policy.catalog == Some(c.snapshot)
  {
    hide Silent;
    WakeUp.StepReady(s.policy, UpdateCatalog(c.snapshot));
    hide WakeUp.Ready, Catalogs.ParticipantsOk;
  }

  lemma CompleteKeeps(s: Session, now: int)
    requires Bound(s) && (s.pending.Some? ==> s.pending.value.request.session == s.generation)
    ensures SessionOk(Complete(s, now).0)
  {
    hide Bound, Reconciled;
    if s.pending.Some? {
      assert Bound(s.(pending := None)) by { PendingIsFree(s, None); }
      ReconcileKeeps(s.(pending := None), now);
    }
  }

  lemma PendingIsFree(s: Session, pending: Option<PendingRecovery>)
    requires Bound(s)
    ensures Bound(s.(pending := pending))
  {
  }

  lemma UnappliedKeeps(s: Session, e: ParticipantEvent)
    requires SessionOk(s) && Catalogs.CatalogOk(Catalogs.ApplyEvent(s.catalog, e).0)
    requires Catalogs.ApplyEvent(s.catalog, e).1 != Catalogs.Applied
    ensures SessionOk(s.(catalog := Catalogs.ApplyEvent(s.catalog, e).0))
  {
    hide Catalogs.CatalogOk, Catalogs.ApplyEvent, WakeUp.Ready, Catalogs.SameParticipant, Silent;
    UnappliedEvent(s.catalog, e);
    Catalogs.RevisionLaw(s.catalog, e);
    if s.policy.catalog.Some? {
      SameButJoins(s.policy.catalog.value, s.catalog.snapshot, Catalogs.ApplyEvent(s.catalog, e).0.snapshot);
    }
  }

  lemma EventKeeps(s: Session, e: ParticipantEvent, now: int)
    requires SessionOk(s) && Catalogs.WellFormed(e)
    ensures SessionOk(TakeEvent(s, e, now).0)
  {
    hide Catalogs.CatalogOk, Catalogs.ApplyEvent, WakeUp.Ready, Catalogs.SameBut, InStep, Silent, WithCatalog, Complete;
    Catalogs.ApplyKeeps(s.catalog, e);
    var (catalog, result) := Catalogs.ApplyEvent(s.catalog, e);
    if result == Catalogs.Applied {
      AppliedEvent(s.catalog, e);
      Catalogs.RevisionLaw(s.catalog, e);
      TakesCatalog(s, catalog);
      CompleteKeeps(s.(catalog := catalog, policy := WithCatalog(s.policy, catalog.snapshot)), now);
    } else {
      UnappliedKeeps(s, e);
    }
  }

  lemma RecoverKeeps(s: Session, request: Recovery, completion: Option<nat>, now: int)
    requires SessionOk(s)
    ensures SessionOk(Recover(s, request, completion, now).0)
  {
    hide Bound, Reconciled;
    ReconcileKeeps(s, now);
    if completion.Some? {
      PendingIsFree(s, Some(PendingRecovery(request, completion.value)));
    }
  }

  lemma StopKeeps(s: Session)
    requires SessionOk(s)
    ensures SessionOk(StopDemand(s))
  {
    WakeUp.StepReady(s.policy, Retire);
    hide WakeUp.Ready, SamePlan, Catalogs.ParticipantsOk;
    WakeUp.SamePlanExact(EmptyPlan(s.policy).(policyRevision := s.policy.plan.policyRevision), s.policy.plan);
    Catalogs.RetireKeeps(s.catalog);
  }

  /** Inputs of the policy that bring no catalog. */
  lemma InputKeeps(s: Session, p: Policy)
    requires SessionOk(s) && WakeUp.Ready(p)
    requires p.session == s.policy.session && p.config == s.policy.config && p.accepting == s.policy.accepting
    requires p.catalog == s.policy.catalog && p.plan == s.policy.plan
    ensures SessionOk(s.(policy := p))
  {
    hide WakeUp.Ready, Catalogs.CatalogOk, InStep, Silent;
  }

  lemma StepKeeps(s: Session, op: Op)
    requires SessionOk(s) && (op.Event? ==> Catalogs.WellFormed(op.event))
    ensures SessionOk(Step(s, op).0)
  {
    match op
    case Event(event, now) => EventKeeps(s, event, now);
    case Intent(v) =>
      WakeUp.StepReady(s.policy, UpdateViewport(v));
      hide WakeUp.Ready, Catalogs.CatalogOk, InStep;
      InputKeeps(s, WithViewport(s.policy, v));
    case Heard(speakers, now) =>
      WakeUp.StepReady(s.policy, UpdateSpeakers(speakers, now));
      hide WakeUp.Ready, Catalogs.CatalogOk, InStep, Advance;
      InputKeeps(s, WithSpeakers(s.policy, speakers, now));
    case ReconcileDemand(now) =>
      ReconcileKeeps(s, now);
    case RequestRecovery(request, completion, now) => RecoverKeeps(s, request, completion, now);
    case StopVideo => StopKeeps(s);
  }

  lemma {:induction false} RunKeeps(session: nat, config: Config, ops: seq<Op>)
    requires GoodEvents(ops)
    ensures var s := Run(session, config, ops).0;
      SessionOk(s) && s.generation == session && s.policy.config == Normalized(config)
  {
    hide SessionOk, Step;
    if ops == [] {
      StartOk(session, config);
    } else {
      var before, op := ops[..|ops| - 1], ops[|ops| - 1];
      assert op in ops && forall o :: o in before ==> o in ops;
      RunKeeps(session, config, before);
      StepKeeps(Run(session, config, before).0, op);
      StepFrame(Run(session, config, before).0, op);
    }
  }

  lemma StartOk(session: nat, config: Config)
    ensures SessionOk(Start(session, config))
  {
    WakeUp.InitialReady(session, config);
    hide WakeUp.Ready;
  }

  lemma StepFrame(s: Session, op: Op)
    ensures var s' := Step(s, op).0;
      s'.generation == s.generation && s'.policy.config == s.policy.config
  {
    hide BuildPlan, MediaPlanOf, Advance, SamePlan, Catalogs.ApplyEvent;
    match op
    case Event(event, now) =>
      var c := Catalogs.ApplyEvent(s.catalog, event).0;
      WakeUp.BuildKeepsInputs(WithCatalog(s.policy, c.snapshot), now);
    case ReconcileDemand(now) => WakeUp.BuildKeepsInputs(s.policy, now);
    case RequestRecovery(request, completion, now) => WakeUp.BuildKeepsInputs(s.policy, now);
    case _ =>
  }

  // ------------------------------------------------------------------------
  // The media plan is consistent.
  // ------------------------------------------------------------------------

  /** What the present catalog, rather than the one the policy remembers, knows of a key. */
  function Published(s: Session, key: TrackKey): Option<Catalogs.Publication> { Find(Some(s.catalog.snapshot), key) }

  function VideoKeys(video: seq<TrackDemand>): (keys: seq<TrackKey>)
    ensures |keys| == |video| && forall i :: 0 <= i < |video| ==> keys[i] == video[i].key
  {
    if video == [] then [] else VideoKeys(video[..|video| - 1]) + [video[|video| - 1].key]
  }

  ghost predicate Seated(plan: Plan, d: TrackDemand)
  {
    exists i :: 0 <= i < |plan.seats| && DemandsSeat(plan.seats[i], plan.policyRevision, d)
  }

  /** As the seat says, at half the frame rate for the lowest tier. */
  predicate DemandsSeat(seat: Seat, policyRevision: nat, d: TrackDemand)
  {
    && d.key == seat.key && d.policyRevision == policyRevision && d.width == seat.width && d.height == seat.height
    && d.quality == seat.quality && d.priority == seat.priority
    && (d.quality == P180 ==> d.maxFps == 15) && (d.quality != P180 ==> d.maxFps == 30)
  }

  /** The video is published, allowed and unmuted, and has a visible seat of that size. */
  ghost predicate Backed(s: Session, m: MediaPlan, d: TrackDemand)
  {
    && Seated(s.policy.plan, d) && d.width != 0 && d.height != 0
    && d.key in m.known && d.key.participant.generation == m.generation
    && Published(s, d.key).Some? && Demandable(Published(s, d.key).value)
  }

  ghost predicate VideoConsistent(s: Session, m: MediaPlan)
  {
    && VideoKeys(m.video) == s.policy.plan.selectedVideo
    && Distinct(s.policy.plan.selectedVideo) && |m.video| <= 16
    && forall d :: d in m.video ==> Backed(s, m, d)
  }

  /** Everybody's allowed audio is there, once, in the order of the present catalog. */
  ghost predicate AudioConsistent(s: Session, m: MediaPlan)
  {
    && AudioOrder.AllAudio(Some(s.catalog.snapshot), m.audio)
    && forall k :: k in m.audio ==> k in m.known && k.participant.generation == m.generation
  }

  ghost predicate Consistent(s: Session, m: MediaPlan)
  {
    && m.session == s.generation && m.generation == s.catalog.snapshot.generation
    && m.catalogRevision == s.catalog.snapshot.revision && m.policyRevision == s.policy.plan.policyRevision
    && Distinct(m.known) && (forall k :: k in m.known <==> Published(s, k).Some?)
    && VideoConsistent(s, m)
    && AudioConsistent(s, m)
    && PlanShape.FocusFirst(s.policy.config.videoBudget, s.policy.plan)
  }

  lemma {:induction false} KeysInExactly(owner: ParticipantKey, pubs: seq<Catalogs.Publication>)
    requires Catalogs.PublicationsOk(owner, pubs)
    ensures Distinct(KeysIn(pubs))
    ensures forall k :: k in KeysIn(pubs) <==> exists v :: v in pubs && v.key == k
  {
    if pubs != [] {
      var n := |pubs| - 1;
      KeysInExactly(owner, pubs[..n]);
      assert pubs == pubs[..n] + [pubs[n]];
      forall v | v in pubs[..n] ensures v.key != pubs[n].key {
        var i :| 0 <= i < n && pubs[i] == v;
      }
      NotAmong(KeysIn(pubs[..n]), pubs[n].key);
    }
  }

  /** An element that is not in a sequence of distinct ones extends it. */
  lemma NotAmong<T>(s: seq<T>, x: T)
    requires Distinct(s) && x !in s
    ensures Distinct(s + [x])
  {
    forall i | 0 <= i < |s| ensures s[i] != x {
      assert s[i] in s;
    }
  }

  ghost predicate Holds(ps: seq<Catalogs.Participant>, k: TrackKey)
  {
    exists p, v :: p in ps && v in p.publications && v.key == k
  }

  lemma {:induction false} KnownInExactly(generation: nat, ps: seq<Catalogs.Participant>)
    requires Catalogs.ParticipantsOk(generation, ps)
    ensures Distinct(KnownIn(ps))
    ensures forall k :: k in KnownIn(ps) <==> Holds(ps, k)
  {
    if ps != [] {
      var n := |ps| - 1;
      assert ps == ps[..n] + [ps[n]];
      KnownInExactly(generation, ps[..n]);
      assert Catalogs.ParticipantOk(generation, ps[n]);
      KeysInExactly(ps[n].key, ps[n].publications);
      var before, mine := KnownIn(ps[..n]), KeysIn(ps[n].publications);
      forall k | k in before ensures k !in mine {
        NotTwice(generation, ps, k);
      }
      forall k ensures k in before + mine <==> Holds(ps, k) {
        HoldsLast(ps, k);
      }
      Disjoint(before, mine);
    }
  }

  lemma Disjoint<T>(a: seq<T>, b: seq<T>)
    requires Distinct(a) && Distinct(b) && forall x :: !(x in a && x in b)
    ensures Distinct(a + b)
  {
    forall i, j | 0 <= i < |a| && 0 <= j < |b| ensures a[i] != b[j] {
      assert a[i] in a && b[j] in b;
    }
  }

  lemma HoldsLast(ps: seq<Catalogs.Participant>, k: TrackKey)
    requires ps != []
    ensures Holds(ps, k) <==> Holds(ps[..|ps| - 1], k) || exists v :: v in ps[|ps| - 1].publications && v.key == k
  {
    var n := |ps| - 1;
    assert ps == ps[..n] + [ps[n]];
    if v :| v in ps[n].publications && v.key == k {
      assert ps[n] in ps;
    }
  }

  lemma NotTwice(generation: nat, ps: seq<Catalogs.Participant>, k: TrackKey)
    requires Catalogs.ParticipantsOk(generation, ps) && ps != []
    requires Holds(ps[..|ps| - 1], k)
    ensures forall v :: v in ps[|ps| - 1].publications ==> v.key != k
  {
    var n := |ps| - 1;
    var p, v :| p in ps[..n] && v in p.publications && v.key == k;
    var i :| 0 <= i < n && ps[i] == p;
    assert Catalogs.ParticipantOk(generation, ps[i]) && Catalogs.ParticipantOk(generation, ps[n]);
    assert Catalogs.Separate(ps[i].key, ps[n].key);
  }

  /** The known publications are those the catalog finds. */
  lemma KnownAreFound(s: Session)
    requires Catalogs.CatalogOk(s.catalog)
    ensures var known := KnownIn(s.catalog.snapshot.participants);
      Distinct(known) && forall k :: k in known <==> Published(s, k).Some?
  {
    var c, ps := Some(s.catalog.snapshot), s.catalog.snapshot.participants;
    KnownInExactly(s.catalog.snapshot.generation, ps);
    hide Catalogs.ParticipantsOk, KnownIn, Distinct;
    forall k ensures Holds(ps, k) <==> Published(s, k).Some? {
      if Holds(ps, k) {
        var p, v :| p in ps && v in p.publications && v.key == k;
        DemandSeats.FindExact(c, p, v);
      }
      if Published(s, k).Some? {
        var p := DemandSeats.FoundInCatalog(c, k);
        assert Holds(ps, k);
      }
    }
  }

  /** Renewed tickets do not change what a key finds. */
  lemma SameFind(a: Catalogs.Snapshot, b: Catalogs.Snapshot, k: TrackKey)
    requires Catalogs.SameBut(a, b) && Find(Some(a), k).Some?
    ensures Find(Some(b), k).Some? && Catalogs.SamePublication(Find(Some(a), k).value, Find(Some(b), k).value)
  {
    var ps, qs := a.participants, b.participants;
    var i := Catalogs.IndexOf(ps, k.participant);
    assert forall j :: 0 <= j < |ps| ==> Catalogs.SameParticipant(ps[j], qs[j]);
    assert Catalogs.IndexOf(qs, k.participant) == i;
    var x, y := ps[i].publications, qs[i].publications;
    assert forall j :: 0 <= j < |x| ==> Catalogs.SamePublication(x[j], y[j]);
    assert Catalogs.TrackIndexOf(y, k) == Catalogs.TrackIndexOf(x, k);
  }

  // ------------------------------------------------------------------------
  // The theorem.
  // ------------------------------------------------------------------------

  lemma {:induction false} DemandsSeated(plan: Plan, c: Catalog, keys: seq<TrackKey>)
    requires PlanShape.SeatedOnce(plan.seats) && forall k :: k in keys ==> k in PlanShape.Shown(c, plan.seats)
    ensures var r := DemandsFor(plan, keys);
      && VideoKeys(r) == keys
      && forall d :: d in r ==>
           d.key in PlanShape.Shown(c, plan.seats) && Seated(plan, d) && d.width != 0 && d.height != 0
  {
    if keys != [] {
      var n := |keys| - 1;
      assert keys == keys[..n] + [keys[n]];
      hide DemandFor;
      DemandsSeated(plan, c, keys[..n]);
      DemandSeated(plan, c, keys[n]);
      var rest, at := DemandsFor(plan, keys[..n]), SeatPosition(plan.seats, keys[n]);
      var r := rest + [DemandFor(plan.seats[at], plan.policyRevision)];
      assert DemandsFor(plan, keys) == r && r[..n] == rest;
    }
  }

  lemma DemandSeated(plan: Plan, c: Catalog, k: TrackKey)
    requires PlanShape.SeatedOnce(plan.seats) && k in PlanShape.Shown(c, plan.seats)
    ensures var at := SeatPosition(plan.seats, k);
      && at < |plan.seats|
      && var d := DemandFor(plan.seats[at], plan.policyRevision);
         d.key == k && Seated(plan, d) && d.width != 0 && d.height != 0
  {
    PlanShape.ShownKeys(c, plan.seats);
    var i :| 0 <= i < |plan.seats| && plan.seats[i].key == k && PlanShape.ShowsVideo(c, plan.seats[i]);
    assert SeatPosition(plan.seats, k) == i;
  }

  /** What the published plan of a reconciled session is over the catalog of the policy. */
  lemma ReconciledPlanOk(s: Session, now: int)
    requires Bound(s)
    ensures var s' := Reconciling(s, now);
      PlanShape.PlanOk(s'.policy.catalog, s'.policy.config.videoBudget, s'.policy.plan)
  {
    hide BuildPlan, Catalogs.CatalogOk, InStep, PlanShape.ShowsVideo, Find;
    ReconcileKeeps(s, now);
    if s.policy.accepting {
      PlanShape.BuildOk(s.policy, now);
      var plan, built := Reconciling(s, now).policy.plan, BuildPlan(s.policy, now).1;
      WakeUp.SamePlanExact(built, plan);
      assert plan.seats == built.seats;
    }
  }

  /** The policy's catalog speaks for the present one. */
  lemma SpeaksFor(s: Session, k: TrackKey)
    requires Bound(s) && Find(s.policy.catalog, k).Some?
    ensures Published(s, k).Some? && Catalogs.SamePublication(Find(s.policy.catalog, k).value, Published(s, k).value)
    ensures k.participant.generation == s.catalog.snapshot.generation
  {
    hide Catalogs.CatalogOk, WakeUp.Ready, Silent;
    SameFind(s.policy.catalog.value, s.catalog.snapshot, k);
  }

  lemma KnownFromBound(s: Session)
    requires Bound(s)
    ensures var known := KnownIn(s.catalog.snapshot.participants);
      Distinct(known) && forall k :: k in known <==> Published(s, k).Some?
  {
    hide WakeUp.Ready, InStep, Silent, Catalogs.ParticipantsOk;
    KnownAreFound(s);
  }

  lemma VideoOk(s: Session, recovery: Option<Recovery>)
    requires Bound(s) && PlanShape.PlanOk(s.policy.catalog, s.policy.config.videoBudget, s.policy.plan)
    ensures VideoConsistent(s, MediaPlanOf(s, recovery))
  {
    hide Bound, DemandsFor, KnownIn, Seated, PlanShape.Shown, AudioOrder.AllAudio, PlanShape.FocusFirst, Backed,
         PlanShape.SeatedOnce, Distinct, VideoKeys;
    var plan, c, m := s.policy.plan, s.policy.catalog, MediaPlanOf(s, recovery);
    BudgetIsCapped(s);
    ShownFew(c, plan.seats);
    DemandsSeated(plan, c, plan.selectedVideo);
    forall d | d in m.video ensures Backed(s, m, d) {
      DemandBacked(s, recovery, d);
    }
  }

  lemma BudgetIsCapped(s: Session)
    requires Bound(s)
    ensures s.policy.config.videoBudget <= 16
  {
  }

  lemma DemandBacked(s: Session, recovery: Option<Recovery>, d: TrackDemand)
    requires Bound(s) && d.key in PlanShape.Shown(s.policy.catalog, s.policy.plan.seats)
    requires Seated(s.policy.plan, d) && d.width != 0 && d.height != 0
    ensures Backed(s, MediaPlanOf(s, recovery), d)
  {
    hide Bound, DemandsFor, KnownIn, Seated, PlanShape.Shown, Published, Demandable;
    ShownIsKnown(s, d.key);
  }

  lemma ShownFew(c: Catalog, seats: seq<Seat>)
    requires PlanShape.SeatedOnce(seats)
    ensures Distinct(PlanShape.Shown(c, seats)) && |PlanShape.Shown(c, seats)| <= |seats|
  {
    PlanShape.ShownKeys(c, seats);
    PlanShape.ShownDistinct(c, seats);
  }

  /** A key that the plan shows is a publication of the present catalog. */
  lemma ShownIsKnown(s: Session, k: TrackKey)
    requires Bound(s) && k in PlanShape.Shown(s.policy.catalog, s.policy.plan.seats)
    ensures k in KnownIn(s.catalog.snapshot.participants) && k.participant.generation == s.catalog.snapshot.generation
    ensures Published(s, k).Some? && Demandable(Published(s, k).value)
  {
    PlanShape.ShownKeys(s.policy.catalog, s.policy.plan.seats);
    assert Find(s.policy.catalog, k).Some? && Demandable(Find(s.policy.catalog, k).value);
    KnownFromBound(s);
    hide Bound, KnownIn, PlanShape.Shown, Find;
    SpeaksFor(s, k);
  }

  lemma AudioFromPlan(s: Session, recovery: Option<Recovery>)
    requires Bound(s) && PlanShape.PlanOk(s.policy.catalog, s.policy.config.videoBudget, s.policy.plan)
    ensures AudioConsistent(s, MediaPlanOf(s, recovery))
  {
    AudioOfPresent(s);
    KnownFromBound(s);
    AudioIsFound(s);
    hide Bound, DemandsFor, KnownIn, AudioOrder.AllAudio, PlanShape.SeatsOk, PlanShape.FocusFirst;
  }

  lemma AudioOfPresent(s: Session)
    requires Bound(s) && AudioOrder.AllAudio(s.policy.catalog, s.policy.plan.selectedAudio)
    ensures AudioOrder.AllAudio(Some(s.catalog.snapshot), s.policy.plan.selectedAudio)
  {
    hide Catalogs.CatalogOk, WakeUp.Ready, Silent, AudioOrder.AllAudio, Catalogs.SameBut;
    if s.policy.catalog.Some? {
      AudioOrder.ListedAlike(s.policy.catalog.value, s.catalog.snapshot, s.policy.plan.selectedAudio);
    } else {
      AudioOrder.NothingListed(s.policy.catalog, s.catalog.snapshot, s.policy.plan.selectedAudio);
    }
  }

  lemma AudioIsFound(s: Session)
    requires Bound(s) && AudioOrder.AllAudio(Some(s.catalog.snapshot), s.policy.plan.selectedAudio)
    ensures forall k :: k in s.policy.plan.selectedAudio ==>
      Published(s, k).Some? && k.participant.generation == s.catalog.snapshot.generation
  {
    hide DemandMeaning.Names, WakeUp.Ready, InStep, Silent, Find;
    forall k | k in s.policy.plan.selectedAudio
      ensures Published(s, k).Some? && k.participant.generation == s.catalog.snapshot.generation
    {
      DemandMeaning.NamesMeans(Some(s.catalog.snapshot), k, AudioOrder.IsAllowedAudio);
      FoundIsPresent(s, k);
    }
  }

  lemma FoundIsPresent(s: Session, k: TrackKey)
    requires Published(s, k).Some?
    ensures k.participant.generation == s.catalog.snapshot.generation
  {
  }

  lemma MediaPlanOk(s: Session, recovery: Option<Recovery>, now: int)
    requires Bound(s)
    ensures var (s', m) := BuildMediaPlan(s, recovery, now); Consistent(s', m)
  {
    ReconcileKeeps(s, now);
    ReconciledPlanOk(s, now);
    hide Bound, Reconciling, VideoConsistent, AudioConsistent, PlanShape.SeatsOk, AudioOrder.AllAudio, KnownIn, DemandsFor;
    var s' := Reconciling(s, now);
    KnownFromBound(s');
    VideoOk(s', recovery);
    AudioFromPlan(s', recovery);
    assert s'.policy.session == s'.generation;
  }

  /**
   In every reachable state of a session the media plan names only publications
   the catalog knows, of the installed generation and without repetition; it
   demands exactly the selected videos, at most sixteen, each allowed and with a
   visible seat of some size; and the focus comes first.
   */
  lemma MediaPlanConsistency(session: nat, config: Config, ops: seq<Op>, recovery: Option<Recovery>, now: int)
    requires GoodEvents(ops)
    ensures var (s, m) := BuildMediaPlan(Run(session, config, ops).0, recovery, now); Consistent(s, m)
  {
    hide Consistent, Bound, Run, BuildMediaPlan;
    RunKeeps(session, config, ops);
    MediaPlanOk(Run(session, config, ops).0, recovery, now);
  }

  /** Until the policy wakes up by itself, the media plan stays as it is. */
  lemma MediaPlanSleeps(session: nat, config: Config, ops: seq<Op>, recovery: Option<Recovery>, t1: int, t: int)
    requires GoodEvents(ops) && t1 <= t
    requires var s := BuildMediaPlan(Run(session, config, ops).0, recovery, t1).0;
      WakeUp.Before(t, NextReconcileAt(s.policy, t1))
    ensures var (s, m) := BuildMediaPlan(Run(session, config, ops).0, recovery, t1);
      BuildMediaPlan(s, recovery, t).1 == m
  {
    RunKeeps(session, config, ops);
    var s := Run(session, config, ops).0;
    hide Run, WakeUp.Ready, Reconciled, NextReconcileAt, InStep, Catalogs.CatalogOk, Silent, Waiting;
    WakeUp.WakeUpSound(s.policy, t1, t);
  }

  // ------------------------------------------------------------------------
  // Recoveries.
  // ------------------------------------------------------------------------

  /** The plan carries the marks of the request and is for its generation. */
  predicate Answers(m: MediaPlan, request: Recovery)
  {
    && m.session == request.session && m.generation == request.generation
    && m.recoveryEpoch == request.epoch && m.recoveryToken == request.token
  }

  /** Where an answer comes from: the request itself, or the pending one, which is then gone. */
  ghost predicate AnswerFrom(s: Session, op: Op, s': Session, a: Answer)
  {
    || (op.RequestRecovery? && op.completion == Some(a.completion) && Answers(a.plan, op.request)
        && s'.pending == s.pending)
    || (op.Event? && s.pending.Some? && s.pending.value.completion == a.completion
        && Answers(a.plan, s.pending.value.request) && s'.pending.None?)
  }

  /** An answer is consistent and is for its own request; a pending request yields only to a later epoch. */
  lemma RecoveryStep(s: Session, op: Op)
    requires SessionOk(s) && (op.Event? ==> Catalogs.WellFormed(op.event))
    ensures var (s', answer) := Step(s, op);
      && (answer.Some? ==> AnswerFrom(s, op, s', answer.value) && Consistent(s', answer.value.plan))
      && (s.pending.Some? && s'.pending.Some? && s'.pending != s.pending ==>
            op.RequestRecovery? && op.completion.Some?
            && s'.pending == Some(PendingRecovery(op.request, op.completion.value))
            && op.request.epoch > s.pending.value.request.epoch)
      && (s.pending.None? && s'.pending.Some? ==>
            op.RequestRecovery? && op.completion == Some(s'.pending.value.completion))
  {
    match op
    case Event(event, now) => EventAnswers(s, event, now);
    case RequestRecovery(request, completion, now) =>
      MediaPlanOk(s, Some(request), now);
      hide Consistent, Reconciled, KnownIn, DemandsFor;
    case _ =>
  }

  lemma EventAnswers(s: Session, e: ParticipantEvent, now: int)
    requires SessionOk(s) && Catalogs.WellFormed(e)
    ensures var (s', answer) := TakeEvent(s, e, now);
      && (answer.Some? ==> AnswerFrom(s, Event(e, now), s', answer.value) && Consistent(s', answer.value.plan))
      && (s'.pending == s.pending || s'.pending.None?)
  {
    hide Consistent, Catalogs.ApplyEvent, Catalogs.CatalogOk, WakeUp.Ready, InStep, WithCatalog, Reconciled, KnownIn,
         DemandsFor, Catalogs.WellFormed;
    Catalogs.ApplyKeeps(s.catalog, e);
    var (c, result) := Catalogs.ApplyEvent(s.catalog, e);
    if result == Catalogs.Applied && s.pending.Some? {
      AppliedEvent(s.catalog, e);
      Catalogs.RevisionLaw(s.catalog, e);
      TakesCatalog(s, c);
      var told := s.(catalog := c, policy := WithCatalog(s.policy, c.snapshot));
      PendingIsFree(told, None);
      MediaPlanOk(told.(pending := None), Some(s.pending.value.request), now);
    }
  }

  /** The event is applied while somebody waits, and the generation waited for is there. */
  predicate BringsWanted(s: Session, op: Op)
  {
    && op.Event? && s.pending.Some? && Catalogs.ApplyEvent(s.catalog, op.event).1 == Catalogs.Applied
    && Catalogs.ApplyEvent(s.catalog, op.event).0.snapshot.generation == s.pending.value.request.generation
  }

  /** The request is for this session, brings a callback and names a generation. */
  predicate MakesSense(s: Session, op: Op)
  {
    op.RequestRecovery? && op.completion.Some? && op.request.session == s.generation && op.request.generation > 0
  }

  /**
   When a callback is called, and whose: the pending one by the applied event that
   brings its generation, or the one just handed in when its generation is there.
   */
  lemma AnswersExactly(s: Session, op: Op)
    ensures var answer := Step(s, op).1;
      && (answer.Some? <==> BringsWanted(s, op)
                            || (MakesSense(s, op) && op.request.generation == s.catalog.snapshot.generation))
      && (BringsWanted(s, op) ==> answer.Some? && answer.value.completion == s.pending.value.completion)
      && (op.RequestRecovery? && answer.Some? ==> op.completion == Some(answer.value.completion))
  {
    hide Catalogs.ApplyEvent, Reconciled, MediaPlanOf, WithCatalog, WithViewport, WithSpeakers;
  }

  /**
   Who waits afterwards. An applied event leaves nobody waiting for a generation
   that is there or over; a request waits for a later generation than the present
   one, and takes the place only of an earlier epoch; a stop sends everybody home.
   */
  lemma WaitsExactly(s: Session, op: Op)
    ensures var s' := Step(s, op).0;
      && (op.Event? && Catalogs.ApplyEvent(s.catalog, op.event).1 == Catalogs.Applied ==>
            s'.pending == if s.pending.Some? && s.pending.value.request.generation > s'.catalog.snapshot.generation
                          then s.pending else None)
      && (op.Event? && Catalogs.ApplyEvent(s.catalog, op.event).1 != Catalogs.Applied ==> s'.pending == s.pending)
      && (op.RequestRecovery? ==>
            s'.pending == if MakesSense(s, op) && op.request.generation > s.catalog.snapshot.generation
                             && (s.pending.None? || op.request.epoch > s.pending.value.request.epoch)
                          then Some(PendingRecovery(op.request, op.completion.value)) else s.pending)
      && (op.StopVideo? ==> s'.pending.None? && !s'.hasIntent && !s'.catalog.accepting && !s'.policy.accepting)
      && (op.Intent? || op.Heard? || op.ReconcileDemand? ==> s'.pending == s.pending && s'.catalog == s.catalog)
  {
    hide Catalogs.ApplyEvent, Reconciled, MediaPlanOf, WithCatalog, WithViewport, WithSpeakers;
    if op.StopVideo? {
      BothRetire(s);
    }
  }

  lemma BothRetire(s: Session)
    ensures !Stopped(s.policy).accepting && !Catalogs.Retired(s.catalog).accepting
  {
    hide SamePlan;
  }

  /** What reaches the catalog and the policy: every input once, and a reconciliation where an answer is built. */
  lemma PolicyFollows(s: Session, op: Op)
    ensures var (s', answer) := Step(s, op);
      match op
      case Event(event, now) =>
        var (catalog, result) := Catalogs.ApplyEvent(s.catalog, event);
        var told := if result == Catalogs.Applied then DemandPolicy.Step(s.policy, UpdateCatalog(catalog.snapshot)) else s.policy;
        && s'.catalog == catalog && s'.policy == if answer.Some? then DemandPolicy.Step(told, Reconcile(now)) else told
      case Intent(v) => s'.catalog == s.catalog && s'.policy == DemandPolicy.Step(s.policy, UpdateViewport(v))
      case Heard(speakers, now) =>
        s'.catalog == s.catalog && s'.policy == DemandPolicy.Step(s.policy, UpdateSpeakers(speakers, now))
      case ReconcileDemand(now) => s'.catalog == s.catalog && s'.policy == DemandPolicy.Step(s.policy, Reconcile(now))
      case RequestRecovery(_, _, now) =>
        && s'.catalog == s.catalog
        && s'.policy == if answer.Some? then DemandPolicy.Step(s.policy, Reconcile(now)) else s.policy
      case StopVideo => s'.catalog == Catalogs.Retired(s.catalog) && s'.policy == DemandPolicy.Step(s.policy, Retire)
  {
    hide Catalogs.ApplyEvent, Reconciled, MediaPlanOf, WithCatalog, WithViewport, WithSpeakers, Stopped, Catalogs.Retired;
  }

  /** The intent counts as given from the first viewport that is taken and says anything new, until a stop. */
  lemma IntentExactly(s: Session, op: Op)
    ensures Step(s, op).0.hasIntent <==>
      !op.StopVideo? && (s.hasIntent || (op.Intent? && s.policy.accepting && op.viewport.session == s.policy.session
        && (s.policy.hasViewport ==> op.viewport.viewRevision > s.policy.viewport.viewRevision
                                     && op.viewport != s.policy.viewport.(viewRevision := op.viewport.viewRevision))))
  {
    hide Catalogs.ApplyEvent, Reconciled, MediaPlanOf, WithCatalog, WithViewport, WithSpeakers, Stopped, Catalogs.Retired;
  }

  /** The completions handed in, one for each request that brings one. */
  function Completions(ops: seq<Op>): seq<nat>
  {
    if ops == [] then []
    else
      var rest, op := Completions(ops[..|ops| - 1]), ops[|ops| - 1];
      if op.RequestRecovery? && op.completion.Some? then rest + [op.completion.value] else rest
  }

  function Answered(answers: seq<Answer>): (ids: seq<nat>)
    ensures |ids| == |answers|
  {
    if answers == [] then [] else Answered(answers[..|answers| - 1]) + [answers[|answers| - 1].completion]
  }

  function PendingCompletion(s: Session): multiset<nat>
  {
    if s.pending.Some? then multiset{s.pending.value.completion} else multiset{}
  }

  function Called(answer: Option<Answer>): multiset<nat>
  {
    if answer.Some? then multiset{answer.value.completion} else multiset{}
  }

  function Brought(op: Op): multiset<nat>
  {
    if op.RequestRecovery? && op.completion.Some? then multiset{op.completion.value} else multiset{}
  }

  lemma Together<T>(done: multiset<T>, waiting: multiset<T>, given: multiset<T>, called: multiset<T>,
                    left: multiset<T>, brought: multiset<T>)
    requires done + waiting <= given && called + left <= waiting + brought
    ensures (done + called) + left <= given + brought
  {
    assert (done + called) + left == done + (called + left);
    assert done + (waiting + brought) == (done + waiting) + brought;
  }

  /** Each completion is called at most once for each time it is handed in, even counting the one still waiting. */
  lemma {:induction false} AnsweredAtMostOnce(session: nat, config: Config, ops: seq<Op>)
    requires GoodEvents(ops)
    ensures var (s, answers) := Run(session, config, ops);
      multiset(Answered(answers)) + PendingCompletion(s) <= multiset(Completions(ops))
  {
    hide SessionOk, Step, Catalogs.WellFormed;
    if ops != [] {
      var before, op := ops[..|ops| - 1], ops[|ops| - 1];
      assert op in ops && forall o :: o in before ==> o in ops;
      AnsweredAtMostOnce(session, config, before);
      RunKeeps(session, config, before);
      var (s, answers) := Run(session, config, before);
      StepAnswersOnce(s, op);
      var (s', answer) := Step(s, op);
      var answers' := Run(session, config, ops).1;
      assert multiset(Answered(answers')) == multiset(Answered(answers)) + Called(answer) by {
        assert answer.Some? ==> answers'[..|answers|] == answers;
      }
      assert multiset(Completions(ops)) == multiset(Completions(before)) + Brought(op);
      assert Run(session, config, ops) == (s', answers');
      hide *;
      Together(multiset(Answered(answers)), PendingCompletion(s), multiset(Completions(before)), Called(answer),
               PendingCompletion(s'), Brought(op));
    }
  }

  /** One step moves at most one completion from waiting, or from the request itself, to called. */
  lemma StepAnswersOnce(s: Session, op: Op)
    requires SessionOk(s) && (op.Event? ==> Catalogs.WellFormed(op.event))
    ensures var (s', answer) := Step(s, op);
      Called(answer) + PendingCompletion(s') <= PendingCompletion(s) + Brought(op)
  {
    hide SessionOk, Step, Consistent, Answers, Catalogs.WellFormed;
    RecoveryStep(s, op);
  }

  /**
   A pending recovery whose generation has come stays unanswered exactly when
   that generation was installed by a rejected track event, the first event of
   the catalog to name a generation.
   */
  lemma RecoveryOverdueExactly(session: nat, config: Config, ops: seq<Op>, e: ParticipantEvent, now: int)
    requires GoodEvents(ops) && Run(session, config, ops).0.pending.Some?
    requires var s := Run(session, config, ops).0;
      s.catalog.snapshot.generation < s.pending.value.request.generation
    ensures var s := Run(session, config, ops).0;
      var s', wanted := TakeEvent(s, e, now).0, s.pending.value.request.generation;
      (s'.pending.Some? && s'.catalog.snapshot.generation >= wanted) <==>
        && s.catalog.accepting && s.catalog.snapshot.generation == 0 && Catalogs.NativeGeneration(e) >= wanted
        && Catalogs.Consumes(e.kind) && !e.participant.isLocal && e.kind != Upsert && e.kind != Departure
  {
    RunKeeps(session, config, ops);
    hide Run, Reconciled, MediaPlanOf, WithCatalog, WakeUp.Ready, InStep, Silent;
    Catalogs.RejectionThatInstalls(Run(session, config, ops).0.catalog, e);
  }

  /** Asked for generation 7 before anything is known, the request is not answered when a rejected event installs it. */
  lemma RecoveryOverdueExample(config: Config)
    ensures var request := Recovery(1, 7, 0, 1, "again");
      var ops := [RequestRecovery(request, Some(0), 0), Event(Catalogs.EARLY_MUTE, 1)];
      var (s, answers) := Run(1, config, ops);
      && GoodEvents(ops) && answers == []
      && s.catalog.snapshot.generation == 7 && s.pending == Some(PendingRecovery(request, 0))
  {
    var ask := RequestRecovery(Recovery(1, 7, 0, 1, "again"), Some(0), 0);
    var ops := [ask, Event(Catalogs.EARLY_MUTE, 1)];
    Catalogs.RejectionInstallsExample();
    assert ops[..1] == [ask] && [ask][..0] == [];
    hide Catalogs.ApplyEvent, Catalogs.WellFormed, Initial;
    assert Run(1, config, [ask]) == (Start(1, config).(pending := Some(PendingRecovery(ask.request, 0))), []);
  }

  // ------------------------------------------------------------------------
  // The object.
  // ------------------------------------------------------------------------

  method CollectKeys(ps: seq<Catalogs.Participant>) returns (known: seq<TrackKey>)
    ensures known == KnownIn(ps)
  {
    known := [];
    for i := 0 to |ps|
      invariant known == KnownIn(ps[..i])
    {
      assert ps[..i + 1][..i] == ps[..i];
      var pubs := ps[i].publications;
      for j := 0 to |pubs|
        invariant known == KnownIn(ps[..i]) + KeysIn(pubs[..j])
      {
        assert pubs[..j + 1][..j] == pubs[..j];
        known := known + [pubs[j].key];
      }
      assert pubs[..|pubs|] == pubs;
    }
    assert ps[..|ps|] == ps;
  }

  method CollectDemands(demand: Plan) returns (video: seq<TrackDemand>)
    ensures video == DemandsFor(demand, demand.selectedVideo)
  {
    var keys := demand.selectedVideo;
    video := [];
    for i := 0 to |keys|
      invariant video == DemandsFor(demand, keys[..i])
    {
      assert keys[..i + 1][..i] == keys[..i];
      var at := SeatPosition(demand.seats, keys[i]);
      if at == |demand.seats| {
        continue;
      }
      video := video + [DemandFor(demand.seats[at], demand.policyRevision)];
    }
    assert keys[..|keys|] == keys;
  }

  class MeetingSessionRuntime {
    const generation: nat
    const publicationCatalog: Catalogs.PublicationCatalog
    const videoDemandPolicy: PolicyObject.VideoDemandPolicy
    var hasViewportIntent: bool
    var pendingRecovery: Option<PendingRecovery>

    function View(): Session
      reads this, publicationCatalog, videoDemandPolicy
    {
      Session(generation, publicationCatalog.View(), videoDemandPolicy.View(), hasViewportIntent, pendingRecovery)
    }

    constructor (generation: nat, config: Config)
      ensures View() == Start(generation, config)
      ensures fresh(publicationCatalog) && fresh(videoDemandPolicy)
    {
      this.generation := generation;
      publicationCatalog := new Catalogs.PublicationCatalog(generation);
      videoDemandPolicy := new PolicyObject.VideoDemandPolicy(generation, config);
      hasViewportIntent, pendingRecovery := false, None;
    }

    method BuildRemoteMediaPlan(recovery: Option<Recovery>, now: int) returns (result: MediaPlan)
      modifies this, videoDemandPolicy
      ensures BuildMediaPlan(old(View()), recovery, now) == (View(), result)
    {
      hide Reconciled, KnownIn, DemandsFor;
      videoDemandPolicy.Reconcile(now);
      var demand, snapshot := videoDemandPolicy.plan, publicationCatalog.snapshot;
      result := MediaPlan(generation, snapshot.generation, snapshot.revision, demand.policyRevision, 0, "", [], [],
                          demand.selectedAudio);
      if recovery.Some? {
        result := result.(recoveryEpoch := recovery.value.epoch, recoveryToken := recovery.value.token);
      }
      var known := CollectKeys(snapshot.participants);
      var video := CollectDemands(demand);
      result := result.(known := known, video := video);
    }

    method CompletePendingRecovery(now: int) returns (answer: Option<Answer>)
      modifies this, videoDemandPolicy
      ensures Complete(old(View()), now) == (View(), answer)
    {
      hide BuildMediaPlan;
      if pendingRecovery.None? {
        return None;
      }
      var current := publicationCatalog.snapshot.generation;
      if current < pendingRecovery.value.request.generation {
        return None;
      }
      var pending := pendingRecovery.value;
      pendingRecovery := None;
      if current != pending.request.generation {
        return None;
      }
      var plan := BuildRemoteMediaPlan(Some(pending.request), now);
      return Some(Answer(pending.completion, plan));
    }

    method UpdatePublicationCatalog(event: ParticipantEvent, now: int)
      returns (result: Catalogs.ApplyResult, answer: Option<Answer>)
      modifies this, publicationCatalog, videoDemandPolicy
      ensures TakeEvent(old(View()), event, now) == (View(), answer)
      ensures result == Catalogs.ApplyEvent(old(publicationCatalog.View()), event).1
    {
      hide Complete, Catalogs.ApplyEvent, WithCatalog;
      result := publicationCatalog.Apply(event);
      answer := None;
      if result == Catalogs.Applied {
        var taken := videoDemandPolicy.UpdateCatalog(publicationCatalog.snapshot);
        answer := CompletePendingRecovery(now);
      }
    }

    method UpdateViewportIntent(intent: Viewport) returns (changed: bool)
      modifies this, videoDemandPolicy
      ensures changed == TakesIntent(old(View()), intent)
      ensures View() == old(View()).(policy := WithViewport(old(View()).policy, intent),
                                     hasIntent := old(hasViewportIntent) || changed)
    {
      hide WithViewport, ViewportAccepted, SameViewport;
      changed := videoDemandPolicy.UpdateViewport(intent);
      if changed {
        hasViewportIntent := true;
      }
    }

    method UpdateActiveSpeakers(speakers: seq<Speaker>, now: int) returns (changed: bool)
      modifies this, videoDemandPolicy
      ensures View() == old(View()).(policy := WithSpeakers(old(View()).policy, speakers, now))
      ensures changed == (old(View()).policy.accepting && speakers != old(View()).policy.speakers)
    {
      hide Advance;
      changed := videoDemandPolicy.UpdateSpeakers(speakers, now);
    }

    method ReconcileVideoDemand(now: int) returns (plan: Plan)
      modifies this, videoDemandPolicy
      ensures View() == Reconciling(old(View()), now) && plan == View().policy.plan
    {
      hide Reconciled;
      videoDemandPolicy.Reconcile(now);
      plan := videoDemandPolicy.plan;
    }

    method RequestRemoteMediaRecovery(request: Recovery, completion: Option<nat>, now: int)
      returns (answer: Option<Answer>)
      modifies this, videoDemandPolicy
      ensures Recover(old(View()), request, completion, now) == (View(), answer)
    {
      hide BuildMediaPlan;
      if completion.None? || request.session != generation || request.generation == 0 {
        return None;
      }
      var current := publicationCatalog.snapshot.generation;
      if current == request.generation {
        var plan := BuildRemoteMediaPlan(Some(request), now);
        return Some(Answer(completion.value, plan));
      }
      if current > request.generation {
        return None;
      }
      if pendingRecovery.Some? && request.epoch <= pendingRecovery.value.request.epoch {
        return None;
      }
      pendingRecovery := Some(PendingRecovery(request, completion.value));
      return None;
    }

    method StopVideoDemand()
      modifies this, publicationCatalog, videoDemandPolicy
      ensures View() == StopDemand(old(View()))
    {
      hide Stopped, Catalogs.Retired;
      pendingRecovery := None;
      hasViewportIntent := false;
      videoDemandPolicy.Retire();
      publicationCatalog.Retire();
    }
  }
}
