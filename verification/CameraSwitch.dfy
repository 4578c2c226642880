/**
 The camera hot switch: a probe is started outside the lock and races with its
 first frame, its timeout, newer requests, Start and Stop; one atomic step for
 each region under the lock (src/media/camera_source_manager.cpp).
 */
module CameraSwitch {
  import opened Common

  /** format stands for the fields of the configuration that are only compared. */
  datatype Config = Config(device: string, width: int, height: int, fps: int, format: int)

  datatype SwitchState = Idle | Probing | Committed | Aborted

  /** What the lock guards. A capturer is known by a number. */
  datatype Manager = Manager(
    active: Option<nat>,
    probing: Option<nat>,
    devicePath: string,
    config: Config,
    state: SwitchState,
    generation: nat)

  const NEW := Manager(None, None, "", Config("", 0, 0, 0, 0), Idle, 0)

  // ------------------------------------------------------------------------
  // The regions under the lock.
  // ------------------------------------------------------------------------

  predicate ValidTarget(c: Config) { c.width > 0 && c.height > 0 && c.fps > 0 }

  /** Start: made is the new capturer if the factory and its start succeeded. */
  function StartRegion(m: Manager, config: Config, made: Option<nat>): Manager
  {
    Manager(made, None, config.device, config, Idle, m.generation + 1)
  }

  function StopRegion(m: Manager): Manager
  {
    m.(active := None, probing := None, state := Idle, generation := m.generation + 1)
  }

  predicate ActiveRuns(m: Manager, running: set<nat>) { m.active.Some? && m.active.value in running }

  /** What a request does after its first region. */
  datatype Opening = AlreadyActive | NoCapturer | NotInitialised | Probe(generation: nat, pause: Option<nat>)

  /** The first region of ReconfigureAsync; made is None when the factory has nothing. */
  function OpenRegion(m: Manager, running: set<nat>, target: Config, made: Option<nat>, initialised: bool)
    : (Manager, Opening)
  {
    if target == m.config && ActiveRuns(m, running) then
      (if m.probing.Some? then m.(generation := m.generation + 1, probing := None, state := Idle) else m, AlreadyActive)
    else
      var begun := m.(generation := m.generation + 1, probing := None);
      if made.None? then (begun.(state := Aborted), NoCapturer)
      else if !initialised then (begun.(state := Aborted), NotInitialised)
      else
        (begun.(state := Probing, probing := made),
         Probe(begun.generation,
               if ActiveRuns(m, running) && target.device == m.devicePath && target != m.config then m.active else None))
  }

  datatype Closing = CommittedDuringStart | Superseded | FailedToStart(resume: Option<nat>) | Waits

  predicate Owns(m: Manager, generation: nat, probe: nat)
  {
    m.generation == generation && m.state == Probing && m.probing == Some(probe)
  }

  function Paused(m: Manager, running: set<nat>): Option<nat>
  {
    if m.active.Some? && !ActiveRuns(m, running) then m.active else None
  }

  /** The region after the probe's Start returned. */
  function CloseRegion(m: Manager, running: set<nat>, generation: nat, probe: nat, started: bool): (Manager, Closing)
  {
    if !started && Owns(m, generation, probe) then
      (m.(probing := None, state := Aborted), FailedToStart(Paused(m, running)))
    else if m.generation == generation && m.state == Committed && m.active == Some(probe) then (m, CommittedDuringStart)
    else if !Owns(m, generation, probe) then (m, Superseded)
    else (m, Waits)
  }

  /** HandleProbeFrameReceived: the first frame commits while its request is the current one. */
  function FrameRegion(m: Manager, generation: nat, probe: nat, target: Config): (Manager, bool)
  {
    if m.generation != generation || m.state != Probing then (m, false)
    else
      (m.(active := Some(probe), probing := None, devicePath := target.device, config := target, state := Committed), true)
  }

  /** HandleProbeTimeout. */
  function TimeoutRegion(m: Manager, generation: nat): (Manager, bool)
  {
    if m.generation != generation || m.state != Probing then (m, false)
    else (m.(state := Aborted, probing := None), true)
  }

  // ------------------------------------------------------------------------
  // Threads.
  // ------------------------------------------------------------------------

  /** Where the thread that called ReconfigureAsync is. */
  datatype Phase =
    | Replying
    | Starting(pause: Option<nat>)
    | Retrying
    | Started(ok: bool)
    | Failing(resume: Option<nat>)
    | Returned

  datatype Timer = Unarmed | Armed | Expiring(resume: Option<nat>) | Over

  datatype FirstFrame = Awaited | Reporting | Handled

  /**
   generation is zero for a request that never probed. verdict is what was
   decided under the lock, results what the callback was told.
   */
  datatype Request = Request(
    target: Config,
    generation: nat,
    probe: nat,
    phase: Phase,
    frame: FirstFrame,
    timer: Timer,
    verdict: Option<bool>,
    results: seq<bool>)

  /** stops are the capturers somebody is about to stop; latest is the last request that probed. */
  datatype World = World(
    m: Manager,
    running: set<nat>,
    stops: set<nat>,
    requests: map<nat, Request>,
    nextCapturer: nat,
    latest: nat)

  const BEGINNING := World(NEW, {}, {}, map[], 0, 0)

  datatype Op =
    | Start(config: Config, made: bool)
    | Stop
    | Reconfigure(r: nat, target: Config, made: bool, initialised: bool)
    | Reply(r: nat)
    | CallStart(r: nat, ok: bool)
    | CallAgain(r: nat, ok: bool)
    | AfterStart(r: nat)
    | ReportFailure(r: nat, resumed: bool)
    | Frame(r: nat)
    | ReportSuccess(r: nat)
    | TimerFires(r: nat)
    | ReportTimeout(r: nat, resumed: bool)
    | StopOne(capturer: nat)
    | Stall(capturer: nat)

  function Members(c: Option<nat>): set<nat> { if c.Some? then {c.value} else {} }

  function Put(w: World, r: nat, q: Request): World { w.(requests := w.requests[r := q]) }

  function Told(q: Request, success: bool): Request { q.(results := q.results + [success]) }

  function DoStart(w: World, config: Config, made: bool): World
  {
    w.(m := StartRegion(w.m, config, if made then Some(w.nextCapturer) else None),
       running := w.running - Members(w.m.probing) + (if made then {w.nextCapturer} else {}),
       stops := if made then w.stops + Members(w.m.active) else w.stops,
       nextCapturer := w.nextCapturer + 1)
  }

  function DoReconfigure(w: World, r: nat, target: Config, made: bool, initialised: bool): World
  {
    if !ValidTarget(target) then
      Put(w, r, Request(target, 0, 0, Replying, Handled, Over, Some(false), []))
    else
      var (m, opening) := OpenRegion(w.m, w.running, target, if made then Some(w.nextCapturer) else None, initialised);
      var begun := w.(m := m, stops := w.stops + Members(w.m.probing), nextCapturer := w.nextCapturer + 1);
      match opening
      case AlreadyActive => Put(begun, r, Request(target, 0, 0, Replying, Handled, Over, Some(true), []))
      case NoCapturer => Put(begun, r, Request(target, 0, 0, Replying, Handled, Over, Some(false), []))
      case NotInitialised => Put(begun, r, Request(target, 0, 0, Replying, Handled, Over, Some(false), []))
      case Probe(generation, pause) =>
        Put(begun, r, Request(target, generation, w.nextCapturer, Starting(pause), Awaited, Unarmed, None, [])).(
          latest := r)
  }

  /** A capturer that does not start does not run. */
  function Running(w: World, capturer: nat, ok: bool): World
  {
    w.(running := if ok then w.running + {capturer} else w.running - {capturer})
  }

  function DoCallStart(w: World, r: nat, ok: bool): World
    requires r in w.requests && w.requests[r].phase.Starting?
  {
    var q := w.requests[r];
    var tried := Running(w, q.probe, ok);
    if !ok && q.phase.pause.Some? then
      Put(tried, r, q.(phase := Retrying)).(running := tried.running - Members(q.phase.pause))
    else Put(tried, r, q.(phase := Started(ok)))
  }

  function DoAfterStart(w: World, r: nat): World
    requires r in w.requests && w.requests[r].phase.Started?
  {
    var q := w.requests[r];
    var (m, closing) := CloseRegion(w.m, w.running, q.generation, q.probe, q.phase.ok);
    match closing
    case CommittedDuringStart => Put(w, r, q.(phase := Returned))
    case Superseded =>
      Put(w, r, q.(phase := Returned)).(stops := if q.phase.ok then w.stops + {q.probe} else w.stops)
    case FailedToStart(resume) =>
      Put(w, r, q.(phase := Failing(resume), verdict := Some(false))).(m := m, stops := w.stops + {q.probe})
    case Waits => Put(w, r, q.(phase := Returned, timer := Armed))
  }

  function DoFrame(w: World, r: nat): World
    requires r in w.requests
  {
    var q := w.requests[r];
    var (m, committed) := FrameRegion(w.m, q.generation, q.probe, q.target);
    if committed then
      Put(w, r, q.(frame := Reporting, verdict := Some(true))).(m := m, stops := w.stops + Members(w.m.active))
    else Put(w, r, q.(frame := Handled))
  }

  function DoTimer(w: World, r: nat): World
    requires r in w.requests
  {
    var q := w.requests[r];
    var (m, aborted) := TimeoutRegion(w.m, q.generation);
    if aborted then
      Put(w, r, q.(timer := Expiring(Paused(w.m, w.running)), verdict := Some(false))).(
        m := m, stops := w.stops + Members(w.m.probing))
    else Put(w, r, q.(timer := Over))
  }

  function Resume(w: World, resume: Option<nat>, resumed: bool): World
  {
    if resume.Some? then Running(w, resume.value, resumed) else w
  }

  function Step(w: World, op: Op): World
  {
    match op
    case Start(config, made) => DoStart(w, config, made)
    case Stop => w.(m := StopRegion(w.m), stops := w.stops + Members(w.m.active) + Members(w.m.probing))
    case Reconfigure(r, target, made, initialised) =>
      if r in w.requests then w else DoReconfigure(w, r, target, made, initialised)
    case Reply(r) =>
      if r in w.requests && w.requests[r].phase.Replying? && w.requests[r].verdict.Some? then
        Put(w, r, Told(w.requests[r], w.requests[r].verdict.value).(phase := Returned))
      else w
    case CallStart(r, ok) => if r in w.requests && w.requests[r].phase.Starting? then DoCallStart(w, r, ok) else w
    case CallAgain(r, ok) =>
      if r in w.requests && w.requests[r].phase.Retrying? then
        Put(Running(w, w.requests[r].probe, ok), r, w.requests[r].(phase := Started(ok)))
      else w
    case AfterStart(r) => if r in w.requests && w.requests[r].phase.Started? then DoAfterStart(w, r) else w
    case ReportFailure(r, resumed) =>
      if r in w.requests && w.requests[r].phase.Failing? then
        Put(Resume(w, w.requests[r].phase.resume, resumed), r, Told(w.requests[r], false).(phase := Returned))
      else w
    case Frame(r) =>
      if r in w.requests && w.requests[r].generation != 0 && w.requests[r].frame.Awaited? then DoFrame(w, r) else w
    case ReportSuccess(r) =>
      if r in w.requests && w.requests[r].frame.Reporting? then
        Put(w, r, Told(w.requests[r], true).(frame := Handled))
      else w
    case TimerFires(r) => if r in w.requests && w.requests[r].timer.Armed? then DoTimer(w, r) else w
    case ReportTimeout(r, resumed) =>
      if r in w.requests && w.requests[r].timer.Expiring? then
        Put(Resume(w, w.requests[r].timer.resume, resumed), r, Told(w.requests[r], false).(timer := Over))
      else w
    case StopOne(c) => if c in w.stops then w.(stops := w.stops - {c}, running := w.running - {c}) else w
    case Stall(c) => w.(running := w.running - {c})
  }

  function Run(ops: seq<Op>): World
  {
    if ops == [] then BEGINNING else Step(Run(ops[..|ops| - 1]), ops[|ops| - 1])
  }

  function RunFrom(w: World, ops: seq<Op>): World
  {
    if ops == [] then w else Step(RunFrom(w, ops[..|ops| - 1]), ops[|ops| - 1])
  }

  // ------------------------------------------------------------------------
  // The invariant.
  // ------------------------------------------------------------------------

  predicate ManagerOk(m: Manager)
  {
    && (m.state == Probing <==> m.probing.Some?)
    && m.devicePath == m.config.device
  }

  /** The results on their way and those given are together the verdict, once. */
  function Tidings(q: Request): nat
  {
    |q.results| + (if q.phase.Replying? || q.phase.Failing? then 1 else 0)
    + (if q.frame.Reporting? then 1 else 0) + (if q.timer.Expiring? then 1 else 0)
  }

  predicate RequestOk(q: Request)
  {
    && Tidings(q) == (if q.verdict.Some? then 1 else 0)
    && (q.results == [] || (q.verdict.Some? && q.results == [q.verdict.value]))
    && (q.phase.Failing? || q.timer.Expiring? ==> q.verdict == Some(false))
    && (q.frame.Reporting? ==> q.verdict == Some(true))
    && (q.generation == 0 ==> q.verdict.Some? && !q.frame.Awaited? && q.timer == Over && !q.phase.Starting?
                              && !q.phase.Retrying? && !q.phase.Started?)
    && (q.generation != 0 ==> !q.phase.Replying?)
    && (q.timer != Unarmed ==> q.phase.Returned? || q.phase.Replying?)
  }

  /** The request of the current generation is undecided exactly while the switch is probing, and then cannot be lost. */
  predicate CurrentOk(m: Manager, q: Request)
  {
    && q.generation <= m.generation
    && (q.generation != 0 && q.generation == m.generation ==>
          && (m.state == Probing <==> q.verdict.None?)
          && (q.verdict.None? ==> m.probing == Some(q.probe) && q.frame.Awaited?
                                  && (q.timer == Armed || q.phase.Starting? || q.phase.Retrying? || q.phase.Started?))
          && (q.verdict == Some(true) ==> m.state == Committed && m.active == Some(q.probe) && m.config == q.target))
    && (q.verdict != Some(true) && q.generation != 0 ==> m.active != Some(q.probe))
  }

  ghost predicate RequestsOk(m: Manager, requests: map<nat, Request>)
  {
    forall r :: r in requests ==> RequestOk(requests[r]) && CurrentOk(m, requests[r])
  }

  /** Generations and probes are not shared. */
  ghost predicate ApartOk(m: Manager, requests: map<nat, Request>, nextCapturer: nat)
  {
    && (forall r :: r in requests && requests[r].generation != 0 ==> requests[r].probe < nextCapturer)
    && (m.active.Some? ==> m.active.value < nextCapturer)
    && (forall r, s :: r in requests && s in requests && r != s && requests[r].generation != 0 ==>
          requests[r].generation != requests[s].generation
          && (requests[s].generation != 0 ==> requests[r].probe != requests[s].probe))
  }

  /** Somebody will decide a probing switch. */
  ghost predicate OwnerOk(m: Manager, requests: map<nat, Request>, latest: nat)
  {
    m.state == Probing ==> latest in requests && requests[latest].generation == m.generation != 0
  }

  ghost predicate WorldOk(w: World)
  {
    && ManagerOk(w.m)
    && RequestsOk(w.m, w.requests)
    && ApartOk(w.m, w.requests, w.nextCapturer)
    && OwnerOk(w.m, w.requests, w.latest)
  }

  /** The invariant does not look at who runs. */
  lemma RunningAside(w: World, running: set<nat>, stops: set<nat>)
    ensures WorldOk(w.(running := running, stops := stops)) == WorldOk(w)
  {
  }

  /** A request that goes on without deciding anything. */
  lemma PutKeeps(w: World, r: nat, q: Request)
    requires WorldOk(w) && r in w.requests && RequestOk(q) && CurrentOk(w.m, q)
    requires q.generation == w.requests[r].generation && q.probe == w.requests[r].probe
    ensures WorldOk(Put(w, r, q))
  {
    hide RequestOk, CurrentOk;
  }

  /** The current request decides: the switch leaves probing, and at most that probe becomes active. */
  lemma DecisionKeeps(w: World, r: nat, m: Manager, q: Request)
    requires WorldOk(w) && r in w.requests && RequestOk(q) && CurrentOk(m, q) && ManagerOk(m)
    requires q.generation == w.requests[r].generation == w.m.generation == m.generation != 0
    requires q.probe == w.requests[r].probe && m.state != Probing
    requires m.active == w.m.active || m.active == Some(q.probe)
    ensures WorldOk(Put(w.(m := m), r, q))
  {
    forall s | s in w.requests && s != r ensures CurrentOk(m, w.requests[s]) {
      assert CurrentOk(w.m, w.requests[s]);
    }
    hide RequestOk;
  }

  /** A new generation puts every earlier request behind. */
  lemma SupersedeKeeps(w: World, m: Manager)
    requires WorldOk(w) && ManagerOk(m) && m.generation == w.m.generation + 1 && m.state != Probing
    requires m.active == w.m.active || m.active == None || m.active == Some(w.nextCapturer)
    ensures WorldOk(w.(m := m, nextCapturer := w.nextCapturer + 1))
  {
    forall s | s in w.requests ensures CurrentOk(m, w.requests[s]) {
      assert CurrentOk(w.m, w.requests[s]);
    }
    hide RequestOk;
  }

  /** A new request, decided at once. */
  lemma AddDecidedKeeps(w: World, r: nat, q: Request)
    requires WorldOk(w) && r !in w.requests && RequestOk(q) && q.generation == 0
    ensures WorldOk(Put(w, r, q))
  {
    hide RequestOk;
  }

  /** A new request that probes. */
  lemma AddProbingKeeps(w: World, r: nat, m: Manager, q: Request)
    requires WorldOk(w) && r !in w.requests && RequestOk(q) && CurrentOk(m, q) && ManagerOk(m)
    requires q.generation == m.generation == w.m.generation + 1 && q.probe == w.nextCapturer
    requires m.active == w.m.active
    ensures WorldOk(Put(w.(m := m, nextCapturer := w.nextCapturer + 1, latest := r), r, q))
  {
    forall s | s in w.requests
      ensures CurrentOk(m, w.requests[s]) && w.requests[s].generation < q.generation
    {
      assert CurrentOk(w.m, w.requests[s]);
    }
    hide RequestOk, CurrentOk;
  }

  lemma ReconfigureKeeps(w: World, r: nat, target: Config, made: bool, initialised: bool)
    requires WorldOk(w) && r !in w.requests
    ensures WorldOk(DoReconfigure(w, r, target, made, initialised))
  {
    var capturer := if made then Some(w.nextCapturer) else None;
    var (m, opening) := OpenRegion(w.m, w.running, target, capturer, initialised);
    var stops := w.stops + Members(w.m.probing);
    if !ValidTarget(target) {
      hide WorldOk;
      AddDecidedKeeps(w, r, Request(target, 0, 0, Replying, Handled, Over, Some(false), []));
    } else if opening.Probe? {
      var q := Request(target, opening.generation, w.nextCapturer, Starting(opening.pause), Awaited, Unarmed, None, []);
      assert w.m.active != Some(w.nextCapturer);
      AddProbingKeeps(w, r, m, q);
      hide WorldOk;
      RunningAside(Put(w.(m := m, nextCapturer := w.nextCapturer + 1, latest := r), r, q), w.running, stops);
    } else {
      if m == w.m {
        UnusedNumber(w);
      } else {
        assert ManagerOk(m);
        SupersedeKeeps(w, m);
      }
      hide WorldOk;
      RunningAside(w.(m := m, nextCapturer := w.nextCapturer + 1), w.running, stops);
      AddDecidedKeeps(w.(m := m, nextCapturer := w.nextCapturer + 1, stops := stops), r,
                      Request(target, 0, 0, Replying, Handled, Over, Some(opening.AlreadyActive?), []));
    }
  }

  lemma UnusedNumber(w: World)
    requires WorldOk(w)
    ensures WorldOk(w.(nextCapturer := w.nextCapturer + 1))
  {
    hide RequestsOk;
  }

  lemma StartKeeps(w: World, config: Config, made: bool)
    requires WorldOk(w)
    ensures WorldOk(DoStart(w, config, made))
  {
    var m := StartRegion(w.m, config, if made then Some(w.nextCapturer) else None);
    SupersedeKeeps(w, m);
    hide WorldOk;
    var w' := DoStart(w, config, made);
    RunningAside(w.(m := m, nextCapturer := w.nextCapturer + 1), w'.running, w'.stops);
  }

  lemma StopKeeps(w: World)
    requires WorldOk(w)
    ensures WorldOk(Step(w, Stop))
  {
    var m := StopRegion(w.m);
    forall s | s in w.requests ensures CurrentOk(m, w.requests[s]) {
      assert CurrentOk(w.m, w.requests[s]);
    }
    hide RequestOk, CurrentOk;
  }

  /** The facts about one request. */
  lemma Known(w: World, r: nat)
    requires WorldOk(w) && r in w.requests
    ensures RequestOk(w.requests[r]) && CurrentOk(w.m, w.requests[r]) && ManagerOk(w.m)
  {
  }

  lemma CallKeeps(w: World, r: nat, ok: bool)
    requires WorldOk(w) && r in w.requests && (w.requests[r].phase.Starting? || w.requests[r].phase.Retrying?)
    ensures w.requests[r].phase.Starting? ==> WorldOk(DoCallStart(w, r, ok))
    ensures WorldOk(Put(Running(w, w.requests[r].probe, ok), r, w.requests[r].(phase := Started(ok))))
  {
    Known(w, r);
    hide WorldOk;
    var q := w.requests[r];
    PutKeeps(w, r, q.(phase := Started(ok)));
    RunningAside(Put(w, r, q.(phase := Started(ok))), Running(w, q.probe, ok).running, w.stops);
    if q.phase.Starting? {
      PutKeeps(w, r, q.(phase := Retrying));
      RunningAside(Put(w, r, q.(phase := Retrying)), DoCallStart(w, r, ok).running, w.stops);
    }
  }

  lemma AfterStartKeeps(w: World, r: nat)
    requires WorldOk(w) && r in w.requests && w.requests[r].phase.Started?
    ensures WorldOk(DoAfterStart(w, r))
  {
    Known(w, r);
    hide WorldOk;
    var q := w.requests[r];
    var (m, closing) := CloseRegion(w.m, w.running, q.generation, q.probe, q.phase.ok);
    match closing
    case CommittedDuringStart => PutKeeps(w, r, q.(phase := Returned));
    case Superseded =>
      PutKeeps(w, r, q.(phase := Returned));
      RunningAside(Put(w, r, q.(phase := Returned)), w.running, w.stops + {q.probe});
    case FailedToStart(resume) =>
      DecisionKeeps(w, r, m, q.(phase := Failing(resume), verdict := Some(false)));
      RunningAside(Put(w.(m := m), r, q.(phase := Failing(resume), verdict := Some(false))), w.running,
                   w.stops + {q.probe});
    case Waits => PutKeeps(w, r, q.(phase := Returned, timer := Armed));
  }

  lemma FrameKeeps(w: World, r: nat)
    requires WorldOk(w) && r in w.requests && w.requests[r].generation != 0 && w.requests[r].frame.Awaited?
    ensures WorldOk(DoFrame(w, r))
  {
    Known(w, r);
    hide WorldOk;
    var q := w.requests[r];
    var (m, committed) := FrameRegion(w.m, q.generation, q.probe, q.target);
    if committed {
      var q' := q.(frame := Reporting, verdict := Some(true));
      DecisionKeeps(w, r, m, q');
      RunningAside(Put(w.(m := m), r, q'), w.running, w.stops + Members(w.m.active));
    } else {
      PutKeeps(w, r, q.(frame := Handled));
    }
  }

  lemma TimerKeeps(w: World, r: nat)
    requires WorldOk(w) && r in w.requests && w.requests[r].timer.Armed?
    ensures WorldOk(DoTimer(w, r))
  {
    Known(w, r);
    hide WorldOk;
    var q := w.requests[r];
    var (m, aborted) := TimeoutRegion(w.m, q.generation);
    if aborted {
      var q' := q.(timer := Expiring(Paused(w.m, w.running)), verdict := Some(false));
      DecisionKeeps(w, r, m, q');
      RunningAside(Put(w.(m := m), r, q'), w.running, w.stops + Members(w.m.probing));
    } else {
      PutKeeps(w, r, q.(timer := Over));
    }
  }

  /** Telling the callback what was decided. */
  lemma ReportKeeps(w: World, r: nat, op: Op)
    requires WorldOk(w) && r in w.requests
    requires op == Reply(r) || op.ReportFailure? || op.ReportTimeout? || op.ReportSuccess?
    requires op.r == r
    ensures WorldOk(Step(w, op))
  {
    Known(w, r);
    hide WorldOk;
    var q, w' := w.requests[r], Step(w, op);
    if w' != w {
      PutKeeps(w, r, w'.requests[r]);
      RunningAside(Put(w, r, w'.requests[r]), w'.running, w'.stops);
    }
  }

  lemma StepKeeps(w: World, op: Op)
    requires WorldOk(w)
    ensures WorldOk(Step(w, op))
  {
    hide DoStart, DoReconfigure, DoCallStart, DoAfterStart, DoFrame, DoTimer, WorldOk, Running, Resume, Told;
    match op
    case Start(config, made) => StartKeeps(w, config, made);
    case Stop => StopKeeps(w);
    case Reconfigure(r, target, made, initialised) =>
      if r !in w.requests {
        ReconfigureKeeps(w, r, target, made, initialised);
      }
    case CallStart(r, ok) =>
      if r in w.requests && w.requests[r].phase.Starting? {
        CallKeeps(w, r, ok);
      }
    case CallAgain(r, ok) =>
      if r in w.requests && w.requests[r].phase.Retrying? {
        CallKeeps(w, r, ok);
      }
    case AfterStart(r) =>
      if r in w.requests && w.requests[r].phase.Started? {
        AfterStartKeeps(w, r);
      }
    case Frame(r) =>
      if r in w.requests && w.requests[r].generation != 0 && w.requests[r].frame.Awaited? {
        FrameKeeps(w, r);
      }
    case TimerFires(r) =>
      if r in w.requests && w.requests[r].timer.Armed? {
        TimerKeeps(w, r);
      }
    case StopOne(c) => RunningAside(w, w.running - {c}, w.stops - {c});
    case Stall(c) => RunningAside(w, w.running - {c}, w.stops);
    case _ =>
      if op.r in w.requests {
        ReportKeeps(w, op.r, op);
      }
  }

  /** In every interleaving of starts, frames, timeouts, newer requests and stops. */
  lemma {:induction false} RunKeeps(ops: seq<Op>)
    ensures WorldOk(Run(ops))
  {
    hide Step;
    if ops != [] {
      RunKeeps(ops[..|ops| - 1]);
      hide WorldOk;
      StepKeeps(Run(ops[..|ops| - 1]), ops[|ops| - 1]);
    }
  }

  lemma {:induction false} RunFromKeeps(w: World, ops: seq<Op>)
    requires WorldOk(w)
    ensures WorldOk(RunFrom(w, ops))
  {
    hide WorldOk, Step;
    if ops != [] {
      RunFromKeeps(w, ops[..|ops| - 1]);
      StepKeeps(RunFrom(w, ops[..|ops| - 1]), ops[|ops| - 1]);
    }
  }

  // ------------------------------------------------------------------------
  // Theorems.
  // ------------------------------------------------------------------------

  /** Each request is told at most one result, the one that was decided; a decided one has it or is about to. */
  lemma OneResultEach(ops: seq<Op>, r: nat)
    requires r in Run(ops).requests
    ensures var q := Run(ops).requests[r];
      && |q.results| <= 1
      && (q.results != [] ==> q.verdict == Some(q.results[0]))
      && (q.verdict.Some? && q.results == [] ==>
            q.phase.Replying? || q.phase.Failing? || q.frame.Reporting? || q.timer.Expiring?)
  {
    hide Run;
    RunKeeps(ops);
    Known(Run(ops), r);
    hide WorldOk, CurrentOk;
  }

  /** The switch is probing exactly while a probe is held, and the device path is that of the configuration. */
  lemma ProbingExactly(ops: seq<Op>)
    ensures var m := Run(ops).m;
      (m.state == Probing <==> m.probing.Some?) && m.devicePath == m.config.device
  {
    hide Run;
    RunKeeps(ops);
  }

  predicate SameInstalled(a: Manager, b: Manager)
  {
    a.active == b.active && a.config == b.config && a.devicePath == b.devicePath
  }

  function VerdictOf(w: World, r: nat): Option<bool> { if r in w.requests then w.requests[r].verdict else None }

  /** Apart from Start and Stop, only a first frame that commits installs anything, and it installs exactly its target. */
  lemma CommitInstallsTarget(ops: seq<Op>, op: Op)
    requires !op.Start? && !op.Stop? && !SameInstalled(Run(ops).m, Step(Run(ops), op).m)
    ensures op.Frame? && op.r in Run(ops).requests
    ensures var w', q := Step(Run(ops), op), Run(ops).requests[op.r];
      && q.verdict == None && VerdictOf(w', op.r) == Some(true) && w'.m.state == Committed
      && w'.m.active == Some(q.probe) && w'.m.config == q.target && w'.m.devicePath == q.target.device
  {
    hide Run;
    var w := Run(ops);
    RunKeeps(ops);
    if op.Frame? && op.r in w.requests {
      Known(w, op.r);
    }
    hide WorldOk;
  }

  /** The step that decides an abort, or refuses a request, leaves the active camera and its configuration alone. */
  lemma AbortLeavesActive(w: World, op: Op, r: nat)
    requires VerdictOf(w, r) != Some(false) && VerdictOf(Step(w, op), r) == Some(false)
    ensures SameInstalled(w.m, Step(w, op).m)
  {
  }

  /** A decision is never revised, and none is taken outside the current generation. */
  predicate Goes(w: World, w': World, r: nat)
  {
    && r in w.requests && r in w'.requests
    && (w.requests[r].verdict.Some? ==> w'.requests[r].verdict == w.requests[r].verdict)
    && (w.requests[r].generation != w.m.generation ==> w'.requests[r].verdict == w.requests[r].verdict)
    && w'.requests[r].generation == w.requests[r].generation
    && w'.m.generation >= w.m.generation
  }

  lemma RegionsGo(w: World, s: nat, r: nat)
    requires WorldOk(w) && r in w.requests && s in w.requests
    ensures w.requests[s].phase.Started? ==> Goes(w, DoAfterStart(w, s), r)
    ensures Goes(w, DoFrame(w, s), r) || w.requests[s].frame != Awaited
    ensures w.requests[s].timer.Armed? ==> Goes(w, DoTimer(w, s), r)
  {
    Known(w, s);
    hide WorldOk, Paused, Members;
  }

  lemma StepVerdict(w: World, op: Op, r: nat)
    requires WorldOk(w) && r in w.requests
    ensures Goes(w, Step(w, op), r)
  {
    hide WorldOk, DoAfterStart, DoFrame, DoTimer, Running, Resume, Members;
    match op
    case AfterStart(s) =>
      if s in w.requests {
        RegionsGo(w, s, r);
      }
    case Frame(s) =>
      if s in w.requests {
        RegionsGo(w, s, r);
      }
    case TimerFires(s) =>
      if s in w.requests {
        RegionsGo(w, s, r);
      }
    case _ =>
      ResumeAside(w);
  }

  lemma ResumeAside(w: World)
    ensures forall c, ok :: Resume(w, c, ok).requests == w.requests && Resume(w, c, ok).m == w.m
    ensures forall c, ok :: Running(w, c, ok).requests == w.requests && Running(w, c, ok).m == w.m
  {
  }

  /**
   A request that a newer one, a Start or a Stop has overtaken before it was
   decided is never decided and its callback is never called.
   */
  lemma {:induction false} OvertakenStaysSilent(w: World, r: nat, ops: seq<Op>)
    requires WorldOk(w) && r in w.requests
    requires w.requests[r].verdict.None? && w.requests[r].generation < w.m.generation
    ensures var w' := RunFrom(w, ops);
      && WorldOk(w') && r in w'.requests && w'.requests[r].generation < w'.m.generation
      && w'.requests[r].verdict.None? && w'.requests[r].results == []
  {
    hide WorldOk, Step;
    if ops != [] {
      OvertakenStaysSilent(w, r, ops[..|ops| - 1]);
      var before := RunFrom(w, ops[..|ops| - 1]);
      StepKeeps(before, ops[|ops| - 1]);
      StepVerdict(before, ops[|ops| - 1], r);
    }
    Known(RunFrom(w, ops), r);
    hide CurrentOk;
  }

  /** A probing switch is never abandoned: its request is undecided, its first frame would commit, and until then it is starting or timed. */
  lemma ProbingHasOwner(ops: seq<Op>)
    requires Run(ops).m.state == Probing
    ensures var w := Run(ops);
      && w.latest in w.requests && w.requests[w.latest].generation == w.m.generation
      && w.requests[w.latest].verdict.None? && w.m.probing == Some(w.requests[w.latest].probe)
      && VerdictOf(Step(w, Frame(w.latest)), w.latest) == Some(true)
      && (var q := w.requests[w.latest];
          q.timer == Armed || q.phase.Starting? || q.phase.Retrying? || q.phase.Started?)
      && (w.requests[w.latest].timer == Armed ==> VerdictOf(Step(w, TimerFires(w.latest)), w.latest) == Some(false))
      && (w.requests[w.latest].phase == Started(false) ==>
            VerdictOf(Step(w, AfterStart(w.latest)), w.latest) == Some(false))
  {
    hide Run;
    RunKeeps(ops);
    Known(Run(ops), Run(ops).latest);
    hide RequestsOk, ApartOk;
  }

  // ------------------------------------------------------------------------
  // Two things the switch does not promise.
  // ------------------------------------------------------------------------

  /** Whether a later frame of this request's camera reaches the output. */
  predicate Forwards(w: World, r: nat)
    requires r in w.requests
  {
    w.m.generation == w.requests[r].generation && w.m.active == Some(w.requests[r].probe)
  }

  /** Exactly the committed request of the current generation is forwarded. */
  lemma ForwardsExactly(ops: seq<Op>, r: nat)
    requires r in Run(ops).requests && Run(ops).requests[r].generation != 0
    ensures var w := Run(ops);
      Forwards(w, r) <==> w.m.generation == w.requests[r].generation && w.requests[r].verdict == Some(true)
  {
    hide Run;
    RunKeeps(ops);
    Known(Run(ops), r);
    hide WorldOk;
  }

  /** A camera switched in earlier falls silent with the next generation, and frames never resume. */
  lemma {:induction false} SilentOnceOvertaken(w: World, r: nat, ops: seq<Op>)
    requires WorldOk(w) && r in w.requests && w.requests[r].generation < w.m.generation
    ensures var w' := RunFrom(w, ops);
      WorldOk(w') && r in w'.requests && w'.requests[r].generation < w'.m.generation && !Forwards(w', r)
  {
    hide WorldOk, Step;
    if ops != [] {
      SilentOnceOvertaken(w, r, ops[..|ops| - 1]);
      var before := RunFrom(w, ops[..|ops| - 1]);
      StepKeeps(before, ops[|ops| - 1]);
      StepVerdict(before, ops[|ops| - 1], r);
    }
  }

  const FRONT := Config("front", 640, 480, 30, 0)
  const BACK := Config("back", 640, 480, 30, 0)

  const FIRST := Request(FRONT, 1, 0, Started(true), Awaited, Unarmed, None, [])
  const BEGUN := World(NEW.(probing := Some(0), state := Probing, generation := 1), {}, {},
                       map[0 := FIRST.(phase := Starting(None))], 1, 0)
  const STARTED := BEGUN.(running := {0}, requests := map[0 := FIRST])
  const COMMITTED := World(Manager(Some(0), None, "front", FRONT, Committed, 1), {0}, {},
                           map[0 := FIRST.(frame := Reporting, verdict := Some(true))], 1, 0)
  const REFUSED := Request(BACK, 0, 0, Replying, Handled, Over, Some(false), [])

  /** Request 0 has committed while its camera is still starting; request 1 found no capturer. */
  const ABORTED := COMMITTED.(m := COMMITTED.m.(state := Aborted, generation := 2),
                              requests := COMMITTED.requests[1 := REFUSED], nextCapturer := 2)

  lemma FirstSteps()
    ensures Step(BEGINNING, Reconfigure(0, FRONT, true, true)) == BEGUN
    ensures Step(BEGUN, CallStart(0, true)) == STARTED
  {
  }

  lemma LaterSteps()
    ensures Step(STARTED, Frame(0)) == COMMITTED
    ensures Step(COMMITTED, Reconfigure(1, BACK, false, false)) == ABORTED
  {
  }

  lemma RunMore(ops: seq<Op>, op: Op)
    ensures Run(ops + [op]) == Step(Run(ops), op)
  {
    assert (ops + [op])[..|ops|] == ops;
  }

  lemma ReachesAborted() returns (ops: seq<Op>)
    ensures Run(ops) == ABORTED
  {
    ops := [];
    assert Run(ops) == BEGINNING;
    hide Step, Run;
    FirstSteps();
    LaterSteps();
    RunMore(ops, Reconfigure(0, FRONT, true, true));
    ops := ops + [Reconfigure(0, FRONT, true, true)];
    RunMore(ops, CallStart(0, true));
    ops := ops + [CallStart(0, true)];
    RunMore(ops, Frame(0));
    ops := ops + [Frame(0)];
    RunMore(ops, Reconfigure(1, BACK, false, false));
    ops := ops + [Reconfigure(1, BACK, false, false)];
  }

  /** An aborted switch can leave a running camera active and yet silent for ever, even stop it. */
  lemma AbortSilencesExample()
    ensures exists ops ::
      var w := Run(ops);
      && 0 in w.requests && VerdictOf(w, 1) == Some(false)
      && w.m.active == Some(w.requests[0].probe) && w.requests[0].probe in w.running && !Forwards(w, 0)
      && w.requests[0].probe in Step(w, AfterStart(0)).stops
  {
    var ops := ReachesAborted();
    hide Run;
    assert 0 in Step(ABORTED, AfterStart(0)).stops;
    assert Run(ops) == ABORTED;
  }

  /**
   The cleanup of an overtaken request stops the active camera exactly when the
   request had committed while its camera was starting and nothing has replaced
   that camera since.
   */
  lemma CleanupStopsActive(ops: seq<Op>, r: nat)
    requires r in Run(ops).requests && Run(ops).requests[r].phase.Started?
    ensures var w, w' := Run(ops), Step(Run(ops), AfterStart(r));
      (w'.m.active.Some? && w'.m.active.value in w'.stops && w'.m.active.value !in w.stops) <==>
        && w.requests[r].phase.ok && w.requests[r].verdict == Some(true)
        && w.requests[r].generation != w.m.generation
        && w.m.active == Some(w.requests[r].probe) && w.requests[r].probe !in w.stops
  {
    hide Run;
    RunKeeps(ops);
    Known(Run(ops), r);
    hide WorldOk;
  }

  /**
   When a request is answered without probing, and when the old camera may be
   paused for the retry: only a running one on the same device.
   */
  lemma OpeningAnswers(ops: seq<Op>, r: nat, target: Config, made: bool, initialised: bool)
    requires r !in Run(ops).requests
    ensures var w, w' := Run(ops), Step(Run(ops), Reconfigure(r, target, made, initialised));
      var q, already := w'.requests[r], target == w.m.config && ActiveRuns(w.m, w.running);
      && (q.verdict == Some(true) <==> ValidTarget(target) && already)
      && (q.verdict == Some(false) <==> !ValidTarget(target) || (!already && !(made && initialised)))
      && (q.verdict == None ==> q.generation == w'.m.generation > w.m.generation && w'.m.state == Probing)
      && (q.phase.Starting? && q.phase.pause.Some? <==>
            q.verdict == None && ActiveRuns(w.m, w.running) && target.device == w.m.config.device)
      && (q.phase.Starting? && q.phase.pause.Some? ==> q.phase.pause == w.m.active)
      && (already && w.m.probing.None? && ValidTarget(target) ==> w'.m == w.m)
  {
    hide Run;
    RunKeeps(ops);
    hide RequestsOk, ApartOk, OwnerOk;
  }

  // ------------------------------------------------------------------------
  // The object: one method for each region under the lock.
  // ------------------------------------------------------------------------

  class CameraSourceManager {
    var activeCapturer: Option<nat>
    var probingCapturer: Option<nat>
    var activeDevicePath: string
    var currentConfig: Config
    var switchState: SwitchState
    var switchGeneration: nat

    function View(): Manager
      reads this
    {
      Manager(activeCapturer, probingCapturer, activeDevicePath, currentConfig, switchState, switchGeneration)
    }

    constructor ()
      ensures View() == NEW
    {
      activeCapturer, probingCapturer, activeDevicePath := None, None, "";
      currentConfig, switchState, switchGeneration := NEW.config, Idle, 0;
    }

    /** The camera that is replaced is handed out to be stopped, but not when no new one could be started. */
    method StartLocked(config: Config, made: Option<nat>) returns (replaced: Option<nat>)
      modifies this
      ensures View() == StartRegion(old(View()), config, made)
      ensures replaced == if made.Some? then old(activeCapturer) else None
    {
      if probingCapturer.Some? {
        probingCapturer := None;
      }
      var previous := activeCapturer;
      activeCapturer := None;
      currentConfig := config;
      activeDevicePath := config.device;
      switchState := Idle;
      switchGeneration := switchGeneration + 1;
      if made.None? {
        return None;
      }
      activeCapturer := made;
      return previous;
    }

    method StopLocked() returns (active: Option<nat>, probe: Option<nat>)
      modifies this
      ensures View() == StopRegion(old(View()))
      ensures active == old(activeCapturer) && probe == old(probingCapturer)
    {
      switchGeneration := switchGeneration + 1;
      switchState := Idle;
      active, activeCapturer := activeCapturer, None;
      probe, probingCapturer := probingCapturer, None;
    }

    method OpenLocked(running: set<nat>, target: Config, made: Option<nat>, initialised: bool) returns (opening: Opening)
      modifies this
      ensures OpenRegion(old(View()), running, target, made, initialised) == (View(), opening)
    {
      if target == currentConfig && activeCapturer.Some? && activeCapturer.value in running {
        if probingCapturer.Some? {
          switchGeneration := switchGeneration + 1;
          probingCapturer := None;
          switchState := Idle;
        }
        return AlreadyActive;
      }
      switchGeneration := switchGeneration + 1;
      switchState := Probing;
      if probingCapturer.Some? {
        probingCapturer := None;
      }
      if made.None? {
        switchState := Aborted;
        return NoCapturer;
      }
      if !initialised {
        switchState := Aborted;
        return NotInitialised;
      }
      probingCapturer := made;
      var pause := None;
      if activeCapturer.Some? && activeCapturer.value in running && target.device == activeDevicePath
        && target != currentConfig {
        pause := activeCapturer;
      }
      return Probe(switchGeneration, pause);
    }

    method CloseLocked(running: set<nat>, generation: nat, probe: nat, started: bool) returns (closing: Closing)
      modifies this
      ensures CloseRegion(old(View()), running, generation, probe, started) == (View(), closing)
    {
      var ownsProbe := switchGeneration == generation && switchState == Probing && probingCapturer == Some(probe);
      var committedDuringStart := switchGeneration == generation && switchState == Committed
        && activeCapturer == Some(probe);
      var resume := None;
      if !started && ownsProbe {
        probingCapturer := None;
        switchState := Aborted;
        if activeCapturer.Some? && activeCapturer.value !in running {
          resume := activeCapturer;
        }
      }
      if committedDuringStart {
        return CommittedDuringStart;
      }
      if !ownsProbe {
        return Superseded;
      }
      if !started {
        return FailedToStart(resume);
      }
      return Waits;
    }

    method HandleProbeFrame(generation: nat, probe: nat, target: Config) returns (committed: bool, oldActive: Option<nat>)
      modifies this
      ensures FrameRegion(old(View()), generation, probe, target) == (View(), committed)
      ensures oldActive == if committed then old(activeCapturer) else None
    {
      if switchGeneration != generation || switchState != Probing {
        return false, None;
      }
      oldActive := activeCapturer;
      activeCapturer := Some(probe);
      probingCapturer := None;
      activeDevicePath := target.device;
      currentConfig := target;
      switchState := Committed;
      committed := true;
    }

    method HandleProbeTimeout(running: set<nat>, generation: nat)
      returns (aborted: bool, timedOut: Option<nat>, resume: Option<nat>)
      modifies this
      ensures TimeoutRegion(old(View()), generation) == (View(), aborted)
      ensures timedOut == if aborted then old(probingCapturer) else None
      ensures resume == if aborted then Paused(old(View()), running) else None
    {
      resume := None;
      if switchGeneration != generation || switchState != Probing {
        return false, None, None;
      }
      switchState := Aborted;
      timedOut, probingCapturer := probingCapturer, None;
      if activeCapturer.Some? && activeCapturer.value !in running {
        resume := activeCapturer;
      }
      aborted := true;
    }
  }
}
