/**
 Which cameras run and which are let go: pausing, rolling back and releasing,
 told of the states before and after a step
 (src/media/camera_source_manager.cpp:111-181, 405-553).
 */
module CameraOutcomes {
  import opened Common
  import opened CameraSwitch

  /** The step is the one that decides against the request. */
  predicate Aborts(w: World, op: Op, r: nat)
  {
    r in w.requests && w.requests[r].verdict.None? && VerdictOf(Step(w, op), r) == Some(false)
  }

  /** The active camera, if it does not run. */
  function Silenced(w: World): Option<nat>
  {
    if w.m.active.Some? && w.m.active.value !in w.running then w.m.active else None
  }

  /**
   A request is decided against by its timeout or by its probe's failure to start,
   and by nothing else; either hands out the active camera to be started again
   exactly when that camera is there and does not run.
   */
  lemma AbortHandsOut(ops: seq<Op>, op: Op, r: nat)
    requires Aborts(Run(ops), op, r)
    ensures op == TimerFires(r) || op == AfterStart(r)
    ensures var q := Step(Run(ops), op).requests[r];
      && (op == TimerFires(r) ==> q.timer == Expiring(Silenced(Run(ops))))
      && (op == AfterStart(r) ==> q.phase == Failing(Silenced(Run(ops))))
  {
    hide Run;
    var w := Run(ops);
    RunKeeps(ops);
    Known(w, r);
    hide WorldOk, Running, Resume, Members;
  }

  /** The report that follows an abort of this kind. */
  function Report(op: Op, r: nat, resumed: bool): Op
  {
    if op == TimerFires(r) then ReportTimeout(r, resumed) else ReportFailure(r, resumed)
  }

  /** Between the decision and its report others may act, as long as the camera is not handed out again by them. */
  lemma ReportResumes(w: World, r: nat, resume: Option<nat>, resumed: bool)
    requires r in w.requests
    ensures w.requests[r].timer == Expiring(resume) ==> Resumed(w, Step(w, ReportTimeout(r, resumed)), r, resume, resumed)
    ensures w.requests[r].phase == Failing(resume) ==> Resumed(w, Step(w, ReportFailure(r, resumed)), r, resume, resumed)
  {
  }

  /** The camera handed out runs again if its start succeeds; the callback is told the failure. */
  predicate Resumed(w: World, w': World, r: nat, resume: Option<nat>, resumed: bool)
  {
    && w'.m == w.m && w'.stops == w.stops && r in w.requests && r in w'.requests
    && w'.requests[r].results == w.requests[r].results + [false]
    && w'.running == if resume.None? then w.running else if resumed then w.running + {resume.value} else w.running - {resume.value}
  }

  /** A switch that is rolled back at once leaves the camera of before active and, when it starts again, running. */
  lemma RollbackRestores(ops: seq<Op>, op: Op, r: nat)
    requires Aborts(Run(ops), op, r)
    ensures var w, w' := Run(ops), Step(Step(Run(ops), op), Report(op, r, true));
      && w'.m.active == w.m.active && w'.m.config == w.m.config && w'.m.devicePath == w.m.devicePath
      && (w.m.active.Some? ==> w.m.active.value in w'.running)
      && w'.requests[r].results == [false]
  {
    var w := Run(ops);
    hide Run;
    AbortHandsOut(ops, op, r);
    AbortLeavesActive(w, op, r);
    RunKeeps(ops);
    Known(w, r);
    ReportResumes(Step(w, op), r, Silenced(w), true);
    AbortStopsNobody(w, op, r);
    hide WorldOk, Step;
  }

  /** Deciding stops nobody by itself, and has told the request nothing. */
  lemma AbortStopsNobody(w: World, op: Op, r: nat)
    requires WorldOk(w) && Aborts(w, op, r) && (op == TimerFires(r) || op == AfterStart(r))
    ensures Step(w, op).running == w.running && Step(w, op).requests[r].results == []
  {
    Known(w, r);
    hide WorldOk, CurrentOk, ManagerOk, Paused;
  }

  // ------------------------------------------------------------------------
  // Pausing for a second attempt.
  // ------------------------------------------------------------------------

  /**
   A probe that starts at once leaves the active camera alone. Where it does not
   and the active camera may be paused, that one is stopped and the probe is
   started again; the second attempt is the last.
   */
  lemma PausesForRetry(w: World, r: nat, ok: bool)
    requires r in w.requests
    ensures var q, w' := w.requests[r], Step(w, CallStart(r, ok));
      q.phase.Starting? ==>
        && w'.m == w.m && w'.stops == w.stops && r in w'.requests
        && (ok ==> w'.running == w.running + {q.probe} && w'.requests[r].phase == Started(true))
        && (!ok && q.phase.pause.None? ==> w'.running == w.running - {q.probe} && w'.requests[r].phase == Started(false))
        && (!ok && q.phase.pause.Some? ==>
              w'.running == w.running - {q.probe} - {q.phase.pause.value} && w'.requests[r].phase == Retrying)
    ensures var q, w' := w.requests[r], Step(w, CallAgain(r, ok));
      q.phase.Retrying? ==>
        && w'.m == w.m && w'.stops == w.stops && r in w'.requests && w'.requests[r].phase == Started(ok)
        && w'.running == if ok then w.running + {q.probe} else w.running - {q.probe}
  {
  }

  // ------------------------------------------------------------------------
  // Letting cameras go.
  // ------------------------------------------------------------------------

  /** The step commits the request. */
  predicate Commits(w: World, op: Op, r: nat)
  {
    r in w.requests && w.requests[r].verdict.None? && VerdictOf(Step(w, op), r) == Some(true)
  }

  /** The probe of this request runs although its switch has gone on without it. */
  predicate LeftBehind(w: World, r: nat)
  {
    && r in w.requests && w.requests[r].phase == Started(true)
    && !(w.m.generation == w.requests[r].generation && w.requests[r].verdict != Some(false))
  }

  /** Who is handed out to be stopped by a step, and by which. */
  predicate LetsGo(w: World, op: Op, c: nat)
  {
    match op
    case Start(_, made) => made && w.m.active == Some(c)
    case Stop => w.m.active == Some(c) || w.m.probing == Some(c)
    case Reconfigure(r, target, _, _) =>
      r !in w.requests && target.width > 0 && target.height > 0 && target.fps > 0 && w.m.probing == Some(c)
    case Frame(r) => Commits(w, op, r) && w.m.active == Some(c)
    case TimerFires(r) => Aborts(w, op, r) && w.m.probing == Some(c)
    case AfterStart(r) => (Aborts(w, op, r) || LeftBehind(w, r)) && w.requests[r].probe == c
    case _ => false
  }

  lemma LetsGoExactly(ops: seq<Op>, op: Op, c: nat)
    requires c !in Run(ops).stops
    ensures c in Step(Run(ops), op).stops <==> LetsGo(Run(ops), op, c)
  {
    hide Run;
    RunKeeps(ops);
    hide WorldOk, Step, LetsGo;
    match op
    case AfterStart(r) => AfterStartLetsGo(Run(ops), r, c);
    case Frame(r) => FrameLetsGo(Run(ops), r, c);
    case TimerFires(r) => TimerLetsGo(Run(ops), r, c);
    case _ => OthersLetGo(Run(ops), op, c);
  }

  lemma OthersLetGo(w: World, op: Op, c: nat)
    requires c !in w.stops && !op.AfterStart? && !op.Frame? && !op.TimerFires?
    ensures c in Step(w, op).stops <==> LetsGo(w, op, c)
  {
    hide OpenRegion;
  }

  lemma FrameLetsGo(w: World, r: nat, c: nat)
    requires WorldOk(w) && c !in w.stops
    ensures c in Step(w, Frame(r)).stops <==> LetsGo(w, Frame(r), c)
  {
    if r in w.requests {
      Known(w, r);
    }
    hide WorldOk;
  }

  lemma TimerLetsGo(w: World, r: nat, c: nat)
    requires WorldOk(w) && c !in w.stops
    ensures c in Step(w, TimerFires(r)).stops <==> LetsGo(w, TimerFires(r), c)
  {
    if r in w.requests {
      Known(w, r);
    }
    hide WorldOk;
  }

  lemma AfterStartLetsGo(w: World, r: nat, c: nat)
    requires WorldOk(w) && c !in w.stops
    ensures c in Step(w, AfterStart(r)).stops <==> LetsGo(w, AfterStart(r), c)
  {
    if r in w.requests && w.requests[r].phase.Started? {
      Known(w, r);
      hide WorldOk;
      var q := w.requests[r];
      if q.verdict.Some? {
        assert q.verdict == if q.verdict.value then Some(true) else Some(false);
      }
    }
  }

  /** Once handed out, a camera stays so until somebody stops it. */
  lemma StopsOneByOne(w: World, op: Op, c: nat)
    requires c in w.stops
    ensures var w' := Step(w, op);
      if op == StopOne(c) then c !in w'.stops && c !in w'.running else c in w'.stops
  {
    hide OpenRegion, CloseRegion;
  }

  // ------------------------------------------------------------------------
  // Who runs, and what the switch holds.
  // ------------------------------------------------------------------------

  /** Who begins to run by a step. */
  predicate Begins(w: World, op: Op, c: nat)
  {
    match op
    case Start(_, made) => made && c == w.nextCapturer
    case CallStart(r, ok) => ok && r in w.requests && w.requests[r].phase.Starting? && w.requests[r].probe == c
    case CallAgain(r, ok) => ok && r in w.requests && w.requests[r].phase.Retrying? && w.requests[r].probe == c
    case ReportFailure(r, resumed) => resumed && r in w.requests && w.requests[r].phase == Failing(Some(c))
    case ReportTimeout(r, resumed) => resumed && r in w.requests && w.requests[r].timer == Expiring(Some(c))
    case _ => false
  }

  /** Who ceases to run by a step. */
  predicate Ceases(w: World, op: Op, c: nat)
  {
    match op
    case Start(_, _) => w.m.probing == Some(c)
    case CallStart(r, ok) =>
      !ok && r in w.requests && w.requests[r].phase.Starting?
      && (w.requests[r].probe == c || w.requests[r].phase == Starting(Some(c)))
    case CallAgain(r, ok) => !ok && r in w.requests && w.requests[r].phase.Retrying? && w.requests[r].probe == c
    case ReportFailure(r, resumed) => !resumed && r in w.requests && w.requests[r].phase == Failing(Some(c))
    case ReportTimeout(r, resumed) => !resumed && r in w.requests && w.requests[r].timer == Expiring(Some(c))
    case StopOne(s) => s == c && c in w.stops
    case Stall(s) => s == c
    case _ => false
  }

  lemma RunsExactly(w: World, op: Op, c: nat)
    requires c in w.running ==> c != w.nextCapturer
    ensures c in Step(w, op).running <==> Begins(w, op, c) || (c in w.running && !Ceases(w, op, c))
  {
    hide OpenRegion, CloseRegion, Members, FrameRegion, TimeoutRegion;
    match op
    case Start(_, _) => MembersMean(w.m.probing, c);
    case CallStart(r, _) =>
      if r in w.requests && w.requests[r].phase.Starting? {
        MembersMean(w.requests[r].phase.pause, c);
      }
    case _ =>
  }

  lemma MembersMean(o: Option<nat>, c: nat)
    ensures c in Members(o) <==> o == Some(c)
  {
  }

  /** A start ends any probing, installs its configuration and runs a new camera if one could be made. */
  lemma StartMoves(w: World, config: Config, made: bool)
    ensures var m := Step(w, Start(config, made)).m;
      && m.active == (if made then Some(w.nextCapturer) else None) && m.probing.None? && m.state == Idle
      && m.config == config && m.devicePath == config.device && m.generation == w.m.generation + 1
  {
  }

  /** A stop ends both, keeps the configuration for the next time, and starts a new generation. */
  lemma StopMoves(w: World)
    ensures var m := Step(w, Stop).m;
      && m.active.None? && m.probing.None? && m.state == Idle
      && m.config == w.m.config && m.devicePath == w.m.devicePath && m.generation == w.m.generation + 1
  {
  }

  /**
   A request leaves the active camera and its configuration alone. An invalid one
   changes nothing; one for the running configuration ends any probing; any other
   starts a new generation, probing its own camera or aborted for want of one.
   */
  lemma RequestMoves(w: World, r: nat, target: Config, made: bool, initialised: bool)
    requires r !in w.requests
    ensures var m, ready := Step(w, Reconfigure(r, target, made, initialised)).m, made && initialised;
      var already := w.m.config == target && w.m.active.Some? && w.m.active.value in w.running;
      && SameInstalled(m, w.m)
      && if !ValidTarget(target) || (already && w.m.probing.None?) then m == w.m
         else
           && m.generation == w.m.generation + 1
           && m.probing == (if ready && !already then Some(w.nextCapturer) else None)
           && m.state == if already then Idle else if ready then Probing else Aborted
  {
  }

  /** Everything else that moves the switch decides a request: a first frame commits it, a timeout or a failed start aborts it. */
  lemma DecisionMoves(ops: seq<Op>, op: Op, r: nat)
    requires Aborts(Run(ops), op, r) || Commits(Run(ops), op, r)
    ensures var w, w' := Run(ops), Step(Run(ops), op);
      && w'.m.generation == w.m.generation == w.requests[r].generation && w'.m.probing.None?
      && w'.m.state == if Commits(w, op, r) then Committed else Aborted
  {
    hide Run;
    var w := Run(ops);
    RunKeeps(ops);
    Known(w, r);
    hide WorldOk;
  }

  lemma OtherStepsRest(ops: seq<Op>, op: Op)
    requires !op.Start? && !op.Stop? && !op.Reconfigure?
    requires forall r :: !Aborts(Run(ops), op, r) && !Commits(Run(ops), op, r)
    ensures Step(Run(ops), op).m == Run(ops).m
  {
    hide Run;
    var w := Run(ops);
    RunKeeps(ops);
    if (op.AfterStart? || op.Frame? || op.TimerFires?) && op.r in w.requests {
      Known(w, op.r);
      assert !Aborts(w, op, op.r) && !Commits(w, op, op.r);
      hide WorldOk;
    }
  }
}
