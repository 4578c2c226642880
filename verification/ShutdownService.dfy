/**
 The shutdown service as the interleaving of its threads: submitters, the worker
 and the application thread, one atomic step for each region under the mutex and
 for each message posted outside it (src/core/session_shutdown_service.h).
 */
module ShutdownService {
  import opened Common

  datatype Job = Job(id: nat, retainOnFailure: bool, hasCompletion: bool)

  /** What the mutex guards. A callback is known by a number. */
  datatype Locked = Locked(
    jobs: seq<Job>,
    failedJobs: seq<Job>,
    drains: seq<nat>,
    stopped: seq<nat>,
    pending: int,
    accepting: bool,
    stopping: bool,
    workerExiting: bool,
    workerExited: bool)

  // ------------------------------------------------------------------------
  // The regions under the mutex.
  // ------------------------------------------------------------------------

  const FRESH := Locked([], [], [], [], 0, true, false, false, false)

  /** Submit: refused once admission is closed. */
  function Admit(k: Locked, job: Job): (Locked, bool)
  {
    if !k.accepting then (k, false) else (k.(jobs := k.jobs + [job], pending := k.pending + 1), true)
  }

  /** SubmitCleanup: accepted until the worker has committed to its exit; afterwards the process ends. */
  function AdmitCleanup(k: Locked, job: Job): Option<Locked>
  {
    if k.workerExiting then None else Some(k.(jobs := k.jobs + [job], pending := k.pending + 1))
  }

  /** DrainAsync: whether the caller has to post the delivery. */
  function AskDrain(k: Locked, callback: nat): (Locked, bool)
  {
    (k.(drains := k.drains + [callback]), k.pending == 0)
  }

  function AskStop(k: Locked, callback: Option<nat>): (Locked, bool)
  {
    (k.(accepting := false, stopping := true,
        stopped := if callback.Some? then k.stopped + [callback.value] else k.stopped), k.workerExited)
  }

  predicate WorkerWakes(k: Locked) { k.jobs != [] || (k.stopping && k.pending == 0) }

  /** The worker takes the oldest job, or commits to its exit. */
  function Take(k: Locked): (Locked, Option<Job>)
  {
    if k.jobs == [] then (k.(workerExiting := true), None) else (k.(jobs := k.jobs[1..]), Some(k.jobs[0]))
  }

  function Retain(k: Locked, job: Job): Locked { k.(failedJobs := k.failedJobs + [job]) }

  function CountDown(k: Locked, retained: bool): (Locked, bool)
  {
    var pending := if retained then k.pending else k.pending - 1;
    (k.(pending := pending), pending == 0)
  }

  function NextDrain(k: Locked): (Locked, Option<nat>)
  {
    if k.pending != 0 || k.drains == [] then (k, None) else (k.(drains := k.drains[1..]), Some(k.drains[0]))
  }

  function NextStopped(k: Locked): (Locked, Option<nat>)
  {
    if k.stopped == [] then (k, None) else (k.(stopped := k.stopped[1..]), Some(k.stopped[0]))
  }

  // ------------------------------------------------------------------------
  // The threads.
  // ------------------------------------------------------------------------

  /** Where the worker is; a job is held from Running until it is counted. */
  datatype Worker =
    | Waiting
    | Running(job: Job)
    | Reporting(job: Job, failed: bool)
    | Counting(retained: bool)
    | Announcing(idle: bool)
    | Exiting
    | LastPost
    | Done

  datatype Message = Drains | Stopped | Completed(id: nat, failed: bool)

  /** A delivery the application thread is inside of; callbacks may run nested event loops. */
  datatype Frame = Draining | Joining | DrainingLast | TellingStopped

  datatype Outcome = Outcome(job: Job, failed: bool)

  /** What happened so far: jobs let in and finished, completions, drains and stops called. */
  datatype History = History(
    accepted: seq<Job>,
    finished: seq<Outcome>,
    completed: seq<(nat, bool)>,
    registered: seq<nat>,
    drained: seq<nat>,
    asked: seq<nat>,
    told: seq<nat>)

  /** owed is a message the application thread still has to post before it does anything else. */
  datatype World = World(
    k: Locked,
    worker: Worker,
    owed: Option<Message>,
    stack: seq<Frame>,
    inbox: seq<Message>,
    open: bool,
    terminated: bool,
    past: History)

  const BEGINNING := World(FRESH, Waiting, None, [], [], true, false, History([], [], [], [], [], [], []))

  function Post(w: World, m: Message): World { if w.open then w.(inbox := w.inbox + [m]) else w }

  datatype Op =
    | Submit(job: Job)
    | SubmitCleanup(job: Job)
    | DrainAsync(callback: nat)
    | ShutdownAsync(onStopped: Option<nat>)
    | Work(failed: bool)
    | PostOwed
    | Dispatch
    | Deliver
    | CloseEndpoint

  predicate IsRetained(o: Outcome) { o.failed && o.job.retainOnFailure }

  function WorkerStep(w: World, failed: bool): World
  {
    match w.worker
    case Waiting =>
      if !WorkerWakes(w.k) then w
      else
        var (k, job) := Take(w.k);
        w.(k := k, worker := if job.Some? then Running(job.value) else Exiting)
    case Running(job) =>
      w.(k := if IsRetained(Outcome(job, failed)) then Retain(w.k, job) else w.k, worker := Reporting(job, failed))
    case Reporting(job, outcome) =>
      var told := if job.hasCompletion then Post(w, Completed(job.id, outcome)) else w;
      told.(worker := Counting(IsRetained(Outcome(job, outcome))),
            past := w.past.(finished := w.past.finished + [Outcome(job, outcome)]))
    case Counting(retained) =>
      var (k, idle) := CountDown(w.k, retained);
      w.(k := k, worker := Announcing(idle))
    case Announcing(idle) => (if idle then Post(w, Drains) else w).(worker := Waiting)
    case Exiting => w.(k := w.k.(workerExited := true), worker := LastPost)
    case LastPost => Post(w, Stopped).(worker := Done)
    case Done => w
  }

  function DispatchFirst(w: World): World
    requires w.inbox != []
  {
    var rest := w.(inbox := w.inbox[1..]);
    match w.inbox[0]
    case Drains => rest.(stack := w.stack + [Draining])
    case Stopped => if w.k.workerExited then rest.(stack := w.stack + [Joining]) else rest
    case Completed(id, failed) => rest.(past := w.past.(completed := w.past.completed + [(id, failed)]))
  }

  function CallDrain(w: World): Option<World>
  {
    var (k, callback) := NextDrain(w.k);
    if callback.None? then None
    else Some(w.(k := k, past := w.past.(drained := w.past.drained + [callback.value])))
  }

  /** One turn of the innermost delivery. */
  function DeliverTop(w: World): World
    requires w.stack != []
  {
    var below := w.stack[..|w.stack| - 1];
    match w.stack[|w.stack| - 1]
    case Draining =>
      var next := CallDrain(w);
      if next.Some? then next.value else w.(stack := below)
    case Joining => if w.worker == Done then w.(stack := below + [DrainingLast]) else w
    case DrainingLast =>
      var next := CallDrain(w);
      if next.Some? then next.value else w.(stack := below + [TellingStopped])
    case TellingStopped =>
      var (k, callback) := NextStopped(w.k);
      if callback.None? then w.(stack := below)
      else w.(k := k, past := w.past.(told := w.past.told + [callback.value]))
  }

  function Step(w: World, op: Op): World
  {
    if w.terminated then w
    else
      match op
      case Submit(job) =>
        var (k, taken) := Admit(w.k, job);
        w.(k := k, past := if taken then w.past.(accepted := w.past.accepted + [job]) else w.past)
      case SubmitCleanup(job) =>
        var k := AdmitCleanup(w.k, job);
        if k.None? then w.(terminated := true)
        else w.(k := k.value, past := w.past.(accepted := w.past.accepted + [job]))
      case DrainAsync(callback) =>
        if w.owed.Some? then w
        else
          var (k, idle) := AskDrain(w.k, callback);
          w.(k := k, owed := if idle then Some(Drains) else None,
             past := w.past.(registered := w.past.registered + [callback]))
      case ShutdownAsync(onStopped) =>
        if w.owed.Some? then w
        else
          var (k, exited) := AskStop(w.k, onStopped);
          w.(k := k, owed := if exited then Some(Stopped) else None,
             past := w.past.(asked := if onStopped.Some? then w.past.asked + [onStopped.value] else w.past.asked))
      case Work(failed) => WorkerStep(w, failed)
      case PostOwed => if w.owed.None? then w else Post(w, w.owed.value).(owed := None)
      case Dispatch => if w.owed.Some? || w.inbox == [] then w else DispatchFirst(w)
      case Deliver => if w.owed.Some? || w.stack == [] then w else DeliverTop(w)
      case CloseEndpoint => w.(open := false)
  }

  function Run(ops: seq<Op>): World
  {
    if ops == [] then BEGINNING else Step(Run(ops[..|ops| - 1]), ops[|ops| - 1])
  }

  // ------------------------------------------------------------------------
  // The invariant.
  // ------------------------------------------------------------------------

  function JobsOf(finished: seq<Outcome>): (jobs: seq<Job>)
    ensures |jobs| == |finished|
  {
    if finished == [] then [] else JobsOf(finished[..|finished| - 1]) + [finished[|finished| - 1].job]
  }

  /** The cleanups that failed and must be kept. */
  function RetainedOf(finished: seq<Outcome>): seq<Job>
  {
    if finished == [] then []
    else
      var rest, last := RetainedOf(finished[..|finished| - 1]), finished[|finished| - 1];
      if IsRetained(last) then rest + [last.job] else rest
  }

  /** The job the worker has taken but not finished with. */
  function InHand(worker: Worker): seq<Job>
  {
    if worker.Running? || worker.Reporting? then [worker.job] else []
  }

  /** How much of the pending count the worker itself still owes. */
  function Share(worker: Worker): nat
  {
    match worker
    case Running(_) => 1
    case Reporting(job, failed) => if IsRetained(Outcome(job, failed)) then 0 else 1
    case Counting(retained) => if retained then 0 else 1
    case _ => 0
  }

  /** The pending count is what is queued, running or retained. */
  predicate Counted(w: World) { w.k.pending == |w.k.jobs| + Share(w.worker) + |w.k.failedJobs| }

  /** Flags follow the worker, and it leaves with nothing behind. */
  predicate FlagsOk(w: World)
  {
    && w.k.stopping == !w.k.accepting
    && w.k.workerExited == (w.worker.LastPost? || w.worker.Done?)
    && w.k.workerExiting == (w.worker.Exiting? || w.k.workerExited)
    && (w.k.workerExiting ==> w.k.stopping && w.k.jobs == [] && w.k.failedJobs == [])
  }

  /** Nothing is lost, repeated or reordered. */
  predicate HistoryOk(w: World)
  {
    && w.past.accepted == JobsOf(w.past.finished) + InHand(w.worker) + w.k.jobs
    && w.k.failedJobs == RetainedOf(w.past.finished)
                         + (if w.worker.Reporting? && IsRetained(Outcome(w.worker.job, w.worker.failed))
                            then [w.worker.job] else [])
    && w.past.registered == w.past.drained + w.k.drains
    && w.past.asked == w.past.told + w.k.stopped
  }

  /** The deliveries of the stopping kind only happen after the worker has gone. */
  ghost predicate ThreadsOk(w: World)
  {
    && (Stopped in w.inbox || w.owed == Some(Stopped) || Joining in w.stack ==> w.k.workerExited)
    && (DrainingLast in w.stack || TellingStopped in w.stack ==> w.worker == Done)
    && (w.owed.Some? ==> w.owed.value == Drains || w.owed.value == Stopped)
  }

  /** A delivery of drains is running, posted or about to be posted. */
  predicate DrainComing(w: World)
  {
    || Drains in w.inbox || Stopped in w.inbox || w.owed.Some?
    || w.worker == Announcing(true)
    || Draining in w.stack || Joining in w.stack || DrainingLast in w.stack
  }

  predicate StopComing(w: World)
  {
    || Stopped in w.inbox || w.owed == Some(Stopped) || w.worker == LastPost
    || Joining in w.stack || DrainingLast in w.stack || TellingStopped in w.stack
  }

  /** A drain waiting at rest, or a stop after the exit, always has its delivery coming. */
  ghost predicate NothingLost(w: World)
  {
    w.open ==>
      && (w.k.drains != [] && w.k.pending == 0 ==> DrainComing(w))
      && (w.k.stopped != [] && w.k.workerExited ==> StopComing(w))
  }

  ghost predicate WorldOk(w: World)
  {
    Counted(w) && FlagsOk(w) && HistoryOk(w) && ThreadsOk(w) && NothingLost(w)
  }

  lemma JobsOfSnoc(finished: seq<Outcome>, last: Outcome)
    ensures JobsOf(finished + [last]) == JobsOf(finished) + [last.job]
    ensures RetainedOf(finished + [last]) == RetainedOf(finished) + if IsRetained(last) then [last.job] else []
  {
    assert (finished + [last])[..|finished|] == finished;
  }

  lemma WorkCounts(w: World, failed: bool)
    requires Counted(w)
    ensures Counted(WorkerStep(w, failed))
  {
    hide IsRetained;
    match w.worker
    case Waiting => hide Retain, CountDown, Post;
    case Running(_) => hide Take, CountDown, Post;
    case Counting(_) => hide Take, Retain, Post;
    case _ => hide Take, Retain, CountDown;
  }

  lemma WorkFlags(w: World, failed: bool)
    requires Counted(w) && FlagsOk(w)
    ensures FlagsOk(WorkerStep(w, failed))
  {
    hide IsRetained;
  }

  lemma TakeRemembers(w: World)
    requires HistoryOk(w) && w.worker.Waiting?
    ensures HistoryOk(WorkerStep(w, false))
  {
    hide JobsOf, RetainedOf;
    if w.k.jobs != [] {
      var done := JobsOf(w.past.finished);
      assert w.k.jobs == [w.k.jobs[0]] + w.k.jobs[1..];
      assert done + [] + w.k.jobs == done + [w.k.jobs[0]] + w.k.jobs[1..];
    }
  }

  lemma ReportRemembers(w: World, failed: bool)
    requires HistoryOk(w) && w.worker.Reporting?
    ensures HistoryOk(WorkerStep(w, failed))
  {
    JobsOfSnoc(w.past.finished, Outcome(w.worker.job, w.worker.failed));
    hide JobsOf, RetainedOf;
    assert JobsOf(w.past.finished) + [w.worker.job] + w.k.jobs == JobsOf(w.past.finished) + [w.worker.job] + [] + w.k.jobs;
  }

  lemma WorkRemembers(w: World, failed: bool)
    requires HistoryOk(w)
    ensures HistoryOk(WorkerStep(w, failed))
  {
    hide JobsOf, RetainedOf;
    match w.worker
    case Waiting => TakeRemembers(w);
    case Reporting(job, outcome) => ReportRemembers(w, failed);
    case _ =>
  }

  /** A post adds its message to the inbox and nothing else. */
  lemma Posted(w: World, m: Message)
    ensures forall x :: x in Post(w, m).inbox <==> x in w.inbox || (w.open && x == m)
    ensures Post(w, m) == w.(inbox := Post(w, m).inbox)
  {
  }

  lemma WorkDelivers(w: World, failed: bool)
    requires Counted(w) && FlagsOk(w) && ThreadsOk(w) && NothingLost(w)
    ensures ThreadsOk(WorkerStep(w, failed)) && NothingLost(WorkerStep(w, failed))
  {
    match w.worker
    case Reporting(job, outcome) => Posted(w, Completed(job.id, outcome)); hide Post;
    case Announcing(idle) => Posted(w, Drains); hide Post;
    case LastPost => Posted(w, Stopped); hide Post;
    case _ =>
  }

  lemma WorkKeeps(w: World, failed: bool)
    requires WorldOk(w)
    ensures WorldOk(WorkerStep(w, failed))
  {
    hide WorkerStep, Counted, FlagsOk, HistoryOk, ThreadsOk, NothingLost;
    WorkCounts(w, failed);
    WorkFlags(w, failed);
    WorkRemembers(w, failed);
    WorkDelivers(w, failed);
  }

  /** What leaving the ends of the stack and the inbox does to membership. */
  lemma Ends<T>(s: seq<T>)
    requires s != []
    ensures forall x :: x in s <==> x in s[..|s| - 1] || x == s[|s| - 1]
    ensures forall x :: x in s <==> x in s[1..] || x == s[0]
  {
    assert s == s[..|s| - 1] + [s[|s| - 1]] && s == [s[0]] + s[1..];
  }

  /** Entering a delivery. */
  lemma Entered(stack: seq<Frame>, f: Frame)
    ensures forall x :: x in stack + [f] <==> x in stack || x == f
  {
  }

  /** Counts, flags and history do not look at deliveries, nor at completions called. */
  lemma FlagsAside(w: World, stack: seq<Frame>, inbox: seq<Message>, completed: seq<(nat, bool)>)
    ensures var w' := w.(stack := stack, inbox := inbox, past := w.past.(completed := completed));
      Counted(w) == Counted(w') && FlagsOk(w) == FlagsOk(w') && HistoryOk(w) == HistoryOk(w')
  {
  }

  lemma DispatchKeeps(w: World)
    requires WorldOk(w) && w.inbox != [] && w.owed.None?
    ensures WorldOk(DispatchFirst(w))
  {
    Ends(w.inbox);
    Entered(w.stack, Draining);
    Entered(w.stack, Joining);
    hide Counted, FlagsOk, HistoryOk;
    var w' := DispatchFirst(w);
    FlagsAside(w, w'.stack, w'.inbox, w'.past.completed);
    assert w' == w.(stack := w'.stack, inbox := w'.inbox, past := w.past.(completed := w'.past.completed));
  }

  /** A drain that is called leaves the queue for the history; if none can be, none is due. */
  lemma CallKeeps(w: World)
    requires WorldOk(w) && w.owed.None?
    requires Draining in w.stack || DrainingLast in w.stack
    ensures var next := CallDrain(w);
      if next.Some? then WorldOk(next.value) else w.k.pending != 0 || w.k.drains == []
  {
    hide JobsOf, RetainedOf, InHand, Share;
    if w.k.drains != [] {
      assert w.k.drains == [w.k.drains[0]] + w.k.drains[1..];
    }
  }

  /** Ending the innermost delivery, or going on to the next kind, once nothing of its kind is left to call. */
  lemma LeaveKeeps(w: World, more: seq<Frame>)
    requires WorldOk(w) && w.stack != [] && w.owed.None?
    requires var top := w.stack[|w.stack| - 1];
      match top
      case Draining => more == [] && (w.k.pending != 0 || w.k.drains == [])
      case Joining => more == [DrainingLast] && w.worker == Done
      case DrainingLast => more == [TellingStopped] && (w.k.pending != 0 || w.k.drains == [])
      case TellingStopped => more == [] && w.k.stopped == []
    ensures WorldOk(w.(stack := w.stack[..|w.stack| - 1] + more))
  {
    Ends(w.stack);
    hide Counted, FlagsOk, HistoryOk;
    var w' := w.(stack := w.stack[..|w.stack| - 1] + more);
    FlagsAside(w, w'.stack, w.inbox, w.past.completed);
    assert forall f :: f in w'.stack <==> f in w.stack[..|w.stack| - 1] || f in more;
  }

  lemma TellKeeps(w: World)
    requires WorldOk(w) && TellingStopped in w.stack && w.k.stopped != []
    ensures var (k, callback) := NextStopped(w.k);
      WorldOk(w.(k := k, past := w.past.(told := w.past.told + [callback.value])))
  {
    hide JobsOf, RetainedOf, InHand, Share;
    assert w.k.stopped == [w.k.stopped[0]] + w.k.stopped[1..];
  }

  lemma DeliverKeeps(w: World)
    requires WorldOk(w) && w.stack != [] && w.owed.None?
    ensures WorldOk(DeliverTop(w))
  {
    var below, top := w.stack[..|w.stack| - 1], w.stack[|w.stack| - 1];
    assert top in w.stack && below + [] == below;
    hide WorldOk, CallDrain;
    match top
    case Draining =>
      CallKeeps(w);
      if CallDrain(w).None? {
        LeaveKeeps(w, []);
      }
    case Joining =>
      if w.worker == Done {
        LeaveKeeps(w, [DrainingLast]);
      }
    case DrainingLast =>
      CallKeeps(w);
      if CallDrain(w).None? {
        LeaveKeeps(w, [TellingStopped]);
      }
    case TellingStopped =>
      if w.k.stopped == [] {
        LeaveKeeps(w, []);
      } else {
        TellKeeps(w);
      }
  }

  lemma SubmitKeeps(w: World, op: Op)
    requires WorldOk(w) && (op.Submit? || op.SubmitCleanup?)
    ensures WorldOk(Step(w, op))
  {
    hide JobsOf, RetainedOf;
    assert w.past.accepted + [op.job] == JobsOf(w.past.finished) + InHand(w.worker) + (w.k.jobs + [op.job]) by {
      assert w.past.accepted == JobsOf(w.past.finished) + InHand(w.worker) + w.k.jobs;
    }
  }

  lemma AskKeeps(w: World, op: Op)
    requires WorldOk(w) && (op.DrainAsync? || op.ShutdownAsync?)
    ensures WorldOk(Step(w, op))
  {
    hide JobsOf, RetainedOf;
  }

  lemma OwedKeeps(w: World, op: Op)
    requires WorldOk(w) && (op.PostOwed? || op.CloseEndpoint?)
    ensures WorldOk(Step(w, op))
  {
    if w.owed.Some? {
      Posted(w, w.owed.value);
    }
    hide JobsOf, RetainedOf, Post;
  }

  lemma StepKeeps(w: World, op: Op)
    requires WorldOk(w)
    ensures WorldOk(Step(w, op))
  {
    if !w.terminated {
      hide WorldOk, WorkerStep, DispatchFirst, DeliverTop;
      match op
      case Work(failed) => WorkKeeps(w, failed);
      case Dispatch =>
        if w.owed.None? && w.inbox != [] {
          DispatchKeeps(w);
        }
      case Deliver =>
        if w.owed.None? && w.stack != [] {
          DeliverKeeps(w);
        }
      case Submit(_) => SubmitKeeps(w, op);
      case SubmitCleanup(_) => SubmitKeeps(w, op);
      case DrainAsync(_) => AskKeeps(w, op);
      case ShutdownAsync(_) => AskKeeps(w, op);
      case _ => OwedKeeps(w, op);
    }
  }

  /** In every reachable state the counts agree, nothing is lost and no delivery is missing. */
  lemma {:induction false} RunKeeps(ops: seq<Op>)
    ensures WorldOk(Run(ops))
  {
    hide Step;
    if ops != [] {
      RunKeeps(ops[..|ops| - 1]);
      hide WorldOk;
      StepKeeps(Run(ops[..|ops| - 1]), ops[|ops| - 1]);
    }
  }

  // ------------------------------------------------------------------------
  // Safety.
  // ------------------------------------------------------------------------

  function RunFrom(w: World, ops: seq<Op>): World
  {
    if ops == [] then w else Step(RunFrom(w, ops[..|ops| - 1]), ops[|ops| - 1])
  }

  /** Every job that was let in has run and been counted, and no failed cleanup is kept. */
  predicate AllFinished(w: World)
  {
    w.past.accepted == JobsOf(w.past.finished) && RetainedOf(w.past.finished) == [] && w.k.jobs == []
  }

  lemma AtRestFinished(w: World)
    requires WorldOk(w) && w.k.pending == 0
    ensures AllFinished(w)
  {
    hide JobsOf, RetainedOf;
  }

  /** One more call: the oldest one not yet called. */
  predicate CallsNext(before: seq<nat>, after: seq<nat>, handedIn: seq<nat>)
  {
    |before| < |handedIn| && after == before + [handedIn[|before|]]
  }

  /**
   Callbacks are called in the order they were handed in, each once: a drain only
   with every job finished and no cleanup retained, a stop only after the worker
   has also gone for good.
   */
  lemma CallsComeAtRest(ops: seq<Op>, op: Op)
    ensures var w, w' := Run(ops), Step(Run(ops), op);
      && (w'.past.drained != w.past.drained ==>
            CallsNext(w.past.drained, w'.past.drained, w.past.registered) && AllFinished(w))
      && (w'.past.told != w.past.told ==>
            CallsNext(w.past.told, w'.past.told, w.past.asked) && AllFinished(w) && w.worker == Done)
  {
    hide Run;
    RunKeeps(ops);
    var w := Run(ops);
    match op
    case Deliver =>
      if w.stack != [] {
        DeliverCalls(w);
      }
    case _ =>
      hide AllFinished, WorldOk, WorkerStep;
      WorkLeavesCalls(w);
  }

  lemma DeliverCalls(w: World)
    requires WorldOk(w) && w.stack != []
    ensures var w' := DeliverTop(w);
      && (w'.past.drained != w.past.drained ==>
            CallsNext(w.past.drained, w'.past.drained, w.past.registered) && AllFinished(w))
      && (w'.past.told != w.past.told ==>
            CallsNext(w.past.told, w'.past.told, w.past.asked) && AllFinished(w) && w.worker == Done)
  {
    hide JobsOf, RetainedOf, AllFinished, NothingLost;
    if w.k.pending == 0 {
      AtRestFinished(w);
    }
    Top(w.stack);
  }

  lemma WorkLeavesCalls(w: World)
    ensures forall failed ::
      var past := WorkerStep(w, failed).past;
      past.drained == w.past.drained && past.told == w.past.told
  {
  }

  /** Once the worker has committed to its exit nothing is accepted, run or retained any more. */
  lemma {:induction false} ExitIsFinal(w: World, ops: seq<Op>)
    requires WorldOk(w) && w.k.workerExiting
    ensures var w' := RunFrom(w, ops);
      && WorldOk(w') && w'.k.workerExiting && AllFinished(w')
      && w'.past.accepted == w.past.accepted && w'.past.finished == w.past.finished
      && (forall job :: !Admit(w'.k, job).1 && AdmitCleanup(w'.k, job).None?)
  {
    hide WorldOk, Step, AllFinished;
    if ops == [] {
      ExitFinished(w);
    } else {
      ExitIsFinal(w, ops[..|ops| - 1]);
      var before := RunFrom(w, ops[..|ops| - 1]);
      StepKeeps(before, ops[|ops| - 1]);
      ExitStays(before, ops[|ops| - 1]);
      ExitFinished(RunFrom(w, ops));
    }
  }

  lemma ExitFinished(w: World)
    requires WorldOk(w) && w.k.workerExiting
    ensures AllFinished(w) && !w.k.accepting
  {
    hide JobsOf, RetainedOf;
  }

  lemma ExitStays(w: World, op: Op)
    requires WorldOk(w) && w.k.workerExiting
    ensures var w' := Step(w, op);
      w'.k.workerExiting && w'.past.accepted == w.past.accepted && w'.past.finished == w.past.finished
  {
    hide JobsOf, RetainedOf, HistoryOk, NothingLost, ThreadsOk, Counted;
    match op
    case Work(_) => hide IsRetained, Retain, CountDown;
    case _ => hide WorkerStep;
  }

  /** A failed cleanup is kept for ever: the service never drains, never exits and calls nobody again. */
  lemma {:induction false} RetainedBlocks(w: World, ops: seq<Op>)
    requires WorldOk(w) && w.k.failedJobs != []
    ensures var w' := RunFrom(w, ops);
      && WorldOk(w') && w.k.failedJobs <= w'.k.failedJobs && !w'.k.workerExiting
      && w'.past.drained == w.past.drained && w'.past.told == w.past.told
  {
    hide WorldOk, Step;
    if ops == [] {
      assert !w.k.workerExiting by { RetainedStays(w, CloseEndpoint); }
    } else {
      RetainedBlocks(w, ops[..|ops| - 1]);
      var before := RunFrom(w, ops[..|ops| - 1]);
      StepKeeps(before, ops[|ops| - 1]);
      RetainedStays(before, ops[|ops| - 1]);
      RetainedStays(RunFrom(w, ops), CloseEndpoint);
    }
  }

  lemma RetainedStays(w: World, op: Op)
    requires WorldOk(w) && w.k.failedJobs != []
    ensures var w' := Step(w, op);
      w.k.failedJobs <= w'.k.failedJobs && !w.k.workerExiting
      && w'.past.drained == w.past.drained && w'.past.told == w.past.told
  {
    hide JobsOf, RetainedOf, HistoryOk, NothingLost;
    Top(w.stack);
  }

  lemma Top(stack: seq<Frame>)
    ensures stack != [] ==> stack[|stack| - 1] in stack
  {
  }

  // ------------------------------------------------------------------------
  // Progress: left alone, the service comes to rest and has called everybody.
  // ------------------------------------------------------------------------

  /** The steps the worker and the application thread make by themselves; no new call, no nested event loop. */
  predicate Moves(w: World, op: Op)
  {
    && !w.terminated
    && match op
       case Work(_) => w.worker != Done && (w.worker == Waiting ==> WorkerWakes(w.k))
       case PostOwed => w.owed.Some?
       case Dispatch => w.owed.None? && w.inbox != [] && w.stack == []
       case Deliver => w.owed.None? && w.stack != [] && (w.stack[|w.stack| - 1] == Joining ==> w.worker == Done)
       case _ => false
  }

  function MessageCost(m: Message): nat
  {
    match m
    case Drains => 2
    case Stopped => 4
    case Completed(_, _) => 1
  }

  function FrameCost(f: Frame): nat
  {
    match f
    case Draining => 1
    case Joining => 3
    case DrainingLast => 2
    case TellingStopped => 1
  }

  function WorkerCost(worker: Worker): nat
  {
    match worker
    case Waiting => 7
    case Running(_) => 14
    case Reporting(_, _) => 13
    case Counting(_) => 11
    case Announcing(_) => 10
    case Exiting => 6
    case LastPost => 5
    case Done => 0
  }

  function InboxCost(inbox: seq<Message>): nat
  {
    if inbox == [] then 0 else InboxCost(inbox[..|inbox| - 1]) + MessageCost(inbox[|inbox| - 1])
  }

  function StackCost(stack: seq<Frame>): nat
  {
    if stack == [] then 0 else StackCost(stack[..|stack| - 1]) + FrameCost(stack[|stack| - 1])
  }

  /** More than the number of steps the service can still make by itself. */
  function Effort(w: World): nat
  {
    8 * |w.k.jobs| + WorkerCost(w.worker) + (if w.owed.Some? then 1 + MessageCost(w.owed.value) else 0)
    + StackCost(w.stack) + InboxCost(w.inbox) + |w.k.drains| + |w.k.stopped|
  }

  lemma PostCost(w: World, m: Message)
    ensures InboxCost(Post(w, m).inbox) <= InboxCost(w.inbox) + MessageCost(m)
  {
    assert (w.inbox + [m])[..|w.inbox|] == w.inbox;
  }

  lemma {:induction false} HeadCost(inbox: seq<Message>)
    requires inbox != []
    ensures InboxCost(inbox) == MessageCost(inbox[0]) + InboxCost(inbox[1..])
  {
    if |inbox| > 1 {
      var n := |inbox| - 1;
      HeadCost(inbox[..n]);
      assert inbox[..n][1..] == inbox[1..][..n - 1];
    }
  }

  lemma PushCost(stack: seq<Frame>, f: Frame)
    ensures StackCost(stack + [f]) == StackCost(stack) + FrameCost(f)
  {
    assert (stack + [f])[..|stack|] == stack;
  }

  lemma WorkCosts(w: World, failed: bool)
    requires Moves(w, Work(failed))
    ensures Effort(WorkerStep(w, failed)) < Effort(w)
  {
    hide InboxCost, StackCost;
    match w.worker
    case Reporting(job, outcome) => PostCost(w, Completed(job.id, outcome));
    case Announcing(_) => PostCost(w, Drains);
    case LastPost => PostCost(w, Stopped);
    case _ =>
  }

  lemma TopCost(stack: seq<Frame>)
    requires stack != []
    ensures StackCost(stack) == StackCost(stack[..|stack| - 1]) + FrameCost(stack[|stack| - 1])
  {
  }

  /** A drain that is called leaves the queue. */
  lemma CallCosts(w: World)
    ensures var next := CallDrain(w); next.Some? ==> Effort(next.value) < Effort(w)
  {
    hide InboxCost, StackCost, WorkerCost;
  }

  lemma LeaveCosts(w: World, more: seq<Frame>)
    requires w.stack != []
    requires more == [] || (|more| == 1 && FrameCost(more[0]) < FrameCost(w.stack[|w.stack| - 1]))
    ensures Effort(w.(stack := w.stack[..|w.stack| - 1] + more)) < Effort(w)
  {
    TopCost(w.stack);
    var below := w.stack[..|w.stack| - 1];
    if more == [] {
      assert below + more == below;
    } else {
      PushCost(below, more[0]);
      assert more == [more[0]];
    }
    hide InboxCost, StackCost, WorkerCost;
  }

  lemma DeliverCosts(w: World)
    requires Moves(w, Deliver)
    ensures Effort(DeliverTop(w)) < Effort(w)
  {
    var below, top := w.stack[..|w.stack| - 1], w.stack[|w.stack| - 1];
    assert below + [] == below;
    CallCosts(w);
    if top == Joining {
      LeaveCosts(w, [DrainingLast]);
    } else if top == DrainingLast {
      LeaveCosts(w, [TellingStopped]);
    } else {
      LeaveCosts(w, []);
    }
    hide InboxCost, StackCost, WorkerCost, CallDrain;
    if top == TellingStopped {
      hide FrameCost;
    } else {
      hide Effort;
    }
  }

  lemma DispatchCosts(w: World)
    requires w.inbox != []
    ensures Effort(DispatchFirst(w)) < Effort(w)
  {
    hide InboxCost, StackCost, WorkerCost;
    HeadCost(w.inbox);
    match w.inbox[0]
    case Drains => PushCost(w.stack, Draining);
    case Stopped => PushCost(w.stack, Joining);
    case Completed(_, _) =>
  }

  lemma OwedCosts(w: World)
    requires w.owed.Some?
    ensures Effort(Post(w, w.owed.value).(owed := None)) < Effort(w)
  {
    PostCost(w, w.owed.value);
    hide InboxCost, StackCost, WorkerCost;
  }

  lemma MovesCost(w: World, op: Op)
    requires Moves(w, op)
    ensures Effort(Step(w, op)) < Effort(w)
  {
    hide Effort, WorkerStep, DispatchFirst, DeliverTop, Post, WorkerWakes;
    match op
    case Work(failed) => WorkCosts(w, failed);
    case PostOwed => OwedCosts(w);
    case Dispatch => DispatchCosts(w);
    case Deliver => DeliverCosts(w);
  }

  ghost predicate AllMove(w: World, ops: seq<Op>)
  {
    forall i :: 0 <= i < |ops| ==> Moves(RunFrom(w, ops[..i]), ops[i])
  }

  /** No run without new calls goes on for ever. */
  lemma {:induction false} ComesToRest(w: World, ops: seq<Op>)
    requires AllMove(w, ops)
    ensures |ops| + Effort(RunFrom(w, ops)) <= Effort(w)
  {
    hide Step, Effort, Moves;
    if ops != [] {
      var n := |ops| - 1;
      forall i | 0 <= i < n ensures Moves(RunFrom(w, ops[..n][..i]), ops[..n][i]) {
        assert ops[..n][..i] == ops[..i] && Moves(RunFrom(w, ops[..i]), ops[i]);
      }
      ComesToRest(w, ops[..n]);
      assert Moves(RunFrom(w, ops[..n]), ops[n]);
      MovesCost(RunFrom(w, ops[..n]), ops[n]);
    }
  }

  ghost predicate AtRest(w: World) { forall op :: !Moves(w, op) }

  /**
   At rest every job has finished, every message is delivered, and unless a failed
   cleanup is retained or the endpoint was closed, every drain has been called;
   after a shutdown request the worker is gone and every stop has been called too.
   */
  lemma RestIsComplete(w: World)
    requires WorldOk(w) && !w.terminated && AtRest(w)
    ensures w.k.jobs == [] && w.past.accepted == JobsOf(w.past.finished)
    ensures w.stack == [] && w.inbox == [] && w.owed.None?
    ensures w.open && w.k.failedJobs == [] ==>
      && w.past.drained == w.past.registered
      && (w.k.stopping ==> w.worker == Done && w.past.told == w.past.asked)
  {
    assert !Moves(w, Work(true)) && !Moves(w, PostOwed) && !Moves(w, Dispatch) && !Moves(w, Deliver);
    hide JobsOf, RetainedOf;
    Top(w.stack);
    assert w.worker == Waiting || w.worker == Done;
    assert w.past.drained + [] == w.past.drained && w.past.told + [] == w.past.told;
  }

  lemma {:induction false} RunFromKeeps(w: World, ops: seq<Op>)
    requires WorldOk(w)
    ensures WorldOk(RunFrom(w, ops))
  {
    hide WorldOk, Step;
    if ops != [] {
      RunFromKeeps(w, ops[..|ops| - 1]);
      StepKeeps(RunFrom(w, ops[..|ops| - 1]), ops[|ops| - 1]);
    }
  }

  /**
   After anything at all, let the service move by itself for as long as it can:
   it stops, and with an open endpoint and no retained cleanup all drains have
   been called in order, and after a shutdown request all stops too.
   */
  lemma EveryoneIsCalled(ops: seq<Op>, moves: seq<Op>)
    requires AllMove(Run(ops), moves)
    ensures |moves| <= Effort(Run(ops))
    ensures var w := RunFrom(Run(ops), moves);
      AtRest(w) && !w.terminated && w.open && w.k.failedJobs == [] ==>
        && w.past.drained == w.past.registered
        && (w.k.stopping ==> w.worker == Done && w.past.told == w.past.asked)
  {
    hide WorldOk, Moves, Effort, Run, RunFrom;
    RunKeeps(ops);
    RunFromKeeps(Run(ops), moves);
    ComesToRest(Run(ops), moves);
    var w := RunFrom(Run(ops), moves);
    if AtRest(w) && !w.terminated {
      RestIsComplete(w);
    }
  }

  // ------------------------------------------------------------------------
  // The object: one method for each region under the mutex, and the delivery
  // loops as they run when nothing interleaves.
  // ------------------------------------------------------------------------

  class SessionShutdownService {
    var jobs: seq<Job>
    var failedJobs: seq<Job>
    var drains: seq<nat>
    var stopped: seq<nat>
    var count: int
    var accepting: bool
    var stopping: bool
    var workerExiting: bool
    var workerExited: bool

    function View(): Locked
      reads this
    {
      Locked(jobs, failedJobs, drains, stopped, count, accepting, stopping, workerExiting, workerExited)
    }

    constructor ()
      ensures View() == FRESH
    {
      jobs, failedJobs, drains, stopped, count := [], [], [], [], 0;
      accepting, stopping, workerExiting, workerExited := true, false, false, false;
    }

    method Submit(job: Job) returns (taken: bool)
      modifies this`jobs, this`count
      ensures Admit(old(View()), job) == (View(), taken)
    {
      if !accepting {
        return false;
      }
      jobs := jobs + [job];
      count := count + 1;
      return true;
    }

    /** False is the branch in which the process ends. */
    method SubmitCleanup(job: Job) returns (taken: bool)
      modifies this`jobs, this`count
      ensures AdmitCleanup(old(View()), job) == if taken then Some(View()) else None
      ensures !taken ==> View() == old(View())
    {
      if workerExiting {
        return false;
      }
      jobs := jobs + [job];
      count := count + 1;
      return true;
    }

    method DrainAsync(callback: nat) returns (idle: bool)
      modifies this`drains
      ensures AskDrain(old(View()), callback) == (View(), idle)
    {
      drains := drains + [callback];
      idle := count == 0;
    }

    method ShutdownAsync(onStopped: Option<nat>) returns (exited: bool)
      modifies this`accepting, this`stopping, this`stopped
      ensures AskStop(old(View()), onStopped) == (View(), exited)
    {
      accepting := false;
      stopping := true;
      if onStopped.Some? {
        stopped := stopped + [onStopped.value];
      }
      exited := workerExited;
    }

    method TakeJob() returns (job: Option<Job>)
      requires WorkerWakes(View())
      modifies this`jobs, this`workerExiting
      ensures Take(old(View())) == (View(), job)
    {
      if jobs == [] {
        workerExiting := true;
        return None;
      }
      job := Some(jobs[0]);
      jobs := jobs[1..];
    }

    method RetainJob(job: Job)
      modifies this`failedJobs
      ensures View() == Retain(old(View()), job)
    {
      failedJobs := failedJobs + [job];
    }

    method FinishJob(retained: bool) returns (idle: bool)
      modifies this`count
      ensures CountDown(old(View()), retained) == (View(), idle)
    {
      if !retained {
        count := count - 1;
      }
      idle := count == 0;
    }

    method PopDrain() returns (callback: Option<nat>)
      modifies this`drains
      ensures NextDrain(old(View())) == (View(), callback)
    {
      if count != 0 || drains == [] {
        return None;
      }
      callback := Some(drains[0]);
      drains := drains[1..];
    }

    method PopStopped() returns (callback: Option<nat>)
      modifies this`stopped
      ensures NextStopped(old(View())) == (View(), callback)
    {
      if stopped == [] {
        return None;
      }
      callback := Some(stopped[0]);
      stopped := stopped[1..];
    }

    /** All drains, oldest first, or none while something is pending. */
    method DeliverDrains() returns (called: seq<nat>)
      modifies this`drains
      ensures called == if count == 0 then old(drains) else []
      ensures drains == if count == 0 then [] else old(drains)
    {
      called := [];
      while true
        invariant count != 0 ==> called == []
        invariant called + drains == old(drains)
        decreases |drains|
      {
        ghost var before := drains;
        var callback := PopDrain();
        if callback.None? {
          break;
        }
        assert before == [callback.value] + drains;
        called := called + [callback.value];
      }
    }

    /** Nothing before the worker has exited; then the drains and, last, the stops. */
    method DeliverStopped() returns (called: seq<nat>)
      modifies this`drains, this`stopped
      ensures !workerExited ==> called == [] && View() == old(View())
      ensures workerExited && count == 0 ==>
        called == old(drains) + old(stopped) && View() == old(View()).(drains := [], stopped := [])
    {
      called := [];
      if !workerExited {
        return;
      }
      called := DeliverDrains();
      ghost var drained := called;
      while true
        invariant called + stopped == drained + old(stopped)
        modifies this`stopped
        decreases |stopped|
      {
        ghost var before := stopped;
        var callback := PopStopped();
        if callback.None? {
          break;
        }
        assert before == [callback.value] + stopped;
        called := called + [callback.value];
      }
    }
  }
}
