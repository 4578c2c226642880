/**
 What each call of the shutdown service and each turn of its worker does, and
 whose completions are called (src/core/session_shutdown_service.h:177-381).
 */
module ShutdownCalls {
  import opened Common
  import opened ShutdownService

  // ------------------------------------------------------------------------
  // Calls.
  // ------------------------------------------------------------------------

  /** The job waits its turn and is counted. */
  predicate LetIn(w: World, w': World, job: Job)
  {
    && w'.k == w.k.(jobs := w.k.jobs + [job], pending := w.k.pending + 1)
    && w'.past == w.past.(accepted := w.past.accepted + [job])
    && w'.worker == w.worker && w'.inbox == w.inbox && w'.stack == w.stack && w'.terminated == w.terminated
  }

  /** A job is let in exactly while admission is open; a refused one leaves no trace. */
  lemma SubmitExactly(w: World, job: Job)
    requires !w.terminated
    ensures var w' := Step(w, Submit(job)); if w.k.accepting then LetIn(w, w', job) else w' == w
  {
  }

  /** A cleanup is let in even after that, until the worker has committed to its exit; then the process ends. */
  lemma CleanupExactly(w: World, job: Job)
    requires !w.terminated
    ensures var w' := Step(w, SubmitCleanup(job));
      if !w.k.workerExiting then LetIn(w, w', job) else w' == w.(terminated := true)
  {
  }

  /** The application thread makes one call at a time; a drain waits, a shutdown closes admission for good. */
  lemma AsksExactly(w: World, callback: nat, onStopped: Option<nat>)
    requires !w.terminated && w.owed.None?
    ensures var w' := Step(w, DrainAsync(callback));
      && w'.k == w.k.(drains := w.k.drains + [callback]) && w'.past.registered == w.past.registered + [callback]
      && (w'.owed == Some(Drains) <==> w.k.pending == 0) && (w'.owed.None? <==> w.k.pending != 0)
    ensures var w' := Step(w, ShutdownAsync(onStopped));
      && !w'.k.accepting && w'.k.stopping && w'.k.jobs == w.k.jobs && w'.k.pending == w.k.pending
      && (onStopped.Some? ==> w'.k.stopped == w.k.stopped + [onStopped.value]
                              && w'.past.asked == w.past.asked + [onStopped.value])
      && (onStopped.None? ==> w'.k.stopped == w.k.stopped && w'.past.asked == w.past.asked)
      && (w'.owed == Some(Stopped) <==> w.k.workerExited) && (w'.owed.None? <==> !w.k.workerExited)
  {
  }

  /** Once the process has ended nothing happens any more; closing the endpoint only keeps later messages out. */
  lemma EndsExactly(w: World, op: Op)
    ensures w.terminated ==> Step(w, op) == w
    ensures !w.terminated ==> Step(w, CloseEndpoint) == w.(open := false)
  {
  }

  // ------------------------------------------------------------------------
  // The worker.
  // ------------------------------------------------------------------------

  /** A cleanup that failed and must be kept. */
  predicate MustKeep(o: Outcome) { o.failed && o.job.retainOnFailure }

  /** Running a job keeps it exactly when it failed and must be. */
  lemma RunsExactly(w: World, failed: bool)
    requires !w.terminated && w.worker.Running?
    ensures var job, w' := w.worker.job, Step(w, Work(failed));
      && w'.k == w.k.(failedJobs := if MustKeep(Outcome(job, failed)) then w.k.failedJobs + [job] else w.k.failedJobs)
      && w'.worker == Reporting(job, failed) && w'.past == w.past && w'.inbox == w.inbox
  {
  }

  /** Its outcome is recorded and, if somebody waits for it and the endpoint is open, posted. */
  lemma ReportsExactly(w: World, any: bool)
    requires !w.terminated && w.worker.Reporting?
    ensures var job, failed, w' := w.worker.job, w.worker.failed, Step(w, Work(any));
      && w'.k == w.k && w'.past == w.past.(finished := w.past.finished + [Outcome(job, failed)])
      && w'.inbox == (if job.hasCompletion && w.open then w.inbox + [Completed(job.id, failed)] else w.inbox)
      && w'.worker == Counting(MustKeep(Outcome(job, failed)))
  {
  }

  /** It leaves the count unless it is kept. */
  lemma CountsExactly(w: World, any: bool)
    requires !w.terminated && w.worker.Counting?
    ensures var w' := Step(w, Work(any));
      && w'.k == w.k.(pending := if w.worker.retained then w.k.pending else w.k.pending - 1)
      && w'.worker == Announcing(w'.k.pending == 0) && w'.past == w.past && w'.inbox == w.inbox
  {
  }

  /** Between two jobs: a count at zero is announced; the worker takes the oldest job or leaves, and otherwise sleeps. */
  lemma TurnsExactly(w: World, any: bool)
    requires !w.terminated
    ensures var w' := Step(w, Work(any));
      && (w.worker.Announcing? ==>
            w'.worker == Waiting && w'.k == w.k
            && w'.inbox == if w.worker.idle && w.open then w.inbox + [Drains] else w.inbox)
      && (w.worker == Waiting && |w.k.jobs| > 0 ==>
            w'.worker == Running(w.k.jobs[0]) && w'.k == w.k.(jobs := w.k.jobs[1..]))
      && (w.worker == Waiting && |w.k.jobs| == 0 && w.k.stopping && w.k.pending == 0 ==>
            w'.worker == Exiting && w'.k == w.k.(workerExiting := true))
      && (w.worker == Waiting && |w.k.jobs| == 0 && !(w.k.stopping && w.k.pending == 0) ==> w' == w)
      && (w.worker == Exiting ==> w'.worker == LastPost && w'.k == w.k.(workerExited := true) && w'.inbox == w.inbox)
      && (w.worker == LastPost ==>
            w'.worker == Done && w'.k == w.k && w'.inbox == if w.open then w.inbox + [Stopped] else w.inbox)
  {
  }

  function KeptOf(finished: seq<Outcome>): seq<Job>
  {
    if finished == [] then []
    else
      KeptOf(finished[..|finished| - 1])
      + if MustKeep(finished[|finished| - 1]) then [finished[|finished| - 1].job] else []
  }

  lemma {:induction false} KeptMeans(finished: seq<Outcome>)
    ensures KeptOf(finished) == RetainedOf(finished)
  {
    if finished != [] {
      KeptMeans(finished[..|finished| - 1]);
    }
  }

  /** Between two jobs exactly the failed cleanups to be kept are kept, and the count is what waits and what is kept. */
  lemma KeepsExactly(ops: seq<Op>)
    requires Run(ops).worker == Waiting
    ensures var w := Run(ops);
      w.k.failedJobs == KeptOf(w.past.finished) && w.k.pending == |w.k.jobs| + |w.k.failedJobs|
  {
    hide Run;
    RunKeeps(ops);
    KeptMeans(Run(ops).past.finished);
    hide JobsOf;
  }

  // ------------------------------------------------------------------------
  // Completions.
  // ------------------------------------------------------------------------

  /** What is to be told of the finished jobs. */
  function ToTell(finished: seq<Outcome>): seq<(nat, bool)>
  {
    if finished == [] then []
    else
      var last := finished[|finished| - 1];
      ToTell(finished[..|finished| - 1]) + if last.job.hasCompletion then [(last.job.id, last.failed)] else []
  }

  /** The completions among the posted messages. */
  function OnTheirWay(inbox: seq<Message>): seq<(nat, bool)>
  {
    if inbox == [] then []
    else
      var last := inbox[|inbox| - 1];
      OnTheirWay(inbox[..|inbox| - 1]) + if last.Completed? then [(last.id, last.failed)] else []
  }

  /** Called and posted completions are those of the finished jobs, in order; all of them while the endpoint is open. */
  predicate CompletionsOk(w: World)
  {
    var told := w.past.completed + OnTheirWay(w.inbox);
    told <= ToTell(w.past.finished) && (w.open ==> told == ToTell(w.past.finished))
  }

  lemma {:induction false} OnTheirWayHead(inbox: seq<Message>)
    requires inbox != []
    ensures OnTheirWay(inbox)
         == (if inbox[0].Completed? then [(inbox[0].id, inbox[0].failed)] else []) + OnTheirWay(inbox[1..])
  {
    if |inbox| > 1 {
      OnTheirWayHead(inbox[..|inbox| - 1]);
      assert inbox[1..][..|inbox| - 2] == inbox[..|inbox| - 1][1..];
    }
  }

  lemma PostTells(w: World, m: Message)
    ensures OnTheirWay(Post(w, m).inbox)
         == OnTheirWay(w.inbox) + if w.open && m.Completed? then [(m.id, m.failed)] else []
  {
    assert (w.inbox + [m])[..|w.inbox|] == w.inbox;
  }

  lemma TellSnoc(finished: seq<Outcome>, o: Outcome)
    ensures ToTell(finished + [o]) == ToTell(finished) + if o.job.hasCompletion then [(o.job.id, o.failed)] else []
  {
    assert (finished + [o])[..|finished|] == finished;
  }

  lemma WorkTells(w: World, failed: bool)
    requires CompletionsOk(w)
    ensures CompletionsOk(WorkerStep(w, failed))
  {
    hide ToTell, OnTheirWay, IsRetained;
    PostTells(w, Drains);
    PostTells(w, Stopped);
    if w.worker.Reporting? {
      var job, outcome := w.worker.job, w.worker.failed;
      PostTells(w, Completed(job.id, outcome));
      TellSnoc(w.past.finished, Outcome(job, outcome));
      var told := w.past.completed + OnTheirWay(w.inbox);
      assert w.past.completed + (OnTheirWay(w.inbox) + [(job.id, outcome)]) == told + [(job.id, outcome)];
    }
  }

  lemma StepTells(w: World, op: Op)
    requires CompletionsOk(w) && WorldOk(w)
    ensures CompletionsOk(Step(w, op))
  {
    hide ToTell, OnTheirWay, JobsOf, RetainedOf, Counted, FlagsOk, HistoryOk, NothingLost;
    match op
    case Work(failed) => WorkTells(w, failed); hide WorkerStep;
    case PostOwed =>
      hide WorkerStep;
      if w.owed.Some? {
        PostTells(w, w.owed.value);
      }
    case Dispatch =>
      hide WorkerStep;
      if w.inbox != [] {
        OnTheirWayHead(w.inbox);
      }
    case Deliver => hide WorkerStep; DeliverTellsNobody(w);
    case _ => hide WorkerStep;
  }

  lemma DeliverTellsNobody(w: World)
    ensures w.stack != [] ==>
      var w' := DeliverTop(w); w'.past.completed == w.past.completed && w'.inbox == w.inbox && w'.open == w.open
                               && w'.past.finished == w.past.finished
  {
  }

  /**
   Completions are called in the order their jobs finished, each with the outcome
   of its job, each at most once; with an open endpoint none is lost on the way.
   */
  lemma {:induction false} CompletionsExactly(ops: seq<Op>)
    ensures CompletionsOk(Run(ops))
  {
    hide Step, WorldOk;
    if ops != [] {
      CompletionsExactly(ops[..|ops| - 1]);
      RunKeeps(ops[..|ops| - 1]);
      StepTells(Run(ops[..|ops| - 1]), ops[|ops| - 1]);
    }
  }

  /** At rest all of them have been called. */
  lemma RestIsTold(ops: seq<Op>)
    requires !Run(ops).terminated && AtRest(Run(ops)) && Run(ops).open
    ensures Run(ops).past.completed == ToTell(Run(ops).past.finished)
  {
    RunKeeps(ops);
    RestIsComplete(Run(ops));
    CompletionsExactly(ops);
    hide Run;
    assert Run(ops).past.completed + [] == Run(ops).past.completed;
  }
}
