/**
 What each step of the gate, its callbacks and its closer does, and that no
 business is lost (src/core/executor_lifetime.h:51-185).
 */
module GateCalls {
  import opened Common
  import opened CallbackGate

  // ------------------------------------------------------------------------
  // Tickets and business.
  // ------------------------------------------------------------------------

  /** A ticket is given exactly while the gate is open; it is a new one and is counted. */
  lemma EnterExactly(w: World)
    ensures var w' := Step(w, EnterGate);
      if w.gate.closed then w' == w
      else
        && w' == w.(gate := w.gate.(inFlight := w.gate.inFlight + 1), held := w.held[w.nextTicket := ByCaller],
                    nextTicket := w.nextTicket + 1)
  {
  }

  /** Giving a ticket back uncounts it; posting with it hands it to the executor together with the business. */
  lemma TicketExactly(w: World, ticket: nat, n: nat)
    requires ticket in w.held && w.held[ticket] == ByCaller
    ensures Step(w, ReleaseTicket(ticket))
         == w.(gate := w.gate.(inFlight := w.gate.inFlight - 1), held := w.held - {ticket})
    ensures Step(w, PostBusiness(ticket, n))
         == w.(held := w.held - {ticket}, tasks := w.tasks + [Task(ticket, Business(n))], posted := w.posted + [n])
  {
  }

  /** The business among these tasks. */
  function BusinessOf(tasks: seq<Task>): multiset<nat>
  {
    if tasks == [] then multiset{}
    else
      var last := tasks[|tasks| - 1].work;
      BusinessOf(tasks[..|tasks| - 1]) + if last.Business? then multiset{last.n} else multiset{}
  }

  lemma {:induction false} BusinessApart(a: seq<Task>, b: seq<Task>)
    ensures BusinessOf(a + b) == BusinessOf(a) + BusinessOf(b)
  {
    if b == [] {
      assert a + b == a;
    } else {
      var n := |b| - 1;
      assert (a + b)[..|a + b| - 1] == a + b[..n];
      BusinessApart(a, b[..n]);
    }
  }

  lemma BusinessWithout(tasks: seq<Task>, i: nat)
    requires i < |tasks|
    ensures BusinessOf(tasks)
         == BusinessOf(tasks[..i] + tasks[i + 1..])
            + if tasks[i].work.Business? then multiset{tasks[i].work.n} else multiset{}
  {
    hide BusinessOf;
    assert tasks == tasks[..i] + [tasks[i]] + tasks[i + 1..];
    BusinessApart(tasks[..i] + [tasks[i]], tasks[i + 1..]);
    BusinessApart(tasks[..i], [tasks[i]]);
    BusinessApart(tasks[..i], tasks[i + 1..]);
    OneTask(tasks[i]);
  }

  /** Business handed over is either done or still with the executor, as often as it was handed over. */
  predicate BusinessKept(w: World)
  {
    multiset(w.posted) == multiset(w.ran) + BusinessOf(w.tasks)
  }

  lemma PostKeepsBusiness(w: World, ticket: nat, n: nat)
    requires BusinessKept(w)
    ensures BusinessKept(Step(w, PostBusiness(ticket, n)))
  {
    hide BusinessOf;
    MoreTasks(w, Task(ticket, Business(n)));
  }

  lemma RunKeepsTheRest(w: World, i: nat)
    requires BusinessKept(w)
    ensures BusinessKept(Step(w, RunTask(i)))
  {
    hide BusinessOf;
    if i < |w.tasks| {
      BusinessWithout(w.tasks, i);
    }
  }

  lemma CompletionIsNoBusiness(w: World, c: nat)
    requires BusinessKept(w)
    ensures BusinessKept(Step(w, PostIt(c)))
  {
    hide BusinessOf;
    if c in w.callbacks && w.callbacks[c].stage.Posting? {
      MoreTasks(w, Task(w.callbacks[c].stage.ticket, Completion(c, w.callbacks[c].stage.args)));
    }
  }

  lemma StepKeepsBusiness(w: World, op: Op)
    requires BusinessKept(w)
    ensures BusinessKept(Step(w, op))
  {
    hide Step, BusinessOf;
    match op
    case PostBusiness(ticket, n) => PostKeepsBusiness(w, ticket, n);
    case RunTask(i) => RunKeepsTheRest(w, i);
    case PostIt(c) => CompletionIsNoBusiness(w, c);
    case _ => NoBusiness(w, op);
  }

  lemma MoreTasks(w: World, task: Task)
    ensures BusinessOf(w.tasks + [task])
         == BusinessOf(w.tasks) + if task.work.Business? then multiset{task.work.n} else multiset{}
  {
    BusinessApart(w.tasks, [task]);
    OneTask(task);
  }

  lemma OneTask(task: Task)
    ensures BusinessOf([task]) == if task.work.Business? then multiset{task.work.n} else multiset{}
  {
    assert [task][..0] == [];
  }

  /** Neither tasks nor business move. */
  predicate NoneMoved(w: World, w': World) { w'.tasks == w.tasks && w'.posted == w.posted && w'.ran == w.ran }

  lemma BeginMovesNone(w: World, c: nat, args: int)
    requires c in w.callbacks
    ensures NoneMoved(w, Begin(w, c, args))
  {
  }

  lemma NoBusiness(w: World, op: Op)
    requires !op.PostBusiness? && !op.RunTask? && !op.PostIt?
    ensures NoneMoved(w, Step(w, op))
  {
    hide CanCancel, Begin;
    match op
    case Complete(c, args) =>
      if MutexFree(w, c) {
        BeginMovesNone(w, c, args);
      }
    case CompleteOwed(c) =>
      if MutexFree(w, c) {
        BeginMovesNone(w.(callbacks := w.callbacks[c := w.callbacks[c].(owed := false)]), c, w.callbacks[c].cancelled);
      }
    case CancelNext(id) =>
      if CanCancel(w, id) {
        CancelMovesNone(w, id);
      }
      hide DoCancel;
    case _ => hide DoCancel;
  }

  lemma CancelMovesNone(w: World, id: nat)
    requires CanCancel(w, id)
    ensures NoneMoved(w, DoCancel(w, id))
  {
    var target := w.closer.todo[id];
    if target.ToCallback? && target.c in w.callbacks && w.callbacks[target.c].alive {
      BeginMovesNone(w.(closer := w.closer.(todo := w.closer.todo - {id})), target.c, w.callbacks[target.c].cancelled);
    }
    hide Begin;
  }

  lemma {:induction false} RunKeepsBusiness(ops: seq<Op>)
    ensures BusinessKept(Run(ops))
  {
    hide Step;
    if ops != [] {
      RunKeepsBusiness(ops[..|ops| - 1]);
      StepKeepsBusiness(Run(ops[..|ops| - 1]), ops[|ops| - 1]);
    }
  }

  /** When WaitForDrain can return, every business ever posted has run, exactly as often as it was posted. */
  lemma DrainedIsDone(ops: seq<Op>)
    requires Drained(Run(ops).gate)
    ensures multiset(Run(ops).ran) == multiset(Run(ops).posted)
  {
    hide Run;
    RunKeepsBusiness(ops);
    DrainedMeansRun(ops);
  }

  // ------------------------------------------------------------------------
  // Callbacks.
  // ------------------------------------------------------------------------

  /** A new id, remembered as the way to this target, exactly while the gate is open. */
  predicate RegistersOr(w: World, g: Gate, id: nat, target: Target)
  {
    if w.gate.closed then id == 0 && g == w.gate
    else
      && id == w.gate.nextId + 1
      && g == w.gate.(nextId := id, cancellations := w.gate.cancellations[id := target])
  }

  /** Creating a callback or a local closure registers it; too late for that, its cancellation is due at once. */
  lemma CreateExactly(w: World, c: nat, born: bool, cancelled: int, n: nat)
    ensures c !in w.callbacks ==>
      var w' := Step(w, Create(c, born, cancelled));
      && c in w'.callbacks
      && w'.callbacks == w.callbacks[c := w'.callbacks[c]]
      && var cb := w'.callbacks[c];
         && RegistersOr(w, w'.gate, cb.id, ToCallback(c))
         && cb == Callback(true, born, cb.id, cancelled, w.gate.closed, Free, born, [], [], [])
    ensures n !in w.locals ==>
      var w' := Step(w, CancelWhenClosed(n));
      && n in w'.locals && w'.locals == w.locals[n := w'.locals[n]]
      && RegistersOr(w, w'.gate, w'.locals[n].id, ToLocal(n))
      && w'.locals[n] == Local(w'.locals[n].id, false, if w.gate.closed then 1 else 0)
  {
  }

  /** Completing: the first one takes the function and a ticket even from a closed gate, any other only tries. */
  predicate Completes(w: World, w': World, c: nat, args: int)
  {
    && c in w.callbacks && c in w'.callbacks && w'.callbacks == w.callbacks[c := w'.callbacks[c]]
    && w'.callbacks[c].attempts == w.callbacks[c].attempts + [args] && !w'.callbacks[c].full
    && if w.callbacks[c].full then
         && w'.callbacks[c].stage == Posting(w.nextTicket, args)
         && w'.held == w.held[w.nextTicket := ByCompletion(c)] && w'.gate == w.gate.(inFlight := w.gate.inFlight + 1)
       else w'.callbacks[c].stage == Free && w'.held == w.held && w'.gate == w.gate
  }

  /** Everyone who may complete does: callers, the creator of a callback that came too late, and the closer. */
  lemma CompleteExactly(w: World, c: nat, args: int)
    requires MutexFree(w, c)
    ensures Completes(w, Step(w, Complete(c, args)), c, args)
    ensures w.callbacks[c].owed ==>
      Completes(w, Step(w, CompleteOwed(c)), c, w.callbacks[c].cancelled) && !Step(w, CompleteOwed(c)).callbacks[c].owed
  {
  }

  /** Then the function is posted with those arguments under that ticket, and the registration is forgotten. */
  lemma PostsExactly(w: World, c: nat)
    requires c in w.callbacks
    ensures w.callbacks[c].stage.Posting? ==>
      var w', stage := Step(w, PostIt(c)), w.callbacks[c].stage;
      && w'.tasks == w.tasks + [Task(stage.ticket, Completion(c, stage.args))] && w'.held == w.held - {stage.ticket}
      && w'.callbacks == w.callbacks[c := w.callbacks[c].(stage := Forgetting, posts := w.callbacks[c].posts + [stage.args])]
      && w'.gate == w.gate
    ensures w.callbacks[c].stage.Forgetting? ==>
      var w' := Step(w, ForgetIt(c));
      && w'.gate == w.gate.(cancellations := w.gate.cancellations - {w.callbacks[c].id})
      && w'.callbacks == w.callbacks[c := w.callbacks[c].(stage := Free)]
  {
  }

  /** The executor runs any of its tasks: a completion runs its function, and the ticket is then the runner's. */
  lemma RunsExactly(w: World, i: nat)
    requires i < |w.tasks|
    ensures var w', task := Step(w, RunTask(i)), w.tasks[i];
      && w'.tasks == w.tasks[..i] + w.tasks[i + 1..] && w'.held == w.held[task.ticket := ByRunner] && w'.gate == w.gate
      && (task.work.Business? ==> w'.ran == w.ran + [task.work.n] && w'.callbacks == w.callbacks)
      && (task.work.Completion? && task.work.c in w.callbacks ==>
            w'.callbacks == w.callbacks[task.work.c :=
              w.callbacks[task.work.c].(runs := w.callbacks[task.work.c].runs + [task.work.args])])
  {
  }

  /** A callback nobody uses can go, and takes its registration along; the same holds for a local closure. */
  lemma GoesExactly(w: World, c: nat, n: nat)
    ensures var unused := MutexFree(w, c) && !w.callbacks[c].owed && (w.closer.Cancelling? ==> w.closer.current != Some(c));
      Step(w, Expire(c)) == if unused then w.(callbacks := w.callbacks[c := w.callbacks[c].(alive := false)]) else w
    ensures Step(w, ForgetExpired(c))
         == if c in w.callbacks && !w.callbacks[c].alive
            then w.(gate := w.gate.(cancellations := w.gate.cancellations - {w.callbacks[c].id})) else w
    ensures n in w.locals ==>
      var l := w.locals[n];
      Step(w, ForgetLocal(n))
        == w.(gate := w.gate.(cancellations := w.gate.cancellations - {l.id}),
              locals := w.locals[n := l.(forgotten := l.forgotten || l.id in w.gate.cancellations)])
    ensures n !in w.locals ==> Step(w, ForgetLocal(n)) == w
  {
  }

  // ------------------------------------------------------------------------
  // Closing.
  // ------------------------------------------------------------------------

  /** The first close takes all registrations; they are called one by one by ascending id; then the gate is finished. */
  lemma CloseExactly(w: World)
    ensures var w' := Step(w, Close);
      if w.gate.closed then w' == w
      else
        && w'.gate == w.gate.(closed := true, cancellations := map[])
        && w'.closer == Cancelling(w.gate.cancellations, None)
    ensures var w' := Step(w, FinishClose);
      if w.closer == Cancelling(map[], None) then w'.gate == w.gate.(finished := true) && w'.closer == ClosedUp else w' == w
  {
  }

  /** The next cancellation: a local closure is called, a live callback is completed as cancelled, an expired one is skipped. */
  lemma CancelExactly(w: World, id: nat)
    requires CanCancel(w, id)
    ensures var w', target := Step(w, CancelNext(id)), w.closer.todo[id];
      && w'.closer.Cancelling? && w'.closer.todo == w.closer.todo - {id}
      && (target.ToLocal? && target.n in w.locals ==>
            w'.locals == w.locals[target.n := w.locals[target.n].(calls := w.locals[target.n].calls + 1)])
      && (target.ToCallback? && target.c in w.callbacks && w.callbacks[target.c].alive ==>
            Completes(w, w', target.c, w.callbacks[target.c].cancelled))
      && (target.ToCallback? && (target.c !in w.callbacks || !w.callbacks[target.c].alive) ==>
            w'.callbacks == w.callbacks && w'.gate == w.gate)
  {
    var target := w.closer.todo[id];
    if target.ToCallback? && target.c in w.callbacks && w.callbacks[target.c].alive {
      assert w.callbacks[target.c].stage == Free;
      BeginCompletes(w, w.(closer := w.closer.(todo := w.closer.todo - {id})), target.c, w.callbacks[target.c].cancelled);
    }
    hide Begin, Completes;
  }

  /** Whatever the closer holds. */
  lemma BeginCompletes(w: World, left: World, c: nat, args: int)
    requires left == w.(closer := left.closer) && c in w.callbacks && w.callbacks[c].stage == Free
    ensures forall closer :: Completes(w, Begin(left, c, args).(closer := closer), c, args)
  {
  }
}
