/**
 The gate that counts callbacks in flight, and callbacks that complete once even
 when it closes: one atomic step for each region under a mutex and for each post
 (src/core/executor_lifetime.h).
 */
module CallbackGate {
  import opened Common

  /** What a registered cancellation reaches: a callback, held weakly, or a local closure. */
  datatype Target = ToCallback(c: nat) | ToLocal(n: nat)

  datatype Gate = Gate(
    inFlight: int,
    nextId: nat,
    closed: bool,
    finished: bool,
    cancellations: map<nat, Target>)

  // ------------------------------------------------------------------------
  // The regions under the mutex of the gate.
  // ------------------------------------------------------------------------

  const OPEN := Gate(0, 0, false, false, map[])

  function Enter(g: Gate): (Gate, bool)
  {
    if g.closed then (g, false) else (g.(inFlight := g.inFlight + 1), true)
  }

  function Release(g: Gate): Gate { g.(inFlight := g.inFlight - 1) }

  /** PostCompletion counts without asking whether the gate is closed. */
  function CountCompletion(g: Gate): Gate { g.(inFlight := g.inFlight + 1) }

  /** The id of the registration, zero when the gate is closed. */
  function Register(g: Gate, target: Target): (Gate, nat)
  {
    if g.closed then (g, 0)
    else (g.(nextId := g.nextId + 1, cancellations := g.cancellations[g.nextId + 1 := target]), g.nextId + 1)
  }

  function Forget(g: Gate, id: nat): Gate { g.(cancellations := g.cancellations - {id}) }

  /** The first Close takes all registrations; None for every later one. */
  function BeginClose(g: Gate): (Gate, Option<map<nat, Target>>)
  {
    if g.closed then (g, None) else (g.(closed := true, cancellations := map[]), Some(g.cancellations))
  }

  function EndClose(g: Gate): Gate { g.(finished := true) }

  /** The condition WaitForDrain waits for. */
  predicate Drained(g: Gate) { g.closed && g.finished && g.inFlight == 0 }

  // ------------------------------------------------------------------------
  // Threads.
  // ------------------------------------------------------------------------

  /** Whoever completes a callback holds its mutex through these stages. */
  datatype Stage = Free | Posting(ticket: nat, args: int) | Forgetting

  /**
   full: the function is still there. attempts, posts and runs record with which
   arguments Complete was called, the function was posted, and it was run.
   */
  datatype Callback = Callback(
    alive: bool,
    full: bool,
    id: nat,
    cancelled: int,
    owed: bool,
    stage: Stage,
    born: bool,
    attempts: seq<int>,
    posts: seq<int>,
    runs: seq<int>)

  datatype Local = Local(id: nat, forgotten: bool, calls: nat)

  datatype Holder = ByCaller | ByCompletion(c: nat) | ByRunner

  datatype Work = Business(n: nat) | Completion(c: nat, args: int)

  datatype Task = Task(ticket: nat, work: Work)

  datatype Closer = NotClosing | Cancelling(todo: map<nat, Target>, current: Option<nat>) | ClosedUp

  /** registry remembers every registration there ever was, posted and ran the business handed over and done. */
  datatype World = World(
    gate: Gate,
    callbacks: map<nat, Callback>,
    locals: map<nat, Local>,
    held: map<nat, Holder>,
    tasks: seq<Task>,
    nextTicket: nat,
    closer: Closer,
    registry: map<nat, Target>,
    posted: seq<nat>,
    ran: seq<nat>)

  const BEGINNING := World(OPEN, map[], map[], map[], [], 0, NotClosing, map[], [], [])

  datatype Op =
    | EnterGate
    | ReleaseTicket(ticket: nat)
    | PostBusiness(ticket: nat, n: nat)
    | RunTask(i: nat)
    | Create(c: nat, born: bool, cancelled: int)
    | CompleteOwed(c: nat)
    | Complete(c: nat, args: int)
    | PostIt(c: nat)
    | ForgetIt(c: nat)
    | Expire(c: nat)
    | ForgetExpired(c: nat)
    | CancelWhenClosed(n: nat)
    | ForgetLocal(n: nat)
    | Close
    | CancelNext(id: nat)
    | FinishClose

  /** Complete, once its mutex is taken: only the first call finds the function. */
  function Begin(w: World, c: nat, args: int): World
    requires c in w.callbacks
  {
    var cb := w.callbacks[c];
    var tried := cb.(attempts := cb.attempts + [args]);
    if !cb.full then w.(callbacks := w.callbacks[c := tried])
    else
      w.(gate := CountCompletion(w.gate),
         callbacks := w.callbacks[c := tried.(full := false, stage := Posting(w.nextTicket, args))],
         held := w.held[w.nextTicket := ByCompletion(c)],
         nextTicket := w.nextTicket + 1)
  }

  predicate MutexFree(w: World, c: nat) { c in w.callbacks && w.callbacks[c].alive && w.callbacks[c].stage == Free }

  function Registered(w: World, id: nat, target: Target): map<nat, Target>
  {
    if id == 0 then w.registry else w.registry[id := target]
  }

  function DoCreate(w: World, c: nat, born: bool, cancelled: int): World
  {
    var (gate, id) := Register(w.gate, ToCallback(c));
    w.(gate := gate, registry := Registered(w, id, ToCallback(c)),
       callbacks := w.callbacks[c := Callback(true, born, id, cancelled, id == 0, Free, born, [], [], [])])
  }

  function DoLocal(w: World, n: nat): World
  {
    var (gate, id) := Register(w.gate, ToLocal(n));
    w.(gate := gate, registry := Registered(w, id, ToLocal(n)),
       locals := w.locals[n := Local(id, false, if id == 0 then 1 else 0)])
  }

  function DoPost(w: World, c: nat): World
    requires c in w.callbacks && w.callbacks[c].stage.Posting?
  {
    var cb := w.callbacks[c];
    w.(tasks := w.tasks + [Task(cb.stage.ticket, Completion(c, cb.stage.args))],
       held := w.held - {cb.stage.ticket},
       callbacks := w.callbacks[c := cb.(stage := Forgetting, posts := cb.posts + [cb.stage.args])])
  }

  function DoForget(w: World, c: nat): World
    requires c in w.callbacks
  {
    var cb := w.callbacks[c];
    w.(gate := Forget(w.gate, cb.id), callbacks := w.callbacks[c := cb.(stage := Free)],
       closer := if w.closer.Cancelling? && w.closer.current == Some(c) then w.closer.(current := None) else w.closer)
  }

  function DoRun(w: World, i: nat): World
    requires i < |w.tasks|
  {
    var Task(ticket, work) := w.tasks[i];
    var taken := w.(tasks := w.tasks[..i] + w.tasks[i + 1..], held := w.held[ticket := ByRunner]);
    if work.Completion? && work.c in w.callbacks then
      var cb := w.callbacks[work.c];
      taken.(callbacks := w.callbacks[work.c := cb.(runs := cb.runs + [work.args])])
    else if work.Business? then taken.(ran := w.ran + [work.n])
    else taken
  }

  function DoForgetLocal(w: World, n: nat): World
    requires n in w.locals
  {
    var l := w.locals[n];
    w.(gate := Forget(w.gate, l.id),
       locals := w.locals[n := l.(forgotten := l.forgotten || l.id in w.gate.cancellations)])
  }

  /** The closer calls the cancellations it took in the order of their ids. */
  predicate CanCancel(w: World, id: nat)
  {
    && w.closer.Cancelling? && w.closer.current.None?
    && id in w.closer.todo && (forall j :: j in w.closer.todo ==> id <= j)
    && (w.closer.todo[id].ToCallback? && w.closer.todo[id].c in w.callbacks && w.callbacks[w.closer.todo[id].c].alive ==>
          w.callbacks[w.closer.todo[id].c].stage == Free)
  }

  function DoCancel(w: World, id: nat): World
    requires CanCancel(w, id)
  {
    var left := w.(closer := w.closer.(todo := w.closer.todo - {id}));
    match w.closer.todo[id]
    case ToLocal(n) =>
      if n in w.locals then left.(locals := w.locals[n := w.locals[n].(calls := w.locals[n].calls + 1)]) else left
    case ToCallback(c) =>
      if c !in w.callbacks || !w.callbacks[c].alive then left
      else
        var called := Begin(left, c, w.callbacks[c].cancelled);
        called.(closer := left.closer.(current := if w.callbacks[c].full then Some(c) else None))
  }

  function Step(w: World, op: Op): World
  {
    match op
    case EnterGate =>
      var (gate, taken) := Enter(w.gate);
      if taken then w.(gate := gate, held := w.held[w.nextTicket := ByCaller], nextTicket := w.nextTicket + 1) else w
    case ReleaseTicket(ticket) =>
      if ticket in w.held && !w.held[ticket].ByCompletion? then w.(gate := Release(w.gate), held := w.held - {ticket}) else w
    case PostBusiness(ticket, n) =>
      if ticket in w.held && w.held[ticket] == ByCaller then
        w.(held := w.held - {ticket}, tasks := w.tasks + [Task(ticket, Business(n))], posted := w.posted + [n])
      else w
    case RunTask(i) => if i < |w.tasks| then DoRun(w, i) else w
    case Create(c, born, cancelled) => if c in w.callbacks then w else DoCreate(w, c, born, cancelled)
    case CompleteOwed(c) =>
      if MutexFree(w, c) && w.callbacks[c].owed then
        Begin(w.(callbacks := w.callbacks[c := w.callbacks[c].(owed := false)]), c, w.callbacks[c].cancelled)
      else w
    case Complete(c, args) => if MutexFree(w, c) then Begin(w, c, args) else w
    case PostIt(c) => if c in w.callbacks && w.callbacks[c].stage.Posting? then DoPost(w, c) else w
    case ForgetIt(c) => if c in w.callbacks && w.callbacks[c].stage.Forgetting? then DoForget(w, c) else w
    case Expire(c) =>
      if MutexFree(w, c) && !w.callbacks[c].owed && !(w.closer.Cancelling? && w.closer.current == Some(c)) then
        w.(callbacks := w.callbacks[c := w.callbacks[c].(alive := false)])
      else w
    case ForgetExpired(c) =>
      if c in w.callbacks && !w.callbacks[c].alive then w.(gate := Forget(w.gate, w.callbacks[c].id)) else w
    case CancelWhenClosed(n) => if n in w.locals then w else DoLocal(w, n)
    case ForgetLocal(n) => if n in w.locals then DoForgetLocal(w, n) else w
    case Close =>
      var (gate, taken) := BeginClose(w.gate);
      if taken.Some? then w.(gate := gate, closer := Cancelling(taken.value, None)) else w
    case CancelNext(id) => if CanCancel(w, id) then DoCancel(w, id) else w
    case FinishClose =>
      if w.closer.Cancelling? && w.closer.current.None? && w.closer.todo == map[] then
        w.(gate := EndClose(w.gate), closer := ClosedUp)
      else w
  }

  function Run(ops: seq<Op>): World
  {
    if ops == [] then BEGINNING else Step(Run(ops[..|ops| - 1]), ops[|ops| - 1])
  }

  // ------------------------------------------------------------------------
  // The invariant.
  // ------------------------------------------------------------------------

  type Callbacks = map<nat, Callback>
  type Locals = map<nat, Local>

  /** The count is the number of live tickets: those held and those inside posted tasks. */
  ghost predicate TicketsOk(inFlight: int, held: map<nat, Holder>, tasks: seq<Task>, nextTicket: nat)
  {
    && inFlight == |held| + |tasks|
    && (forall t :: t in held ==> t < nextTicket)
    && (forall i :: 0 <= i < |tasks| ==> tasks[i].ticket < nextTicket && tasks[i].ticket !in held)
    && (forall i, j :: 0 <= i < j < |tasks| ==> tasks[i].ticket != tasks[j].ticket)
  }

  /** The function is gone after the first attempt, whose arguments are the ones posted. */
  predicate CallbackOk(cb: Callback)
  {
    && cb.full == (cb.born && cb.attempts == [])
    && cb.posts == (if cb.born && cb.attempts != [] && !cb.stage.Posting? then [cb.attempts[0]] else [])
    && (cb.runs == [] || cb.runs == cb.posts)
    && (cb.stage != Free ==> cb.alive && cb.born && cb.attempts != [])
    && (cb.stage.Posting? ==> cb.stage.args == cb.attempts[0])
  }

  ghost predicate CallbacksOk(callbacks: Callbacks) { forall c :: c in callbacks ==> CallbackOk(callbacks[c]) }

  predicate TaskFor(task: Task, c: nat) { task.work.Completion? && task.work.c == c }

  ghost predicate Queued(tasks: seq<Task>, c: nat) { exists i :: 0 <= i < |tasks| && TaskFor(tasks[i], c) }

  /** What is posted and not yet run is queued exactly once. */
  ghost predicate QueueOk(callbacks: Callbacks, tasks: seq<Task>)
  {
    && (forall i :: 0 <= i < |tasks| && tasks[i].work.Completion? ==>
          && tasks[i].work.c in callbacks && callbacks[tasks[i].work.c].posts == [tasks[i].work.args]
          && callbacks[tasks[i].work.c].runs == [])
    && (forall i, j :: 0 <= i < j < |tasks| && tasks[i].work.Completion? && tasks[j].work.Completion? ==>
          tasks[i].work.c != tasks[j].work.c)
    && (forall c :: c in callbacks && callbacks[c].posts != [] && callbacks[c].runs == [] ==> Queued(tasks, c))
  }

  /** A callback that is being posted holds its own ticket. */
  ghost predicate StagesOk(callbacks: Callbacks, held: map<nat, Holder>, closer: Closer)
  {
    && (forall c :: c in callbacks && callbacks[c].stage.Posting? ==>
          callbacks[c].stage.ticket in held && held[callbacks[c].stage.ticket] == ByCompletion(c))
    && (closer.Cancelling? && closer.current.Some? ==>
          closer.current.value in callbacks && callbacks[closer.current.value].stage != Free)
  }

  /** The cancellations that can still be called: registered ones, or those the closer took. */
  function Outstanding(w: World): map<nat, Target>
  {
    if w.closer.Cancelling? then w.closer.todo else w.gate.cancellations
  }

  predicate Carries(target: Target, id: nat, callbacks: Callbacks, locals: Locals)
  {
    match target
    case ToCallback(c) => c in callbacks && callbacks[c].id == id
    case ToLocal(n) => n in locals && locals[n].id == id
  }

  /** Every id was given out once, to the callback or closure that carries it. */
  ghost predicate OwnersOk(registry: map<nat, Target>, nextId: nat, outstanding: map<nat, Target>,
                           callbacks: Callbacks, locals: Locals)
  {
    && (forall id :: id in registry ==> 0 < id <= nextId && Carries(registry[id], id, callbacks, locals))
    && (forall id :: id in outstanding ==> id in registry && registry[id] == outstanding[id])
    && (forall c :: c in callbacks && callbacks[c].id != 0 ==>
          callbacks[c].id in registry && registry[callbacks[c].id] == ToCallback(c))
    && (forall n :: n in locals && locals[n].id != 0 ==>
          locals[n].id in registry && registry[locals[n].id] == ToLocal(n))
  }

  /** No live callback that registered in time is out of reach. */
  ghost predicate ReachOk(callbacks: Callbacks, outstanding: map<nat, Target>)
  {
    forall c :: c in callbacks && callbacks[c].id != 0 && callbacks[c].alive && callbacks[c].full ==>
      callbacks[c].id in outstanding
  }

  /** A local closure is called at most once, and is still to be called unless it was forgotten in time. */
  predicate LocalOk(l: Local, outstanding: map<nat, Target>)
  {
    if l.id == 0 then l.calls == 1
    else l.calls == if l.id in outstanding || l.forgotten then 0 else 1
  }

  ghost predicate LocalsOk(locals: Locals, outstanding: map<nat, Target>)
  {
    forall n :: n in locals ==> LocalOk(locals[n], outstanding) && (locals[n].forgotten ==> locals[n].id !in outstanding)
  }

  predicate CloserOk(gate: Gate, closer: Closer)
  {
    && gate.closed == !closer.NotClosing?
    && gate.finished == closer.ClosedUp?
    && (gate.closed ==> gate.cancellations == map[])
  }

  ghost predicate WorldOk(w: World)
  {
    && TicketsOk(w.gate.inFlight, w.held, w.tasks, w.nextTicket)
    && CallbacksOk(w.callbacks)
    && QueueOk(w.callbacks, w.tasks)
    && StagesOk(w.callbacks, w.held, w.closer)
    && OwnersOk(w.registry, w.gate.nextId, Outstanding(w), w.callbacks, w.locals)
    && ReachOk(w.callbacks, Outstanding(w))
    && LocalsOk(w.locals, Outstanding(w))
    && CloserOk(w.gate, w.closer)
  }

  // ------------------------------------------------------------------------
  // Tickets.
  // ------------------------------------------------------------------------

  lemma Taken(inFlight: int, held: map<nat, Holder>, tasks: seq<Task>, nextTicket: nat, holder: Holder)
    requires TicketsOk(inFlight, held, tasks, nextTicket)
    ensures TicketsOk(inFlight + 1, held[nextTicket := holder], tasks, nextTicket + 1)
  {
    assert held[nextTicket := holder].Keys == held.Keys + {nextTicket};
  }

  lemma GivenBack(inFlight: int, held: map<nat, Holder>, tasks: seq<Task>, nextTicket: nat, ticket: nat)
    requires TicketsOk(inFlight, held, tasks, nextTicket) && ticket in held
    ensures TicketsOk(inFlight - 1, held - {ticket}, tasks, nextTicket)
  {
    assert (held - {ticket}).Keys == held.Keys - {ticket};
  }

  lemma Handed(inFlight: int, held: map<nat, Holder>, tasks: seq<Task>, nextTicket: nat, ticket: nat, work: Work)
    requires TicketsOk(inFlight, held, tasks, nextTicket) && ticket in held
    ensures TicketsOk(inFlight, held - {ticket}, tasks + [Task(ticket, work)], nextTicket)
  {
    assert (held - {ticket}).Keys == held.Keys - {ticket};
  }

  lemma PickedUp(inFlight: int, held: map<nat, Holder>, tasks: seq<Task>, nextTicket: nat, i: nat)
    requires TicketsOk(inFlight, held, tasks, nextTicket) && i < |tasks|
    ensures TicketsOk(inFlight, held[tasks[i].ticket := ByRunner], tasks[..i] + tasks[i + 1..], nextTicket)
  {
    assert held[tasks[i].ticket := ByRunner].Keys == held.Keys + {tasks[i].ticket};
  }

  // ------------------------------------------------------------------------
  // Changing one callback.
  // ------------------------------------------------------------------------

  lemma QueueAside(callbacks: Callbacks, tasks: seq<Task>, c: nat, cb: Callback)
    requires QueueOk(callbacks, tasks) && c in callbacks
    requires cb.posts == callbacks[c].posts && cb.runs == callbacks[c].runs
    ensures QueueOk(callbacks[c := cb], tasks)
  {
  }

  /** A callback keeps its id, and does not come back to life or get its function back. */
  lemma ReachAside(w: World, c: nat, cb: Callback)
    requires OwnersOk(w.registry, w.gate.nextId, Outstanding(w), w.callbacks, w.locals)
    requires ReachOk(w.callbacks, Outstanding(w)) && c in w.callbacks
    requires cb.id == w.callbacks[c].id && (cb.alive && cb.full ==> w.callbacks[c].alive && w.callbacks[c].full)
    ensures OwnersOk(w.registry, w.gate.nextId, Outstanding(w), w.callbacks[c := cb], w.locals)
    ensures ReachOk(w.callbacks[c := cb], Outstanding(w))
  {
  }

  lemma StagesAside(callbacks: Callbacks, held: map<nat, Holder>, closer: Closer, c: nat, cb: Callback)
    requires StagesOk(callbacks, held, closer) && c in callbacks && cb.stage == callbacks[c].stage
    ensures StagesOk(callbacks[c := cb], held, closer)
  {
  }

  /** Changes that are nobody else's business. */
  lemma CallbackAside(w: World, c: nat, cb: Callback)
    requires WorldOk(w) && c in w.callbacks && CallbackOk(cb)
    requires cb.posts == w.callbacks[c].posts && cb.runs == w.callbacks[c].runs && cb.stage == w.callbacks[c].stage
    requires cb.id == w.callbacks[c].id && (cb.alive && cb.full ==> w.callbacks[c].alive && w.callbacks[c].full)
    ensures WorldOk(w.(callbacks := w.callbacks[c := cb]))
  {
    QueueAside(w.callbacks, w.tasks, c, cb);
    ReachAside(w, c, cb);
    StagesAside(w.callbacks, w.held, w.closer, c, cb);
    assert CallbacksOk(w.callbacks[c := cb]);
    hide *;
    assert Outstanding(w.(callbacks := w.callbacks[c := cb])) == Outstanding(w);
  }

  // ------------------------------------------------------------------------
  // The operations keep the invariant.
  // ------------------------------------------------------------------------

  lemma StagesTaken(callbacks: Callbacks, held: map<nat, Holder>, closer: Closer, c: nat, cb: Callback, ticket: nat)
    requires StagesOk(callbacks, held, closer) && c in callbacks && ticket !in held
    requires cb.stage.Posting? && cb.stage.ticket == ticket
    ensures StagesOk(callbacks[c := cb], held[ticket := ByCompletion(c)], closer)
  {
  }

  lemma BeginFacts(w: World, c: nat, args: int)
    requires WorldOk(w) && MutexFree(w, c)
    ensures w.nextTicket !in w.held
    ensures CallbackOk(w.callbacks[c]) && CallbackOk(Begin(w, c, args).callbacks[c])
    ensures CallbacksOk(w.callbacks[c := Begin(w, c, args).callbacks[c]])
  {
    hide QueueOk, StagesOk, OwnersOk, ReachOk, LocalsOk, CloserOk, Outstanding;
  }

  lemma BeginKeeps(w: World, c: nat, args: int)
    requires WorldOk(w) && MutexFree(w, c)
    ensures WorldOk(Begin(w, c, args))
  {
    BeginFacts(w, c, args);
    if w.callbacks[c].full {
      FirstBeginKeeps(w, c, args);
    } else {
      hide TicketsOk, CallbacksOk, QueueOk, StagesOk, OwnersOk, ReachOk, LocalsOk, CloserOk, Outstanding;
      CallbackAside(w, c, Begin(w, c, args).callbacks[c]);
    }
  }

  /** The first completer takes a ticket and goes on to post. */
  lemma FirstBeginKeeps(w: World, c: nat, args: int)
    requires WorldOk(w) && MutexFree(w, c) && w.callbacks[c].full
    ensures WorldOk(Begin(w, c, args))
  {
    BeginFacts(w, c, args);
    hide TicketsOk, CallbacksOk, QueueOk, StagesOk, OwnersOk, ReachOk, LocalsOk, CloserOk, Outstanding;
    var cb := Begin(w, c, args).callbacks[c];
    Taken(w.gate.inFlight, w.held, w.tasks, w.nextTicket, ByCompletion(c));
    QueueAside(w.callbacks, w.tasks, c, cb);
    ReachAside(w, c, cb);
    StagesTaken(w.callbacks, w.held, w.closer, c, cb, w.nextTicket);
    CountedIsOpen(w, c, args);
    hide CallbackOk;
  }

  lemma CountedIsOpen(w: World, c: nat, args: int)
    requires MutexFree(w, c) && w.callbacks[c].full
    ensures var w' := Begin(w, c, args);
      Outstanding(w') == Outstanding(w) && CloserOk(w'.gate, w'.closer) == CloserOk(w.gate, w.closer)
  {
  }

  lemma QueuePost(callbacks: Callbacks, tasks: seq<Task>, c: nat, cb: Callback, ticket: nat, args: int)
    requires QueueOk(callbacks, tasks) && c in callbacks && callbacks[c].posts == []
    requires cb.posts == [args] && cb.runs == []
    ensures QueueOk(callbacks[c := cb], tasks + [Task(ticket, Completion(c, args))])
  {
    var more := tasks + [Task(ticket, Completion(c, args))];
    assert TaskFor(more[|tasks|], c);
    forall d | d in callbacks && d != c && callbacks[d].posts != [] && callbacks[d].runs == [] ensures Queued(more, d) {
      var i :| 0 <= i < |tasks| && TaskFor(tasks[i], d);
      assert TaskFor(more[i], d);
    }
  }

  lemma StagesPosted(callbacks: Callbacks, held: map<nat, Holder>, closer: Closer, c: nat, cb: Callback)
    requires StagesOk(callbacks, held, closer) && c in callbacks && callbacks[c].stage.Posting?
    requires cb.stage == Forgetting
    ensures StagesOk(callbacks[c := cb], held - {callbacks[c].stage.ticket}, closer)
  {
  }

  lemma PostKeeps(w: World, c: nat)
    requires WorldOk(w) && c in w.callbacks && w.callbacks[c].stage.Posting?
    ensures WorldOk(DoPost(w, c))
  {
    var cb, cb' := w.callbacks[c], DoPost(w, c).callbacks[c];
    assert CallbackOk(cb) && cb.stage.ticket in w.held;
    hide TicketsOk, QueueOk, StagesOk, OwnersOk, ReachOk, LocalsOk, CloserOk;
    Handed(w.gate.inFlight, w.held, w.tasks, w.nextTicket, cb.stage.ticket, Completion(c, cb.stage.args));
    QueuePost(w.callbacks, w.tasks, c, cb', cb.stage.ticket, cb.stage.args);
    StagesPosted(w.callbacks, w.held, w.closer, c, cb');
    ReachAside(w, c, cb');
  }

  /** An id may go once its owner does not need it any more. */
  predicate Dispensable(callbacks: Callbacks, locals: Locals, target: Target)
  {
    match target
    case ToCallback(c) => c in callbacks ==> !callbacks[c].alive || !callbacks[c].full
    case ToLocal(n) => false
  }

  lemma Removed(registry: map<nat, Target>, nextId: nat, outstanding: map<nat, Target>, callbacks: Callbacks,
                locals: Locals, id: nat)
    requires OwnersOk(registry, nextId, outstanding, callbacks, locals)
    requires ReachOk(callbacks, outstanding) && LocalsOk(locals, outstanding)
    requires id in registry ==> Dispensable(callbacks, locals, registry[id])
    ensures OwnersOk(registry, nextId, outstanding - {id}, callbacks, locals)
    ensures ReachOk(callbacks, outstanding - {id}) && LocalsOk(locals, outstanding - {id})
  {
  }

  /** Forgetting at the gate, by a callback that is done or dead. */
  lemma ForgetGateKeeps(w: World, c: nat)
    requires WorldOk(w) && c in w.callbacks && (!w.callbacks[c].alive || !w.callbacks[c].full)
    ensures WorldOk(w.(gate := Forget(w.gate, w.callbacks[c].id)))
  {
    var id, w' := w.callbacks[c].id, w.(gate := Forget(w.gate, w.callbacks[c].id));
    assert id in w.registry ==> w.registry[id] == ToCallback(c);
    hide TicketsOk, QueueOk, StagesOk, OwnersOk, ReachOk, LocalsOk, CallbacksOk;
    Removed(w.registry, w.gate.nextId, Outstanding(w), w.callbacks, w.locals, id);
    if w.closer.Cancelling? {
      assert w'.gate.cancellations == map[];
    }
    assert w.gate.closed ==> w'.gate.cancellations == map[];
  }

  lemma ForgetKeeps(w: World, c: nat)
    requires WorldOk(w) && c in w.callbacks && w.callbacks[c].stage.Forgetting?
    ensures WorldOk(DoForget(w, c))
  {
    assert CallbackOk(w.callbacks[c]);
    ForgetGateKeeps(w, c);
    var forgot := w.(gate := Forget(w.gate, w.callbacks[c].id));
    var w' := DoForget(w, c);
    FreedKeeps(forgot, c);
  }

  lemma FreedKeeps(w: World, c: nat)
    requires WorldOk(w) && c in w.callbacks && w.callbacks[c].stage.Forgetting?
    ensures WorldOk(w.(callbacks := w.callbacks[c := w.callbacks[c].(stage := Free)],
                       closer := if w.closer.Cancelling? && w.closer.current == Some(c)
                                 then w.closer.(current := None) else w.closer))
  {
    var cb := w.callbacks[c].(stage := Free);
    assert CallbackOk(w.callbacks[c]);
    QueueAside(w.callbacks, w.tasks, c, cb);
    ReachAside(w, c, cb);
    hide TicketsOk, QueueOk, OwnersOk, ReachOk, LocalsOk;
  }

  lemma QueueRun(callbacks: Callbacks, tasks: seq<Task>, i: nat)
    requires QueueOk(callbacks, tasks) && i < |tasks|
    ensures var rest, work := tasks[..i] + tasks[i + 1..], tasks[i].work;
      QueueOk(if work.Completion? then callbacks[work.c := callbacks[work.c].(runs := [work.args])] else callbacks, rest)
  {
    var rest, work := tasks[..i] + tasks[i + 1..], tasks[i].work;
    forall d | d in callbacks && callbacks[d].posts != [] && callbacks[d].runs == [] && !TaskFor(tasks[i], d)
      ensures Queued(rest, d)
    {
      var k :| 0 <= k < |tasks| && TaskFor(tasks[k], d);
      assert TaskFor(rest[if k < i then k else k - 1], d);
    }
  }

  lemma StagesRun(callbacks: Callbacks, held: map<nat, Holder>, closer: Closer, ticket: nat, holder: Holder)
    requires StagesOk(callbacks, held, closer) && ticket !in held
    ensures StagesOk(callbacks, held[ticket := holder], closer)
  {
  }

  lemma RunFacts(w: World, i: nat)
    requires WorldOk(w) && i < |w.tasks|
    ensures w.tasks[i].ticket !in w.held
    ensures var work := w.tasks[i].work;
      work.Completion? ==>
        && work.c in w.callbacks && w.callbacks[work.c].posts == [work.args] && w.callbacks[work.c].runs == []
        && CallbackOk(w.callbacks[work.c])
  {
  }

  lemma RunTaskKeeps(w: World, i: nat)
    requires WorldOk(w) && i < |w.tasks|
    ensures WorldOk(DoRun(w, i))
  {
    RunFacts(w, i);
    hide TicketsOk, QueueOk, StagesOk, OwnersOk, ReachOk, LocalsOk, CloserOk;
    var ticket, work := w.tasks[i].ticket, w.tasks[i].work;
    QueueRun(w.callbacks, w.tasks, i);
    PickedUp(w.gate.inFlight, w.held, w.tasks, w.nextTicket, i);
    StagesRun(w.callbacks, w.held, w.closer, ticket, ByRunner);
    if work.Completion? {
      var c := work.c;
      var cb := w.callbacks[c].(runs := [work.args]);
      assert w.callbacks[c].runs + [work.args] == [work.args];
      ReachAside(w, c, cb);
      StagesAside(w.callbacks, w.held[ticket := ByRunner], w.closer, c, cb);
      assert CallbacksOk(w.callbacks[c := cb]);
      assert DoRun(w, i).callbacks == w.callbacks[c := cb];
      hide CallbacksOk, CallbackOk;
    }
  }

  lemma CreatedOwned(registry: map<nat, Target>, nextId: nat, outstanding: map<nat, Target>, callbacks: Callbacks,
                     locals: Locals, c: nat, cb: Callback)
    requires OwnersOk(registry, nextId, outstanding, callbacks, locals) && c !in callbacks
    requires cb.id == 0 || cb.id == nextId + 1
    ensures cb.id == 0 ==> OwnersOk(registry, nextId, outstanding, callbacks[c := cb], locals)
    ensures cb.id != 0 ==>
      OwnersOk(registry[cb.id := ToCallback(c)], cb.id, outstanding[cb.id := ToCallback(c)], callbacks[c := cb], locals)
  {
  }

  /** A new registration, or a callback that comes too late to register. */
  lemma CreatedInReach(registry: map<nat, Target>, nextId: nat, outstanding: map<nat, Target>, callbacks: Callbacks,
                       locals: Locals, c: nat, cb: Callback)
    requires OwnersOk(registry, nextId, outstanding, callbacks, locals) && c !in callbacks
    requires ReachOk(callbacks, outstanding) && LocalsOk(locals, outstanding)
    requires cb.id == 0 || cb.id == nextId + 1
    ensures cb.id == 0 ==> ReachOk(callbacks[c := cb], outstanding)
    ensures cb.id != 0 ==> ReachOk(callbacks[c := cb], outstanding[cb.id := ToCallback(c)])
                           && LocalsOk(locals, outstanding[cb.id := ToCallback(c)])
  {
  }

  lemma StagesNew(callbacks: Callbacks, held: map<nat, Holder>, closer: Closer, c: nat, cb: Callback)
    requires StagesOk(callbacks, held, closer) && c !in callbacks && cb.stage == Free
    ensures StagesOk(callbacks[c := cb], held, closer)
  {
  }

  lemma QueueNew(callbacks: Callbacks, tasks: seq<Task>, c: nat, cb: Callback)
    requires QueueOk(callbacks, tasks) && c !in callbacks && cb.posts == []
    ensures QueueOk(callbacks[c := cb], tasks)
  {
  }

  lemma CreateKeeps(w: World, c: nat, born: bool, cancelled: int)
    requires WorldOk(w) && c !in w.callbacks
    ensures WorldOk(DoCreate(w, c, born, cancelled))
  {
    hide TicketsOk, QueueOk, StagesOk, OwnersOk, ReachOk, LocalsOk;
    var cb := DoCreate(w, c, born, cancelled).callbacks[c];
    QueueNew(w.callbacks, w.tasks, c, cb);
    StagesNew(w.callbacks, w.held, w.closer, c, cb);
    CreatedOwned(w.registry, w.gate.nextId, Outstanding(w), w.callbacks, w.locals, c, cb);
    CreatedInReach(w.registry, w.gate.nextId, Outstanding(w), w.callbacks, w.locals, c, cb);
  }

  lemma LocalOwned(registry: map<nat, Target>, nextId: nat, outstanding: map<nat, Target>, callbacks: Callbacks,
                   locals: Locals, n: nat, l: Local)
    requires OwnersOk(registry, nextId, outstanding, callbacks, locals) && n !in locals
    requires l.id == 0 || l.id == nextId + 1
    ensures l.id == 0 ==> OwnersOk(registry, nextId, outstanding, callbacks, locals[n := l])
    ensures l.id != 0 ==>
      OwnersOk(registry[l.id := ToLocal(n)], l.id, outstanding[l.id := ToLocal(n)], callbacks, locals[n := l])
  {
  }

  lemma LocalInReach(registry: map<nat, Target>, nextId: nat, outstanding: map<nat, Target>, callbacks: Callbacks,
                     locals: Locals, n: nat, l: Local)
    requires OwnersOk(registry, nextId, outstanding, callbacks, locals) && n !in locals
    requires ReachOk(callbacks, outstanding) && LocalsOk(locals, outstanding)
    requires l == Local(0, false, 1) || l == Local(nextId + 1, false, 0)
    ensures l.id == 0 ==> LocalsOk(locals[n := l], outstanding)
    ensures l.id != 0 ==> ReachOk(callbacks, outstanding[l.id := ToLocal(n)])
                          && LocalsOk(locals[n := l], outstanding[l.id := ToLocal(n)])
  {
  }

  lemma LocalKeeps(w: World, n: nat)
    requires WorldOk(w) && n !in w.locals
    ensures WorldOk(DoLocal(w, n))
  {
    hide TicketsOk, QueueOk, StagesOk, CallbacksOk, OwnersOk, ReachOk, LocalsOk;
    LocalOwned(w.registry, w.gate.nextId, Outstanding(w), w.callbacks, w.locals, n, DoLocal(w, n).locals[n]);
    LocalInReach(w.registry, w.gate.nextId, Outstanding(w), w.callbacks, w.locals, n, DoLocal(w, n).locals[n]);
  }

  lemma ForgottenInTime(registry: map<nat, Target>, nextId: nat, outstanding: map<nat, Target>, callbacks: Callbacks,
                        locals: Locals, n: nat)
    requires OwnersOk(registry, nextId, outstanding, callbacks, locals) && n in locals && locals[n].id in outstanding
    requires ReachOk(callbacks, outstanding) && LocalsOk(locals, outstanding)
    ensures var rest, after := outstanding - {locals[n].id}, locals[n := locals[n].(forgotten := true)];
      OwnersOk(registry, nextId, rest, callbacks, after) && ReachOk(callbacks, rest) && LocalsOk(after, rest)
  {
  }

  lemma ForgetLocalKeeps(w: World, n: nat)
    requires WorldOk(w) && n in w.locals
    ensures WorldOk(DoForgetLocal(w, n))
  {
    hide TicketsOk, QueueOk, StagesOk, CallbacksOk, OwnersOk, ReachOk, LocalsOk;
    var w' := DoForgetLocal(w, n);
    if w.locals[n].id in w.gate.cancellations {
      ForgottenInTime(w.registry, w.gate.nextId, Outstanding(w), w.callbacks, w.locals, n);
    } else {
      assert w'.gate.cancellations == w.gate.cancellations;
      assert w'.locals == w.locals;
    }
  }

  lemma CalledInReach(registry: map<nat, Target>, nextId: nat, outstanding: map<nat, Target>, callbacks: Callbacks,
                      locals: Locals, id: nat, n: nat)
    requires OwnersOk(registry, nextId, outstanding, callbacks, locals)
    requires ReachOk(callbacks, outstanding) && LocalsOk(locals, outstanding)
    requires id in outstanding && outstanding[id] == ToLocal(n)
    ensures n in locals
    ensures var rest, after := outstanding - {id}, locals[n := locals[n].(calls := locals[n].calls + 1)];
      OwnersOk(registry, nextId, rest, callbacks, after) && ReachOk(callbacks, rest) && LocalsOk(after, rest)
  {
    assert Carries(registry[id], id, callbacks, locals);
  }

  lemma CancelLocalKeeps(w: World, id: nat)
    requires WorldOk(w) && CanCancel(w, id) && w.closer.todo[id].ToLocal?
    ensures WorldOk(DoCancel(w, id))
  {
    hide TicketsOk, QueueOk, StagesOk, CallbacksOk, OwnersOk, ReachOk, LocalsOk;
    CalledInReach(w.registry, w.gate.nextId, Outstanding(w), w.callbacks, w.locals, id, w.closer.todo[id].n);
    StagesCloser(w, w.closer.todo - {id}, None);
  }

  lemma StagesCloser(w: World, todo: map<nat, Target>, current: Option<nat>)
    requires StagesOk(w.callbacks, w.held, w.closer) && w.closer.Cancelling?
    requires current.Some? ==> current.value in w.callbacks && w.callbacks[current.value].stage != Free
    ensures StagesOk(w.callbacks, w.held, Cancelling(todo, current))
  {
  }

  /** The closer lets go of a cancellation whose callback is gone or already has its completion. */
  lemma SettledKeeps(w: World, id: nat, current: Option<nat>)
    requires WorldOk(w) && w.closer.Cancelling? && id in w.closer.todo && w.closer.todo[id].ToCallback?
    requires Dispensable(w.callbacks, w.locals, w.closer.todo[id])
    requires current.Some? ==> current.value in w.callbacks && w.callbacks[current.value].stage != Free
    ensures WorldOk(w.(closer := Cancelling(w.closer.todo - {id}, current)))
  {
    assert w.registry[id] == w.closer.todo[id];
    hide TicketsOk, QueueOk, StagesOk, CallbacksOk, OwnersOk, ReachOk, LocalsOk;
    Removed(w.registry, w.gate.nextId, Outstanding(w), w.callbacks, w.locals, id);
    StagesCloser(w, w.closer.todo - {id}, current);
  }

  lemma CancelCallbackKeeps(w: World, id: nat)
    requires WorldOk(w) && CanCancel(w, id) && w.closer.todo[id].ToCallback?
    ensures WorldOk(DoCancel(w, id))
  {
    hide WorldOk;
    var c := w.closer.todo[id].c;
    if c !in w.callbacks || !w.callbacks[c].alive {
      SettledKeeps(w, id, None);
      assert DoCancel(w, id) == w.(closer := Cancelling(w.closer.todo - {id}, None));
    } else {
      BeginKeeps(w, c, w.callbacks[c].cancelled);
      SettledKeeps(Begin(w, c, w.callbacks[c].cancelled), id, if w.callbacks[c].full then Some(c) else None);
    }
  }

  lemma CancelKeeps(w: World, id: nat)
    requires WorldOk(w) && CanCancel(w, id)
    ensures WorldOk(DoCancel(w, id))
  {
    hide WorldOk, DoCancel;
    match w.closer.todo[id]
    case ToLocal(n) => CancelLocalKeeps(w, id);
    case ToCallback(c) => CancelCallbackKeeps(w, id);
  }

  lemma CloseKeeps(w: World)
    requires WorldOk(w)
    ensures WorldOk(Step(w, Close)) && WorldOk(Step(w, FinishClose))
  {
    hide TicketsOk, QueueOk, CallbacksOk, OwnersOk, ReachOk, LocalsOk;
  }

  lemma TicketStepKeeps(w: World, op: Op)
    requires WorldOk(w) && (op.EnterGate? || op.ReleaseTicket? || op.PostBusiness?)
    ensures WorldOk(Step(w, op))
  {
    hide CallbacksOk, CallbackOk, OwnersOk, ReachOk, LocalsOk;
    match op
    case EnterGate => EnterKeeps(w); hide *;
    case ReleaseTicket(ticket) => GiveBackKeeps(w, ticket); hide *;
    case PostBusiness(ticket, n) =>
      if ticket in w.held {
        Handed(w.gate.inFlight, w.held, w.tasks, w.nextTicket, ticket, Business(n));
        QueueBusiness(w.callbacks, w.tasks, Task(ticket, Business(n)));
      }
      hide TicketsOk, QueueOk;
  }

  lemma GiveBackKeeps(w: World, ticket: nat)
    requires WorldOk(w)
    ensures WorldOk(Step(w, ReleaseTicket(ticket)))
  {
    hide CallbacksOk, CallbackOk, OwnersOk, ReachOk, LocalsOk;
    if ticket in w.held {
      GivenBack(w.gate.inFlight, w.held, w.tasks, w.nextTicket, ticket);
    }
    hide TicketsOk, QueueOk;
  }

  lemma EnterKeeps(w: World)
    requires WorldOk(w)
    ensures WorldOk(Step(w, EnterGate))
  {
    assert w.nextTicket !in w.held;
    Taken(w.gate.inFlight, w.held, w.tasks, w.nextTicket, ByCaller);
    StagesRun(w.callbacks, w.held, w.closer, w.nextTicket, ByCaller);
    hide TicketsOk, QueueOk, StagesOk, CallbacksOk, OwnersOk, ReachOk, LocalsOk;
  }

  lemma QueueBusiness(callbacks: Callbacks, tasks: seq<Task>, task: Task)
    requires QueueOk(callbacks, tasks) && task.work.Business?
    ensures QueueOk(callbacks, tasks + [task])
  {
    forall c | Queued(tasks, c) ensures Queued(tasks + [task], c) {
      var i :| 0 <= i < |tasks| && TaskFor(tasks[i], c);
      assert TaskFor((tasks + [task])[i], c);
    }
  }

  lemma Known(w: World, c: nat)
    requires WorldOk(w) && c in w.callbacks
    ensures CallbackOk(w.callbacks[c])
  {
  }

  lemma CompleteKeeps(w: World, op: Op)
    requires WorldOk(w) && (op.CompleteOwed? || op.Complete? || op.Expire?)
    ensures WorldOk(Step(w, op))
  {
    hide WorldOk, Begin;
    var c := op.c;
    if MutexFree(w, c) {
      Known(w, c);
      match op
      case CompleteOwed(_) =>
        CallbackAside(w, c, w.callbacks[c].(owed := false));
        BeginKeeps(w.(callbacks := w.callbacks[c := w.callbacks[c].(owed := false)]), c, w.callbacks[c].cancelled);
      case Complete(_, args) => BeginKeeps(w, c, args);
      case Expire(_) => CallbackAside(w, c, w.callbacks[c].(alive := false));
    }
  }

  lemma StepKeeps(w: World, op: Op)
    requires WorldOk(w)
    ensures WorldOk(Step(w, op))
  {
    hide WorldOk, DoRun, DoCreate, DoPost, DoForget, DoLocal, DoForgetLocal, DoCancel, Begin, CanCancel;
    if op.EnterGate? || op.ReleaseTicket? || op.PostBusiness? {
      TicketStepKeeps(w, op);
    } else if op.CompleteOwed? || op.Complete? || op.Expire? {
      CompleteKeeps(w, op);
    } else {
      match op
      case RunTask(i) =>
        if i < |w.tasks| {
          RunTaskKeeps(w, i);
        }
      case Create(c, born, cancelled) =>
        if c !in w.callbacks {
          CreateKeeps(w, c, born, cancelled);
        }
      case PostIt(c) =>
        if c in w.callbacks && w.callbacks[c].stage.Posting? {
          PostKeeps(w, c);
        }
      case ForgetIt(c) =>
        if c in w.callbacks && w.callbacks[c].stage.Forgetting? {
          ForgetKeeps(w, c);
        }
      case ForgetExpired(c) =>
        if c in w.callbacks && !w.callbacks[c].alive {
          ForgetGateKeeps(w, c);
        }
      case CancelWhenClosed(n) =>
        if n !in w.locals {
          LocalKeeps(w, n);
        }
      case ForgetLocal(n) =>
        if n in w.locals {
          ForgetLocalKeeps(w, n);
        }
      case CancelNext(id) =>
        if CanCancel(w, id) {
          CancelKeeps(w, id);
        }
      case Close => CloseKeeps(w);
      case FinishClose => CloseKeeps(w);
    }
  }

  lemma {:induction false} RunKeeps(ops: seq<Op>)
    ensures WorldOk(Run(ops))
  {
    hide Step;
    if ops != [] {
      RunKeeps(ops[..|ops| - 1]);
      hide WorldOk;
      StepKeeps(Run(ops[..|ops| - 1]), ops[|ops| - 1]);
    }
  }

  // ------------------------------------------------------------------------
  // Theorems.
  // ------------------------------------------------------------------------

  function RunFrom(w: World, ops: seq<Op>): World
  {
    if ops == [] then w else Step(RunFrom(w, ops[..|ops| - 1]), ops[|ops| - 1])
  }

  lemma {:induction false} RunFromKeeps(w: World, ops: seq<Op>)
    requires WorldOk(w)
    ensures WorldOk(RunFrom(w, ops))
  {
    hide WorldOk, Step;
    if ops != [] {
      RunFromKeeps(w, ops[..|ops| - 1]);
      StepKeeps(RunFrom(w, ops[..|ops| - 1]), ops[|ops| - 1]);
    }
  }

  /** The count of the gate is the number of tickets alive. */
  lemma CountsLiveTickets(ops: seq<Op>)
    ensures var w := Run(ops); w.gate.inFlight == |w.held| + |w.tasks|
  {
    hide Run;
    RunKeeps(ops);
  }

  /** What a callback remembers of its first completer. */
  predicate Decided(w: World, c: nat, args: int)
  {
    c in w.callbacks && w.callbacks[c].attempts != [] && w.callbacks[c].attempts[0] == args
  }

  lemma BeginDecided(w: World, d: nat, passed: int, c: nat, args: int)
    requires Decided(w, c, args) && d in w.callbacks
    ensures Decided(Begin(w, d, passed), c, args)
  {
  }

  lemma CancelDecided(w: World, id: nat, c: nat, args: int)
    requires Decided(w, c, args) && CanCancel(w, id)
    ensures Decided(DoCancel(w, id), c, args)
  {
    var left := w.(closer := w.closer.(todo := w.closer.todo - {id}));
    if w.closer.todo[id].ToCallback? && w.closer.todo[id].c in w.callbacks {
      BeginDecided(left, w.closer.todo[id].c, w.callbacks[w.closer.todo[id].c].cancelled, c, args);
    }
    hide Begin, CanCancel;
  }

  lemma StepDecided(w: World, op: Op, c: nat, args: int)
    requires Decided(w, c, args)
    ensures Decided(Step(w, op), c, args)
  {
    hide Begin, DoCancel, CanCancel, Enter, Release, CountCompletion, Register, Forget, BeginClose, EndClose, Registered;
    match op
    case CompleteOwed(d) =>
      if MutexFree(w, d) {
        BeginDecided(w.(callbacks := w.callbacks[d := w.callbacks[d].(owed := false)]), d, w.callbacks[d].cancelled,
                     c, args);
      }
    case Complete(d, passed) =>
      if MutexFree(w, d) {
        BeginDecided(w, d, passed, c, args);
      }
    case CancelNext(id) =>
      if CanCancel(w, id) {
        CancelDecided(w, id, c, args);
      }
    case _ =>
  }

  /** Whoever completes first decides: whatever happens later, only those arguments are posted and run, and once. */
  lemma {:induction false} FirstCompleterWins(w: World, c: nat, args: int, ops: seq<Op>)
    requires WorldOk(w) && MutexFree(w, c) && w.callbacks[c].attempts == []
    ensures var w' := RunFrom(Step(w, Complete(c, args)), ops);
      && WorldOk(w') && Decided(w', c, args)
      && (w'.callbacks[c].posts == [] || w'.callbacks[c].posts == [args])
      && (w'.callbacks[c].runs == [] || w'.callbacks[c].runs == [args])
  {
    hide WorldOk, Step;
    var w1 := Step(w, Complete(c, args));
    if ops == [] {
      StepKeeps(w, Complete(c, args));
      FirstDecides(w, c, args);
    } else {
      FirstCompleterWins(w, c, args, ops[..|ops| - 1]);
      StepKeeps(RunFrom(w1, ops[..|ops| - 1]), ops[|ops| - 1]);
      StepDecided(RunFrom(w1, ops[..|ops| - 1]), ops[|ops| - 1], c, args);
    }
    AtMostOnce(RunFrom(w1, ops), c);
  }

  lemma FirstDecides(w: World, c: nat, args: int)
    requires MutexFree(w, c) && w.callbacks[c].attempts == []
    ensures Decided(Step(w, Complete(c, args)), c, args)
  {
  }

  /** A callback is posted and run at most once, and only what its first completer passed. */
  lemma AtMostOnce(w: World, c: nat)
    requires WorldOk(w) && c in w.callbacks
    ensures var cb := w.callbacks[c];
      && (cb.posts == [] || (cb.attempts != [] && cb.posts == [cb.attempts[0]]))
      && (cb.runs == [] || cb.runs == cb.posts)
  {
    assert CallbackOk(w.callbacks[c]);
    hide TicketsOk, CallbacksOk, QueueOk, StagesOk, OwnersOk, ReachOk, LocalsOk, CloserOk;
  }

  /** In every reachable state each callback was posted and run at most once, with what its first completer passed. */
  lemma EachPostedOnce(ops: seq<Op>, c: nat)
    requires c in Run(ops).callbacks
    ensures var cb := Run(ops).callbacks[c];
      && |cb.posts| <= 1 && |cb.runs| <= |cb.posts|
      && (cb.posts != [] ==> cb.attempts != [] && cb.posts == [cb.attempts[0]])
      && (cb.runs != [] ==> cb.runs == cb.posts)
  {
    hide Run, WorldOk;
    RunKeeps(ops);
    AtMostOnce(Run(ops), c);
  }

  lemma DrainedState(w: World)
    requires WorldOk(w) && Drained(w.gate)
    ensures w.held == map[] && w.tasks == []
    ensures forall c :: c in w.callbacks && w.callbacks[c].born
                        && ((w.callbacks[c].alive && w.callbacks[c].id != 0) || w.callbacks[c].attempts != []) ==>
      w.callbacks[c].attempts != [] && w.callbacks[c].runs == [w.callbacks[c].attempts[0]]
    ensures forall n :: n in w.locals && !w.locals[n].forgotten ==> w.locals[n].calls == 1
  {
    NothingHeld(w.held);
    forall c | c in w.callbacks && w.callbacks[c].born
               && ((w.callbacks[c].alive && w.callbacks[c].id != 0) || w.callbacks[c].attempts != [])
      ensures w.callbacks[c].attempts != [] && w.callbacks[c].runs == [w.callbacks[c].attempts[0]]
    {
      assert CallbackOk(w.callbacks[c]);
      assert !Queued(w.tasks, c);
    }
  }

  /**
   When WaitForDrain can return, every live callback that registered before the
   close has run, as has every callback anybody completed; and every closure that
   was not forgotten before the close was called.
   */
  lemma DrainedMeansRun(ops: seq<Op>)
    requires Drained(Run(ops).gate)
    ensures var w := Run(ops);
      && w.held == map[] && w.tasks == []
      && (forall c :: c in w.callbacks && w.callbacks[c].born
                      && ((w.callbacks[c].alive && w.callbacks[c].id != 0) || w.callbacks[c].attempts != []) ==>
            w.callbacks[c].attempts != [] && w.callbacks[c].runs == [w.callbacks[c].attempts[0]])
      && (forall n :: n in w.locals && !w.locals[n].forgotten ==> w.locals[n].calls == 1)
  {
    hide Run, WorldOk;
    RunKeeps(ops);
    DrainedState(Run(ops));
  }

  lemma NothingHeld(held: map<nat, Holder>)
    ensures |held| == 0 ==> held == map[]
  {
    if |held| == 0 {
      assert held.Keys == {};
    }
  }

  /** After a drain: no business, and only callbacks that came too late to register still complete. */
  ghost predicate Quiet(w: World)
  {
    && w.gate.closed && w.gate.finished
    && (forall t :: t in w.held ==> w.held[t] != ByCaller)
    && (forall i :: 0 <= i < |w.tasks| ==> w.tasks[i].work.Completion?)
    && (forall c :: c in w.callbacks && w.callbacks[c].id != 0 && w.callbacks[c].alive ==> !w.callbacks[c].full)
  }

  lemma BeginQuiet(w: World, c: nat, args: int)
    requires Quiet(w) && c in w.callbacks
    ensures Quiet(Begin(w, c, args))
  {
  }

  lemma RunQuiet(w: World, i: nat)
    requires Quiet(w) && i < |w.tasks|
    ensures Quiet(DoRun(w, i))
  {
  }

  lemma PostQuiet(w: World, c: nat)
    requires Quiet(w) && c in w.callbacks
    ensures w.callbacks[c].stage.Posting? ==> Quiet(DoPost(w, c))
    ensures Quiet(DoForget(w, c))
  {
  }

  lemma StepQuiet(w: World, op: Op)
    requires WorldOk(w) && Quiet(w)
    ensures Quiet(Step(w, op))
  {
    hide TicketsOk, CallbacksOk, QueueOk, OwnersOk, LocalsOk, StagesOk, ReachOk, Begin, DoCancel, CanCancel, DoRun,
         DoPost, DoForget;
    match op
    case RunTask(i) =>
      if i < |w.tasks| {
        RunQuiet(w, i);
      }
    case PostIt(c) =>
      if c in w.callbacks {
        PostQuiet(w, c);
      }
    case ForgetIt(c) =>
      if c in w.callbacks {
        PostQuiet(w, c);
      }
    case CompleteOwed(c) =>
      if MutexFree(w, c) {
        BeginQuiet(w.(callbacks := w.callbacks[c := w.callbacks[c].(owed := false)]), c, w.callbacks[c].cancelled);
      }
    case Complete(c, args) =>
      if MutexFree(w, c) {
        BeginQuiet(w, c, args);
      }
    case CancelNext(id) =>
      assert !CanCancel(w, id) by { NobodyToCancel(w, id); }
    case _ =>
  }

  lemma NobodyToCancel(w: World, id: nat)
    requires CloserOk(w.gate, w.closer) && w.gate.finished
    ensures !CanCancel(w, id)
  {
  }

  /** Once drained, the gate admits nobody ever again and no business is ever queued. */
  lemma {:induction false} DrainedStaysQuiet(w: World, ops: seq<Op>)
    requires WorldOk(w) && Drained(w.gate)
    ensures var w' := RunFrom(w, ops);
      WorldOk(w') && Quiet(w') && Step(w', EnterGate) == w'
  {
    hide WorldOk, Step;
    if ops == [] {
      DrainedState(w);
      DrainedIsQuiet(w);
    } else {
      DrainedStaysQuiet(w, ops[..|ops| - 1]);
      var before := RunFrom(w, ops[..|ops| - 1]);
      StepKeeps(before, ops[|ops| - 1]);
      StepQuiet(before, ops[|ops| - 1]);
    }
    ClosedRefuses(RunFrom(w, ops));
  }

  lemma DrainedIsQuiet(w: World)
    requires WorldOk(w) && Drained(w.gate) && w.held == map[] && w.tasks == []
    ensures Quiet(w)
  {
  }

  /** A closed gate admits nobody and registers nobody. */
  lemma ClosedRefuses(w: World)
    requires w.gate.closed
    ensures Step(w, EnterGate) == w && forall target :: Register(w.gate, target) == (w.gate, 0)
  {
  }

  lemma {:induction false} Smallest(keys: set<nat>) returns (id: nat)
    requires keys != {}
    ensures id in keys && forall j :: j in keys ==> id <= j
    decreases |keys|
  {
    id :| id in keys;
    if keys != {id} {
      var other := Smallest(keys - {id});
      assert forall j :: j in keys ==> j == id || j in keys - {id};
      id := if other < id then other else id;
    }
  }

  predicate ClosingOp(op: Op) { op.FinishClose? || op.CancelNext? || op.PostIt? || op.ForgetIt? }

  /** The mutex of a callback is always given back. */
  lemma HolderMoves(w: World, c: nat) returns (op: Op)
    requires c in w.callbacks && w.callbacks[c].stage != Free
    ensures ClosingOp(op) && Step(w, op) != w
  {
    op := if w.callbacks[c].stage.Posting? then PostIt(c) else ForgetIt(c);
    assert Step(w, op).callbacks[c] != w.callbacks[c];
  }

  /** The closer is never stuck: it can move, or the holder of the mutex it waits for can. */
  lemma CloserMoves(w: World)
    requires WorldOk(w) && w.closer.Cancelling?
    ensures exists op: Op :: ClosingOp(op) && Step(w, op) != w
  {
    hide TicketsOk, CallbacksOk, QueueOk, OwnersOk, LocalsOk, ReachOk;
    var op := FinishClose;
    if w.closer.current.Some? {
      op := HolderMoves(w, w.closer.current.value);
    } else if w.closer.todo != map[] {
      assert w.closer.todo.Keys != {};
      var id := Smallest(w.closer.todo.Keys);
      if CanCancel(w, id) {
        op := CancelNext(id);
        assert id !in DoCancel(w, id).closer.todo;
      } else {
        op := HolderMoves(w, w.closer.todo[id].c);
      }
    }
    assert ClosingOp(op) && Step(w, op) != w;
  }

  // ------------------------------------------------------------------------
  // The objects: one method for each region under a mutex.
  // ------------------------------------------------------------------------

  /** posted is what the executor was given, in order. */
  class ExecutorCallbackGate {
    var inFlight: int
    var nextId: nat
    var closed: bool
    var cancellationsFinished: bool
    var cancellations: map<nat, Target>
    var posted: seq<Work>

    function View(): Gate
      reads this
    {
      Gate(inFlight, nextId, closed, cancellationsFinished, cancellations)
    }

    constructor ()
      ensures View() == OPEN && posted == []
    {
      inFlight, nextId, closed, cancellationsFinished, cancellations, posted := 0, 0, false, false, map[], [];
    }

    /** True when the caller now owns a ticket. */
    method EnterGate() returns (ticket: bool)
      modifies this`inFlight
      ensures Enter(old(View())) == (View(), ticket)
    {
      if closed {
        return false;
      }
      inFlight := inFlight + 1;
      return true;
    }

    method ReleaseTicket()
      modifies this`inFlight
      ensures View() == Release(old(View()))
    {
      inFlight := inFlight - 1;
    }

    /** Business is posted with a ticket, and not at all once the gate is closed. */
    method Post(n: nat) returns (ok: bool)
      modifies this`inFlight, this`posted
      ensures Enter(old(View())) == (View(), ok)
      ensures posted == old(posted) + if ok then [Business(n)] else []
    {
      ok := EnterGate();
      if ok {
        posted := posted + [Business(n)];
      }
    }

    method PostCompletion(c: nat, args: int)
      modifies this`inFlight, this`posted
      ensures View() == CountCompletion(old(View()))
      ensures posted == old(posted) + [Completion(c, args)]
    {
      inFlight := inFlight + 1;
      posted := posted + [Completion(c, args)];
    }

    method RegisterCancellation(target: Target) returns (id: nat)
      modifies this`nextId, this`cancellations
      ensures Register(old(View()), target) == (View(), id)
      ensures id != 0 <==> !closed
    {
      if closed {
        return 0;
      }
      nextId := nextId + 1;
      cancellations := cancellations[nextId := target];
      return nextId;
    }

    method ForgetCancellation(id: nat)
      modifies this`cancellations
      ensures View() == Forget(old(View()), id)
    {
      cancellations := cancellations - {id};
    }

    /** The cancellations to call, or None when the gate was closed before. */
    method TakeCancellations() returns (todo: Option<map<nat, Target>>)
      modifies this`closed, this`cancellations
      ensures BeginClose(old(View())) == (View(), todo)
    {
      if closed {
        return None;
      }
      closed := true;
      todo := Some(cancellations);
      cancellations := map[];
    }

    method FinishCancellations()
      modifies this`cancellationsFinished
      ensures View() == EndClose(old(View()))
    {
      cancellationsFinished := true;
    }

    /** The order in which Close calls what it took: every id once, ascending. */
    method CancellationOrder(todo: map<nat, Target>) returns (order: seq<nat>)
      ensures forall i, j :: 0 <= i < j < |order| ==> order[i] < order[j]
      ensures forall id :: id in order <==> id in todo
    {
      order := [];
      var left := todo.Keys;
      while left != {}
        invariant forall i, j :: 0 <= i < j < |order| ==> order[i] < order[j]
        invariant forall id :: id in todo <==> id in order || id in left
        invariant forall i, id :: 0 <= i < |order| && id in left ==> order[i] < id
        decreases |left|
      {
        ghost var least := Smallest(left);
        var id :| id in left && forall j :: j in left ==> id <= j;
        order := order + [id];
        left := left - {id};
      }
    }
  }

  /** A callback with its function and the gate it completes through. */
  class CancellableExecutorCallback {
    const gate: ExecutorCallbackGate
    const number: nat
    var full: bool
    var id: nat

    /** Too late to register, the callback is completed at once with the arguments of its cancellation. */
    constructor (gate: ExecutorCallbackGate, number: nat, full: bool, cancelled: int)
      modifies gate
      ensures this.gate == gate && this.number == number
      ensures id == Register(old(gate.View()), ToCallback(number)).1
      ensures id != 0 ==>
        && gate.View() == Register(old(gate.View()), ToCallback(number)).0
        && this.full == full && gate.posted == old(gate.posted)
      ensures id == 0 ==>
        && gate.View() == (if full then Forget(CountCompletion(old(gate.View())), 0) else old(gate.View()))
        && !this.full && gate.posted == old(gate.posted) + if full then [Completion(number, cancelled)] else []
    {
      this.gate, this.number, this.full := gate, number, full;
      new;
      id := gate.RegisterCancellation(ToCallback(number));
      if id == 0 {
        Complete(cancelled);
      }
    }

    /** The arguments are posted only if nobody completed before; the registration goes with them. */
    method Complete(args: int)
      modifies this`full, gate
      ensures !full
      ensures gate.posted == old(gate.posted) + if old(full) then [Completion(number, args)] else []
      ensures gate.View() == if old(full) then Forget(CountCompletion(old(gate.View())), id) else old(gate.View())
    {
      if !full {
        return;
      }
      full := false;
      gate.PostCompletion(number, args);
      gate.ForgetCancellation(id);
    }
  }
}
