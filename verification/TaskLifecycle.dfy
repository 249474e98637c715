/** The periodic task (common/task/task.go): any number of calls of Start, ExecuteWithTimeout,
    Cancel and CloseContext, interleaved at every point where one can see another. A worker is the
    goroutine that runs Execute; a timeout makes its call return while the worker goes on. */
module TaskLifecycle {

  import opened Options

  datatype Worker =
    | Planned      // workerDone is set, the goroutine is not started yet
    | Spawned
    | Executing    // inside Execute
    | Returned     // Execute has returned, ExecuteLock is still held
    | Unlocked     // ExecuteLock is released, workerDone is not closed yet
    | Done         // workerDone is closed

  /** A call of ExecuteWithTimeout; `loop` is the loop that made it, if one did. */
  datatype Call =
    | Entered(loop: Option<nat>)
    | HasLock(loop: Option<nat>)
    | Launching(loop: Option<nat>, worker: nat)
    | Waiting(loop: Option<nat>, worker: nat)

  /** A call of CloseContext. */
  datatype Closer =
    | Stopped                                                 // safeStop is done
    | JoinsLoop(loop: Option<nat>, worker: Option<nat>)       // has read loopDone and workerDone
    | JoinsWorker(loop: Option<nat>, worker: Option<nat>)
    | Closed(loop: Option<nat>, worker: Option<nat>)          // returned nil
    | GaveUp                                                  // returned the context's error

  /** ExecuteLock: a call takes it and hands it to its worker. */
  datatype Holder = Nobody | ByCall(call: nat) | ByWorker(worker: nat)

  datatype Task = Task(
    closed: bool,
    running: bool,
    lock: Holder,
    workers: map<nat, Worker>,
    current: Option<nat>,          // whose channel workerDone is
    exited: map<nat, bool>,        // every loop ever started, and whether its loopDone is closed
    loop: Option<nat>,             // whose channel loopDone is
    calls: map<nat, Call>,
    closers: map<nat, Closer>)

  datatype Action =
    | Start(l: nat)
    | LoopCalls(l: nat, c: nat)
    | LoopExits(l: nat)
    | DirectCall(c: nat)
    | TryLock(c: nat)
    | Admit(c: nat, w: nat)
    | Spawn(c: nat)
    | Begin(w: nat)
    | Finish(w: nat)
    | Unlock(w: nat)
    | CloseDone(w: nat)
    | CallReturns(c: nat)
    | Cancel
    | SafeStop(k: nat)
    | Snap(k: nat)
    | LoopJoined(k: nat)
    | WorkerJoined(k: nat)
    | ContextDone(k: nat)

  predicate InCall(t: Task, l: nat) { exists c :: c in t.calls && t.calls[c].loop == Some(l) }

  predicate LoopGone(t: Task, l: Option<nat>) { l.Some? ==> l.value in t.exited && t.exited[l.value] }

  predicate WorkerGone(t: Task, w: Option<nat>) { w.Some? ==> w.value in t.workers && t.workers[w.value] == Done }

  predicate At(t: Task, w: nat, p: Worker) { w in t.workers && t.workers[w] == p }

  predicate Enabled(t: Task, a: Action) {
    match a
    case Start(l) => l !in t.exited
    case LoopCalls(l, c) => l in t.exited && !t.exited[l] && c !in t.calls && !InCall(t, l)
    case LoopExits(l) => l in t.exited && !t.exited[l] && !InCall(t, l)
    case DirectCall(c) => c !in t.calls
    case TryLock(c) => c in t.calls && t.calls[c].Entered?
    case Admit(c, w) => c in t.calls && t.calls[c].HasLock? && w !in t.workers
    case Spawn(c) => c in t.calls && t.calls[c].Launching?
    case Begin(w) => At(t, w, Spawned)
    case Finish(w) => At(t, w, Executing)
    case Unlock(w) => At(t, w, Returned)
    case CloseDone(w) => At(t, w, Unlocked)
    case CallReturns(c) => c in t.calls && t.calls[c].Waiting?
    case Cancel => true
    case SafeStop(k) => k !in t.closers
    case Snap(k) => k in t.closers && t.closers[k].Stopped?
    case LoopJoined(k) => k in t.closers && t.closers[k].JoinsLoop? && LoopGone(t, t.closers[k].loop)
    case WorkerJoined(k) => k in t.closers && t.closers[k].JoinsWorker? && WorkerGone(t, t.closers[k].worker)
    case ContextDone(k) => k in t.closers && (t.closers[k].JoinsLoop? || t.closers[k].JoinsWorker?)
  }

  function Move(t: Task, w: nat, p: Worker): Task { t.(workers := t.workers[w := p]) }

  function Step(t: Task, a: Action): Task
    requires Enabled(t, a)
  {
    match a
    case Start(l) =>
      if t.closed || t.running then t
      else t.(running := true, loop := Some(l), exited := t.exited[l := false])
    case LoopCalls(l, c) => t.(calls := t.calls[c := Entered(Some(l))])
    case LoopExits(l) => t.(exited := t.exited[l := true])
    case DirectCall(c) => t.(calls := t.calls[c := Entered(None)])
    case TryLock(c) =>
      if t.lock == Nobody then t.(lock := ByCall(c), calls := t.calls[c := HasLock(t.calls[c].loop)])
      else t.(calls := t.calls - {c})
    case Admit(c, w) =>
      if t.closed then t.(lock := Nobody, calls := t.calls - {c})
      else Move(t, w, Planned).(current := Some(w), calls := t.calls[c := Launching(t.calls[c].loop, w)])
    case Spawn(c) =>
      var w := t.calls[c].worker;
      Move(t, w, Spawned).(lock := ByWorker(w), calls := t.calls[c := Waiting(t.calls[c].loop, w)])
    case Begin(w) => Move(t, w, Executing)
    case Finish(w) => Move(t, w, Returned)
    case Unlock(w) => Move(t, w, Unlocked).(lock := Nobody)
    case CloseDone(w) => Move(t, w, Done)
    case CallReturns(c) => t.(calls := t.calls - {c})
    case Cancel => t.(closed := true, running := false)
    case SafeStop(k) => t.(closed := true, running := false, closers := t.closers[k := Stopped])
    case Snap(k) => t.(closers := t.closers[k := JoinsLoop(t.loop, t.current)])
    case LoopJoined(k) => t.(closers := t.closers[k := JoinsWorker(t.closers[k].loop, t.closers[k].worker)])
    case WorkerJoined(k) => t.(closers := t.closers[k := Closed(t.closers[k].loop, t.closers[k].worker)])
    case ContextDone(k) => t.(closers := t.closers[k := GaveUp])
  }

  predicate Initial(t: Task) {
    t == Task(false, false, Nobody, map[], None, map[], None, map[], map[])
  }

  // ---- the invariant ----

  /** Between the closed check and the release of ExecuteLock. */
  predicate Live(p: Worker) { p.Planned? || p.Spawned? || p.Executing? || p.Returned? }

  /** At most one worker is live: the current one, and it or its call holds the lock. */
  predicate WorkersOk(workers: map<nat, Worker>, current: Option<nat>, lock: Holder) {
    && (current.Some? ==> current.value in workers)
    && (forall w :: w in workers && Live(workers[w]) ==>
          current == Some(w) && if workers[w].Planned? then lock.ByCall? else lock == ByWorker(w))
    && (lock.ByWorker? ==> lock.worker in workers && Live(workers[lock.worker]) && !workers[lock.worker].Planned?)
  }

  /** A call holds the lock from TryLock to the start of its worker. */
  predicate CallsOk(calls: map<nat, Call>, workers: map<nat, Worker>, lock: Holder) {
    && (lock.ByCall? ==> lock.call in calls)
    && (forall c :: c in calls ==> (calls[c].HasLock? || calls[c].Launching? <==> lock == ByCall(c)))
    && (forall c :: c in calls && calls[c].Launching? ==>
          calls[c].worker in workers && workers[calls[c].worker] == Planned)
  }

  /** No worker is live while a call has the lock and no worker yet. */
  predicate IdleOk(calls: map<nat, Call>, workers: map<nat, Worker>, lock: Holder) {
    lock.ByCall? && lock.call in calls && calls[lock.call].HasLock? ==> forall w :: w in workers ==> !Live(workers[w])
  }

  /** A periodic job has one loop in its life, whose calls end before it does. */
  predicate LoopsOk(t: Task) {
    && t.exited.Keys == (if t.loop.Some? then {t.loop.value} else {})
    && (t.running <==> t.loop.Some? && !t.closed)
    && (forall c :: c in t.calls && t.calls[c].loop.Some? ==>
          t.calls[c].loop.value in t.exited && !t.exited[t.calls[c].loop.value])
  }

  predicate CloserOk(t: Task, k: Closer) {
    && (!k.GaveUp? ==> t.closed)
    && (k.JoinsLoop? || k.JoinsWorker? || k.Closed? ==> k.loop == t.loop && k.worker == t.current)
    && (k.JoinsWorker? || k.Closed? ==> LoopGone(t, k.loop))
    && (k.Closed? ==> WorkerGone(t, k.worker))
  }

  predicate ClosersOk(t: Task) { forall k :: k in t.closers ==> CloserOk(t, t.closers[k]) }

  predicate ExecutionOk(t: Task) {
    WorkersOk(t.workers, t.current, t.lock) && CallsOk(t.calls, t.workers, t.lock) && IdleOk(t.calls, t.workers, t.lock)
  }

  predicate Inv(t: Task) { ExecutionOk(t) && LoopsOk(t) && ClosersOk(t) }

  /** Steps of a worker; steps of a call that change hands of the lock. */
  predicate OfWorker(a: Action) { a.Begin? || a.Finish? || a.Unlock? || a.CloseDone? }
  predicate OfLock(a: Action) { a.TryLock? || a.Admit? || a.Spawn? }

  lemma OthersKeep(t: Task, a: Action)
    requires Enabled(t, a) && !OfWorker(a) && !OfLock(a)
    ensures var n := Step(t, a); n.workers == t.workers && n.current == t.current && n.lock == t.lock
  {
  }

  lemma WorkerKeepsWorkers(t: Task, a: Action)
    requires ExecutionOk(t) && Enabled(t, a) && OfWorker(a)
    ensures var n := Step(t, a); WorkersOk(n.workers, n.current, n.lock)
  {
  }

  lemma WorkerKeepsCalls(t: Task, a: Action)
    requires ExecutionOk(t) && Enabled(t, a) && OfWorker(a)
    ensures var n := Step(t, a); CallsOk(n.calls, n.workers, n.lock) && IdleOk(n.calls, n.workers, n.lock)
  {
  }

  lemma LockKeepsWorkers(t: Task, a: Action)
    requires ExecutionOk(t) && Enabled(t, a) && OfLock(a)
    ensures var n := Step(t, a); WorkersOk(n.workers, n.current, n.lock)
  {
  }

  lemma LockKeepsIdle(t: Task, a: Action)
    requires ExecutionOk(t) && Enabled(t, a) && OfLock(a)
    ensures var n := Step(t, a); IdleOk(n.calls, n.workers, n.lock)
  {
    match a
    case TryLock(c) =>
    case Admit(c, w) =>
    case Spawn(c) =>
  }

  lemma LockKeepsCalls(t: Task, a: Action)
    requires ExecutionOk(t) && Enabled(t, a) && OfLock(a)
    ensures var n := Step(t, a); CallsOk(n.calls, n.workers, n.lock)
  {
    match a
    case TryLock(c) =>
    case Admit(c, w) =>
    case Spawn(c) =>
  }

  lemma OthersKeepCalls(t: Task, a: Action)
    requires ExecutionOk(t) && Enabled(t, a) && !OfWorker(a) && !OfLock(a)
    ensures var n := Step(t, a); CallsOk(n.calls, n.workers, n.lock) && IdleOk(n.calls, n.workers, n.lock)
  {
    OthersKeep(t, a);
  }

  lemma ExecutionKeeps(t: Task, a: Action)
    requires ExecutionOk(t) && Enabled(t, a)
    ensures ExecutionOk(Step(t, a))
  {
    if OfWorker(a) {
      WorkerKeepsWorkers(t, a);
      WorkerKeepsCalls(t, a);
    } else if OfLock(a) {
      LockKeepsWorkers(t, a);
      LockKeepsIdle(t, a);
      LockKeepsCalls(t, a);
    } else {
      OthersKeep(t, a);
      OthersKeepCalls(t, a);
    }
  }

  lemma LoopsKeep(t: Task, a: Action)
    requires LoopsOk(t) && Enabled(t, a)
    ensures LoopsOk(Step(t, a))
  {
    if a.Start? || a.LoopExits? || a.Cancel? || a.SafeStop? {
      assert Step(t, a).calls == t.calls;
    } else {
      CallsKeepLoops(t, a);
    }
  }

  lemma CallsKeepLoops(t: Task, a: Action)
    requires LoopsOk(t) && Enabled(t, a) && !a.Start? && !a.LoopExits? && !a.Cancel? && !a.SafeStop?
    ensures LoopsOk(Step(t, a))
  {
    var n := Step(t, a);
    assert n.exited == t.exited && n.loop == t.loop && n.running == t.running && n.closed == t.closed;
    CallsKeepTheirLoop(t, a);
  }

  lemma CallsKeepTheirLoop(t: Task, a: Action)
    requires Enabled(t, a)
    ensures var n := Step(t, a);
            forall c :: c in n.calls && n.calls[c].loop.Some? ==>
              (c in t.calls && t.calls[c].loop == n.calls[c].loop) || (a.LoopCalls? && n.calls[c].loop == Some(a.l))
  {
  }

  lemma ClosersKeep(t: Task, a: Action)
    requires Inv(t) && Enabled(t, a)
    ensures ClosersOk(Step(t, a))
  {
    forall k | k in Step(t, a).closers
      ensures CloserOk(Step(t, a), Step(t, a).closers[k])
    {
      assert k in t.closers ==> CloserOk(t, t.closers[k]);
    }
  }

  lemma StepKeeps(t: Task, a: Action)
    requires Inv(t) && Enabled(t, a)
    ensures Inv(Step(t, a))
  {
    ExecutionKeeps(t, a);
    LoopsKeep(t, a);
    ClosersKeep(t, a);
  }

  // ---- runs ----

  function Exec(t: Task, acts: seq<Action>): Option<Task> {
    if acts == [] then Some(t)
    else
      var before := Exec(t, acts[..|acts| - 1]);
      if before.Some? && Enabled(before.value, acts[|acts| - 1])
      then Some(Step(before.value, acts[|acts| - 1]))
      else None
  }

  lemma {:induction false} RunsKeepInv(t: Task, acts: seq<Action>)
    requires Inv(t) && Exec(t, acts).Some?
    ensures Inv(Exec(t, acts).value)
    decreases |acts|
  {
    if acts != [] {
      RunsKeepInv(t, acts[..|acts| - 1]);
      StepKeeps(Exec(t, acts[..|acts| - 1]).value, acts[|acts| - 1]);
    }
  }

  /** In every interleaving at most one Execute runs at a time. */
  lemma AtMostOneExecute(start: Task, acts: seq<Action>, v: nat, w: nat)
    requires Initial(start) && Exec(start, acts).Some?
    requires At(Exec(start, acts).value, v, Executing) && At(Exec(start, acts).value, w, Executing)
    ensures v == w
  {
    RunsKeepInv(start, acts);
  }

  /** Nothing runs or can start to run. */
  predicate AtRest(t: Task) {
    && t.closed
    && (forall w :: w in t.workers ==> !Live(t.workers[w]))
    && (forall l :: l in t.exited ==> t.exited[l])
  }

  lemma ClosedIsAtRest(t: Task, k: nat)
    requires Inv(t) && k in t.closers && t.closers[k].Closed?
    ensures AtRest(t)
  {
    assert CloserOk(t, t.closers[k]);
  }

  lemma NothingBegins(t: Task, a: Action)
    requires Inv(t) && AtRest(t) && Enabled(t, a)
    ensures !a.Begin? && !a.Spawn?
  {
    assert forall c :: c in t.calls && t.calls[c].Launching? ==> Live(t.workers[t.calls[c].worker]);
  }

  lemma ClosedStays(t: Task, a: Action, k: nat)
    requires Enabled(t, a) && k in t.closers && t.closers[k].Closed?
    ensures k in Step(t, a).closers && Step(t, a).closers[k].Closed?
  {
  }

  lemma {:induction false} ClosedForGood(t: Task, acts: seq<Action>, k: nat)
    requires Inv(t) && k in t.closers && t.closers[k].Closed? && Exec(t, acts).Some?
    ensures AtRest(Exec(t, acts).value)
    ensures k in Exec(t, acts).value.closers && Exec(t, acts).value.closers[k].Closed?
    decreases |acts|
  {
    RunsKeepInv(t, acts);
    if acts != [] {
      ClosedForGood(t, acts[..|acts| - 1], k);
      ClosedStays(Exec(t, acts[..|acts| - 1]).value, acts[|acts| - 1], k);
    }
    ClosedIsAtRest(Exec(t, acts).value, k);
  }

  /** Task join. Once one CloseContext has returned nil, no Execute is running, the loop has ended,
      and however the run goes on, with further calls of Start and ExecuteWithTimeout, no Execute
      begins again. */
  lemma CloseReallyStops(start: Task, before: seq<Action>, after: seq<Action>, k: nat)
    requires Initial(start) && Exec(start, before).Some?
    requires k in Exec(start, before).value.closers && Exec(start, before).value.closers[k].Closed?
    requires Exec(Exec(start, before).value, after).Some?
    ensures AtRest(Exec(Exec(start, before).value, after).value)
    ensures forall a :: a in after ==> !a.Begin? && !a.Spawn?
    decreases |after|
  {
    var t := Exec(start, before).value;
    RunsKeepInv(start, before);
    ClosedForGood(t, after, k);
    if after != [] {
      var shorter, a := after[..|after| - 1], after[|after| - 1];
      CloseReallyStops(start, before, shorter, k);
      RunsKeepInv(t, shorter);
      NothingBegins(Exec(t, shorter).value, a);
      assert after == shorter + [a];
    }
  }

  // ---- an admitted call executes ----

  /** How far worker `w` of call `c` is: to be spawned, to begin, or further. */
  predicate OnItsWay(t: Task, c: nat, w: nat, spawned: bool, begun: bool) {
    if !spawned then c in t.calls && t.calls[c].Launching? && t.calls[c].worker == w && At(t, w, Planned)
    else if !begun then At(t, w, Spawned)
    else w in t.workers && !t.workers[w].Planned? && !t.workers[w].Spawned?
  }

  lemma WayStep(t: Task, a: Action, c: nat, w: nat, spawned: bool, begun: bool)
    requires ExecutionOk(t) && Enabled(t, a) && OnItsWay(t, c, w, spawned, begun) && (begun ==> spawned)
    ensures OnItsWay(Step(t, a), c, w, spawned || a == Spawn(c), begun || a == Begin(w))
    ensures a == Begin(w) ==> spawned
  {
    match a
    case Spawn(_) =>
    case Admit(_, _) =>
    case _ =>
  }

  lemma {:induction false} StaysOnItsWay(t: Task, acts: seq<Action>, c: nat, w: nat)
    requires Inv(t) && Exec(t, acts).Some? && OnItsWay(t, c, w, false, false)
    ensures OnItsWay(Exec(t, acts).value, c, w, Spawn(c) in acts, Begin(w) in acts)
    ensures Begin(w) in acts ==> Spawn(c) in acts
    decreases |acts|
  {
    if acts != [] {
      var shorter, a := acts[..|acts| - 1], acts[|acts| - 1];
      assert acts == shorter + [a];
      StaysOnItsWay(t, shorter, c, w);
      RunsKeepInv(t, shorter);
      WayStep(Exec(t, shorter).value, a, c, w, Spawn(c) in shorter, Begin(w) in shorter);
    }
  }

  /** Nothing an open task admits is lost. A call that has ExecuteLock on a task that is not closed gets
      a worker; and however the run goes on, through timeouts, Cancel and CloseContext, as long as Execute
      has not begun, the next step towards it is possible. On a closed task the call gives the lock back
      and nothing is started. */
  lemma AdmittedIsExecuted(start: Task, before: seq<Action>, c: nat, w: nat, acts: seq<Action>)
    requires Initial(start) && Exec(start, before).Some? && Enabled(Exec(start, before).value, Admit(c, w))
    requires Exec(Step(Exec(start, before).value, Admit(c, w)), acts).Some?
    ensures var t := Exec(start, before).value;
            var n := Exec(Step(t, Admit(c, w)), acts).value;
            !t.closed ==>
              if Begin(w) in acts then w in n.workers && !n.workers[w].Planned? && !n.workers[w].Spawned?
              else if Spawn(c) in acts then Enabled(n, Begin(w))
              else Enabled(n, Spawn(c)) && n.calls[c].worker == w
    ensures var t, n := Exec(start, before).value, Step(Exec(start, before).value, Admit(c, w));
            t.closed ==> n.lock == Nobody && n.workers == t.workers && c !in n.calls
  {
    var t := Exec(start, before).value;
    RunsKeepInv(start, before);
    StepKeeps(t, Admit(c, w));
    if !t.closed {
      StaysOnItsWay(Step(t, Admit(c, w)), acts, c, w);
    }
  }

  /** ExecuteLock is free exactly when no worker is between the closed check and its release, and no call
      is on its way to that check. A call gets the lock if it is free, and otherwise returns. */
  lemma FreeLockIsTaken(start: Task, before: seq<Action>, c: nat)
    requires Initial(start) && Exec(start, before).Some? && Enabled(Exec(start, before).value, TryLock(c))
    ensures var t := Exec(start, before).value;
            t.lock == Nobody <==>
              (forall w :: w in t.workers ==> !Live(t.workers[w]))
                && (forall d :: d in t.calls ==> !t.calls[d].HasLock?)
    ensures var t := Exec(start, before).value;
            var n := Step(t, TryLock(c));
            && n.workers == t.workers
            && if t.lock == Nobody then forall w :: w !in t.workers ==> Enabled(n, Admit(c, w))
               else n.lock == t.lock && n.calls == t.calls - {c}
  {
    RunsKeepInv(start, before);
  }

  // ---- starting and stopping ----

  lemma LoopStep(t: Task, a: Action, l: nat)
    requires Enabled(t, a) && l in t.exited && !t.exited[l]
    ensures l in Step(t, a).exited && (Step(t, a).exited[l] <==> a == LoopExits(l))
  {
  }

  lemma {:induction false} LoopLives(t: Task, acts: seq<Action>, l: nat)
    requires Exec(t, acts).Some? && l in t.exited && !t.exited[l] && LoopExits(l) !in acts
    ensures l in Exec(t, acts).value.exited && !Exec(t, acts).value.exited[l]
    decreases |acts|
  {
    if acts != [] {
      var shorter, a := acts[..|acts| - 1], acts[|acts| - 1];
      assert a in acts;
      LoopLives(t, shorter, l);
      LoopStep(Exec(t, shorter).value, a, l);
    }
  }

  /** Start on an open task that is not running gives it a loop; until that loop exits, it can make its
      next call whenever its last one has returned. On a closed or running task Start does nothing. */
  lemma StartedLoopRuns(start: Task, before: seq<Action>, l: nat, acts: seq<Action>)
    requires Initial(start) && Exec(start, before).Some? && Enabled(Exec(start, before).value, Start(l))
    requires Exec(Step(Exec(start, before).value, Start(l)), acts).Some? && LoopExits(l) !in acts
    ensures var t := Exec(start, before).value;
            var n := Exec(Step(t, Start(l)), acts).value;
            if t.closed || t.running then Step(t, Start(l)) == t
            else !InCall(n, l) ==> forall c :: c !in n.calls ==> Enabled(n, LoopCalls(l, c))
  {
    var t := Exec(start, before).value;
    if !t.closed && !t.running {
      LoopLives(Step(t, Start(l)), acts, l);
    }
  }

  lemma ClosedStep(t: Task, a: Action)
    requires Enabled(t, a) && t.closed
    ensures Step(t, a).closed && (WorkersNamed(t, a) ==> Step(t, a).workers.Keys == t.workers.Keys)
  {
  }

  /** The worker that a step moves exists. */
  predicate WorkersNamed(t: Task, a: Action)
    requires Enabled(t, a)
  {
    a.Spawn? ==> t.calls[a.c].worker in t.workers
  }

  lemma {:induction false} ClosedForWorkers(t: Task, acts: seq<Action>)
    requires Inv(t) && t.closed && Exec(t, acts).Some?
    ensures Exec(t, acts).value.closed && Exec(t, acts).value.workers.Keys == t.workers.Keys
    decreases |acts|
  {
    if acts != [] {
      var shorter, a := acts[..|acts| - 1], acts[|acts| - 1];
      ClosedForWorkers(t, shorter);
      RunsKeepInv(t, shorter);
      ClosedStep(Exec(t, shorter).value, a);
    }
  }

  /** After Cancel or the first step of CloseContext the task is closed for ever, and no call gets a new
      worker; those it has may finish. */
  lemma StoppedGetsNoWorker(start: Task, before: seq<Action>, stop: Action, acts: seq<Action>)
    requires Initial(start) && Exec(start, before).Some? && (stop.Cancel? || stop.SafeStop?)
    requires Enabled(Exec(start, before).value, stop) && Exec(Step(Exec(start, before).value, stop), acts).Some?
    ensures var t := Exec(start, before).value;
            var n := Exec(Step(t, stop), acts).value;
            n.closed && !n.running && n.workers.Keys == t.workers.Keys
  {
    var t := Exec(start, before).value;
    RunsKeepInv(start, before);
    StepKeeps(t, stop);
    ClosedForWorkers(Step(t, stop), acts);
    RunsKeepInv(Step(t, stop), acts);
  }
}
