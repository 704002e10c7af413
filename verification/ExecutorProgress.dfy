/** How a task moves through the executor: the moves it can make, how many, and that a
    delivered result is final. */
module ExecutorProgress {
  import opened Quantities
  import opened Profiles
  import opened Stores
  import opened Admission
  import opened Planning
  import opened ExecutorState
  import opened ExecutorInvariants
  import opened ExecutorDispatch
  import opened ExecutorRuns

  datatype Stage = Nowhere | Waiting | Flying | Handled(handler: Handler) | Over

  /** A task as its owner sees it: where it is, how often it was sent, and its future. */
  datatype Life = Life(stage: Stage, sends: nat, future: Option<Future>)

  function StageOf(s: State, id: string): Stage {
    if id in Ids(s.pending) then Waiting
    else if id in Ids(s.inFlight) then Flying
    else if id in s.held then Handled(s.held[id].handler)
    else if id in s.finished || id in s.dropped then Over
    else Nowhere
  }

  function LifeOf(s: State, id: string): Life {
    Life(StageOf(s, id),
         if id in s.log then s.log[id].dispatches else 0,
         if id in s.futures then Some(s.futures[id]) else None)
  }

  /** A future after an exception is set on it unless it is done. */
  function Failed(f: Option<Future>): Option<Future> {
    if f.Some? && !Done(f.value) then Some(Finished(false)) else f
  }

  /** A queued task is sent, or leaves the queue for good. */
  predicate Leaves(a: Life, b: Life) {
    a.stage == Waiting &&
    (|| ((a.future == Some(Queued) || a.future == Some(Running)) && b == Life(Flying, a.sends + 1, Some(Running)))
     || (a.future == Some(Cancelled) && b == Life(Over, a.sends, Some(CancelledNotified))))
  }

  /** What a step makes of the task `id`, by the kind of step. */
  predicate Moves(act: Action, id: string, a: Life, b: Life) {
    match act
    case ASubmit(i, _, _, _, _) =>
      if i == id && a.future == None then a == Life(Nowhere, 0, None) && b == Life(Waiting, 0, Some(Queued)) else b == a
    case ACancel(i) =>
      if i == id && a.future == Some(Queued) then a.stage == Waiting && b == a.(future := Some(Cancelled)) else b == a
    case ADispatch(_) =>
      b == a || Leaves(a, b) || (a.stage == Waiting && b == Life(Over, a.sends, Failed(a.future)))
    case ATakeResult(i, _) =>
      b == if i == id && a.stage == Flying then a.(stage := Handled(ByResult)) else a
    case AFinishResult(i, ok, _) =>
      b == if i == id && a.stage == Handled(ByResult) then Life(Over, a.sends, Some(Finished(ok))) else a
    case ATakeTimeout(i) =>
      b == if i == id && a.stage == Flying then a.(stage := Handled(ByTimeout)) else a
    case AFinishTimeout(i) =>
      b == if i == id && a.stage == Handled(ByTimeout) then Life(Over, a.sends, Some(Finished(false))) else a
    case ATakeLost(_) =>
      b == a || (a.stage == Flying && (b == a.(stage := Handled(ByCrash)) || b == a.(stage := Over)))
    case AFinishLost(i, exitCode) =>
      if i == id && a.stage == Handled(ByCrash)
      then b == Life(Over, a.sends, Some(Finished(false))) || (LooksLikeOom(exitCode) && b == a.(stage := Waiting))
      else b == a
    case AFailPending =>
      b == if a.stage == Waiting then Life(Over, a.sends, Failed(a.future)) else a
    case ACheckWorkers(_) => b == a
    case AStopAll => b == a
  }

  // ----- one step, one task -----

  lemma SameTasksSameLives(s: State, s': State, id: string)
    requires SameTasks(s, s')
    ensures LifeOf(s', id) == LifeOf(s, id)
  {
  }

  /** A submitted task is queued, and no other is touched. */
  lemma QueuedLife(s: State, w: Work, id: string)
    requires Places(s) && w.id !in s.futures
    ensures var s' := s.(pending := s.pending + [w], futures := s.futures[w.id := Queued],
                         log := s.log[w.id := Log(0, 0, 0, None)]);
      LifeOf(s', id) == if id == w.id then Life(Waiting, 0, Some(Queued)) else LifeOf(s, id)
  {
    IdsAppend(s.pending, [w]);
    assert Ids([w]) == {w.id};
    hide NoDup, Ids;
  }

  lemma UnknownLife(s: State, id: string)
    requires Places(s)
    ensures LifeOf(s, id).future == None <==> id !in s.futures
    ensures id !in s.futures ==> LifeOf(s, id) == Life(Nowhere, 0, None)
  {
    hide NoDup, Ids;
  }

  lemma SubmitMoves(cfg: Config, s: State, a: Action, id: string)
    requires Inv(cfg, s) && a.ASubmit?
    ensures Moves(a, id, LifeOf(s, id), LifeOf(Apply(cfg, s, a), id))
  {
    InvPlaces(cfg, s);
    hide Inv, Places, LifeOf;
    UnknownLife(s, id);
    UnknownLife(s, a.id);
    if a.id !in s.futures {
      var s' := Submit(s, a.id, a.origin, a.memoryHint, a.vramHint, a.now);
      QueuedLife(s, s'.pending[|s.pending|], id);
    }
  }

  lemma CancelMoves(cfg: Config, s: State, a: Action, id: string)
    requires Inv(cfg, s) && a.ACancel?
    ensures Moves(a, id, LifeOf(s, id), LifeOf(Apply(cfg, s, a), id))
  {
    CancelledLife(s, a.id, id);
    if a.id in s.futures && s.futures[a.id].Queued? {
      var w := CancellableIsQueued(cfg, s, a.id);
      assert a.id in Ids(s.pending);
    }
    hide Inv, Cancel, Ids;
  }

  lemma CancelledLife(s: State, cancelled: string, id: string)
    ensures LifeOf(Cancel(s, cancelled), id) ==
      if id == cancelled && LifeOf(s, id).future == Some(Queued) then LifeOf(s, id).(future := Some(Cancelled))
      else LifeOf(s, id)
  {
  }

  lemma ExpelMoves(cfg: Config, s: State, ids: set<string>, id: string)
    requires Places(s)
    ensures LifeOf(Expel(s, ids), id) ==
      if id in ids && id in Ids(s.pending)
      then Life(Over, LifeOf(s, id).sends, Failed(LifeOf(s, id).future)) else LifeOf(s, id)
  {
    ExpelKeepsPlaces(s, ids);
  }

  lemma PopMoves(s: State, w: Work, held: Held, id: string)
    requires Places(s) && w in s.inFlight
    ensures LifeOf(Popped(s, w, held), id) ==
      if id == w.id then LifeOf(s, id).(stage := Handled(held.handler)) else LifeOf(s, id)
  {
    assert w.id in Ids(s.inFlight);
    WithoutKeepsDistinct(s.inFlight, {w.id});
  }

  lemma TakeResultMoves(cfg: Config, s: State, taken: string, worker: int, id: string)
    requires Inv(cfg, s)
    ensures LifeOf(TakeResult(cfg, s, taken, worker), id) ==
      if id == taken && taken in Ids(s.inFlight) then LifeOf(s, id).(stage := Handled(ByResult)) else LifeOf(s, id)
  {
    hide Inv, LifeOf, FreeWorker, Popped;
    var found := Find(s.inFlight, taken);
    if found == None {
      FreeWorkerKeepsTasks(cfg, s, taken, worker);
      SameTasksSameLives(s, FreeWorker(cfg, s, taken, worker), id);
    } else {
      var w := found.value;
      NeverIgnored(cfg, s, w);
      var popped := Popped(s, w, Held(w, ByResult));
      PopMoves(s, w, Held(w, ByResult), id) by { InvPlaces(cfg, s); }
      FreeWorkerKeepsTasks(cfg, popped, taken, worker);
      SameTasksSameLives(popped, FreeWorker(cfg, popped, taken, worker), id);
    }
  }

  lemma InvPlaces(cfg: Config, s: State)
    requires Inv(cfg, s)
    ensures Places(s)
  {
  }

  lemma TakeTimeoutMoves(cfg: Config, s: State, taken: string, id: string)
    requires Inv(cfg, s)
    ensures LifeOf(TakeTimeout(cfg, s, taken), id) ==
      if id == taken && taken in Ids(s.inFlight) then LifeOf(s, id).(stage := Handled(ByTimeout)) else LifeOf(s, id)
  {
    hide Inv, LifeOf, Replace, WithoutWorkers, Popped;
    var found := Find(s.inFlight, taken);
    if found.Some? {
      var w := found.value;
      NeverIgnored(cfg, s, w);
      InvPlaces(cfg, s);
      var held := Held(if cfg.killOnTimeout && w.worker.Some? then w else w.(resultIgnored := true), ByTimeout);
      PopMoves(s, w, held, id);
      SameTasksSameLives(Popped(s, w, held), TakeTimeout(cfg, s, taken), id);
    }
  }

  lemma DropMoves(s: State, w: Work, id: string)
    requires Places(s) && w in s.inFlight
    ensures LifeOf(Dropping(s, w), id) == if id == w.id then LifeOf(s, id).(stage := Over) else LifeOf(s, id)
  {
    assert w.id in Ids(s.inFlight);
    WithoutKeepsDistinct(s.inFlight, {w.id});
  }

  lemma TakeLostMoves(cfg: Config, s: State, worker: int, id: string)
    requires Inv(cfg, s)
    ensures var k, b := FindWorker(s.dead, worker), LifeOf(TakeLost(s, worker), id);
      if k.Some? && k.value.current == Some(id) && id in Ids(s.inFlight)
      then b == LifeOf(s, id).(stage := if k.value.stopped then Over else Handled(ByCrash))
      else b == LifeOf(s, id)
  {
    hide TasksOk, WorkersOk, Places, LifeOf, Popped, WithoutWorkers;
    var found := FindWorker(s.dead, worker);
    if found.Some? {
      var buried := Buried(s, found.value);
      SameTasksSameLives(s, buried, id);
      SameTasksKeepPlacesAndTasks(cfg, s, buried);
      var lost := if found.value.current == None then None else Find(s.inFlight, found.value.current.value);
      if lost.Some? {
        assert lost.value.id in Ids(s.inFlight);
        DropMoves(buried, lost.value, id);
        PopMoves(buried, lost.value, Held(lost.value, ByCrash), id);
      }
    }
  }

  lemma ConcludeMoves(cfg: Config, s: State, held: string, ok: bool, id: string)
    requires Inv(cfg, s) && held in s.held
    ensures LifeOf(Conclude(s, held, ok), id) ==
      if id == held then Life(Over, LifeOf(s, id).sends, Some(Finished(ok))) else LifeOf(s, id)
  {
    hide WorkersOk;
    assert TaskOk(cfg, s, held);
  }

  lemma RequeueMoves(s: State, id: string, other: string, store: Store)
    requires Places(s) && id in s.held
    ensures LifeOf(Requeued(s.(store := store), id, s.held[id].work), other) ==
      if other == id then LifeOf(s, id).(stage := Waiting) else LifeOf(s, other)
    ensures StageOf(s, id) == Handled(s.held[id].handler)
  {
    var w := Penalized(s.held[id].work);
    IdsAppend([w], s.pending);
    assert Ids([w]) == {id};
  }

  lemma FinishLostMoves(cfg: Config, s: State, a: Action, id: string)
    requires Inv(cfg, s) && a.AFinishLost?
    ensures Moves(a, id, LifeOf(s, id), LifeOf(Apply(cfg, s, a), id))
  {
    hide TasksOk, WorkersOk, Record, LifeOf, Conclude, Penalized;
    StageOfLife(s, id);
    if a.id in s.held && s.held[a.id].handler.ByCrash? {
      var w := s.held[a.id].work;
      RequeueMoves(s, a.id, id, Record(s.store, w.origin, Crashed(w.estimate.memory)));
      ConcludeMoves(cfg, s, a.id, false, id);
    }
  }

  lemma FinishResultMoves(cfg: Config, s: State, held: string, ok: bool, observation: Observation, id: string)
    requires Inv(cfg, s)
    ensures LifeOf(FinishResult(s, held, ok, observation), id) ==
      if id == held && StageOf(s, id) == Handled(ByResult) then Life(Over, LifeOf(s, id).sends, Some(Finished(ok)))
      else LifeOf(s, id)
  {
    hide Inv, LifeOf, Record, Conclude;
    InvPlaces(cfg, s);
    if held in s.held && s.held[held].handler.ByResult? {
      var store := Record(s.store, s.held[held].work.origin, Observed(observation));
      StoreIsIrrelevant(cfg, s, store);
      ConcludeMoves(cfg, s.(store := store), held, ok, id);
      SameTasksSameLives(s, s.(store := store), id);
    }
  }

  lemma FinishTimeoutMoves(cfg: Config, s: State, a: Action, id: string)
    requires Inv(cfg, s) && a.AFinishTimeout?
    ensures LifeOf(Apply(cfg, s, a), id) ==
      if id == a.id && StageOf(s, id) == Handled(ByTimeout) then Life(Over, LifeOf(s, id).sends, Some(Finished(false)))
      else LifeOf(s, id)
  {
    hide Inv, LifeOf, Conclude;
    InvPlaces(cfg, s);
    if a.id in s.held && s.held[a.id].handler.ByTimeout? {
      ConcludeMoves(cfg, s, a.id, false, id);
    }
  }

  // ----- a dispatch cycle -----

  lemma AbandonLeaves(cfg: Config, s: State, w: Work, id: string)
    requires Inv(cfg, s) && w in s.pending && !w.runningNotified && w.id in s.futures && s.futures[w.id].Cancelled?
    ensures var a, b := LifeOf(s, id), LifeOf(Abandoned(s, w), id);
      if id == w.id then Leaves(a, b) else b == a
  {
    hide TasksOk, WorkersOk;
    HandshakeNeverRaises(cfg, s, w);
    assert w.id in Ids(s.pending);
    WithoutKeepsDistinct(s.pending, {w.id});
  }

  lemma TakeOffLeaves(s: State, s': State, w: Work, sent: Work, id: string)
    requires Places(s) && TakesOff(s, s', w, sent)
    ensures id != w.id ==> LifeOf(s', id) == LifeOf(s, id)
    ensures StageOf(s, w.id) == Waiting && StageOf(s', w.id) == Flying
  {
    assert w.id in Ids(s.pending);
    WithoutKeepsDistinct(s.pending, {w.id});
    IdsAppend(s.inFlight, [sent]);
    assert Ids([sent]) == {w.id};
  }

  lemma SentOnceMore(cfg: Config, s: State, w: Work, gpu: Option<int>, k: int, now: real)
    requires w.id in s.futures && w.id in s.log && QueuedTask(cfg, w, s.futures[w.id], s.log[w.id])
    requires w.runningNotified || s.futures[w.id].Queued?
    ensures var s' := Sending(s, w, gpu, k, now);
      && w.id in s'.futures && s'.futures[w.id] == Running && (s.futures[w.id].Queued? || s.futures[w.id].Running?)
      && w.id in s'.log && s'.log[w.id].dispatches == s.log[w.id].dispatches + 1
  {
  }

  lemma SendLeaves(cfg: Config, s: State, w: Work, gpu: Option<int>, k: int, now: real, id: string)
    requires Inv(cfg, s) && w in s.pending
    requires w.runningNotified || (w.id in s.futures && s.futures[w.id].Queued?)
    ensures var a, b := LifeOf(s, id), LifeOf(Sending(s, w, gpu, k, now), id);
      if id == w.id then Leaves(a, b) else b == a
  {
    hide TasksOk, WorkersOk, Sending, TakesOff, StageOf, QueuedTask;
    HandshakeNeverRaises(cfg, s, w);
    SendingTakesOff(s, w, gpu, k, now);
    TakeOffLeaves(s, Sending(s, w, gpu, k, now), w, Started(w, gpu, k, now), id);
    SentOnceMore(cfg, s, w, gpu, k, now);
  }

  lemma ShipMoves(cfg: Config, s: State, d: Decision, alive: set<int>, now: real, id: string)
    requires Inv(cfg, s)
    ensures var a, b := LifeOf(s, id), LifeOf(Ship(cfg, s, d, alive, now), id);
      b == a || Leaves(a, b)
  {
    hide Inv, Ship, LifeOf, Leaves, Sending, Abandoned, SameTasks, HasIdle;
    var o := ShipOutcome(cfg, s, d, alive, now);
    if !o.Stayed? {
      SameTasksSameLives(s, o.acquired, id);
      SameQueue(s, o.acquired);
    }
    if o.Sent? {
      SendLeaves(cfg, o.acquired, o.work, d.gpu, o.worker, now, id);
    } else if o.Gone? {
      AbandonLeaves(cfg, o.acquired, o.work, id);
    }
  }

  /** What becomes of a planned task: without a worker it stays queued, a cancelled one leaves for
      good, and any other is sent. */
  lemma CarriedOutExactly(cfg: Config, s: State, d: Decision, alive: set<int>, now: real)
    requires Inv(cfg, s) && d.pendingId in Ids(s.pending) && d.pendingId in s.futures
    ensures StageOf(Ship(cfg, s, d, alive, now), d.pendingId) ==
      if |s.workers| >= cfg.maxWorkers && (forall k :: k in s.workers ==> !Idle(k, alive)) then Waiting
      else if s.futures[d.pendingId].Cancelled? then Over
      else Flying
  {
    hide Inv, Ship, Leaves, Sending, Abandoned, HasIdle, Acquire;
    var id := d.pendingId;
    BackpressureIsExact(cfg, s, d.gpu, alive);
    var o := ShipOutcome(cfg, s, d, alive, now);
    if !o.Stayed? { SameQueue(s, o.acquired); }
    if o.Sent? {
      HandshakeNeverRaises(cfg, o.acquired, o.work);
      TakenOff(cfg, o.acquired, o.work, d.gpu, o.worker, now);
    } else if o.Gone? {
      AbandonedIsOver(cfg, o.acquired, o.work);
    }
  }

  lemma TakenOff(cfg: Config, s: State, w: Work, gpu: Option<int>, k: int, now: real)
    requires Inv(cfg, s) && w in s.pending
    ensures StageOf(Sending(s, w, gpu, k, now), w.id) == Flying
  {
    hide TasksOk, WorkersOk, Sending;
    SendingTakesOff(s, w, gpu, k, now);
    TakeOffLeaves(s, Sending(s, w, gpu, k, now), w, Started(w, gpu, k, now), w.id);
  }

  lemma AbandonedIsOver(cfg: Config, s: State, w: Work)
    requires Inv(cfg, s) && w in s.pending
    ensures StageOf(Abandoned(s, w), w.id) == Over
  {
    hide TasksOk, WorkersOk;
    HandshakeFrame(s, w);
    hide Handshake;
    assert w.id in Ids(s.pending);
    WithoutKeepsDistinct(s.pending, {w.id});
  }

  lemma SameQueue(s: State, s': State)
    requires SameTasks(s, s')
    ensures s'.pending == s.pending && s'.futures == s.futures
  {
  }

  lemma {:induction false} ShipAllMoves(cfg: Config, s: State, decisions: seq<Decision>, env: Env, id: string)
    requires Inv(cfg, s)
    ensures var a, b := LifeOf(s, id), LifeOf(ShipAll(cfg, s, decisions, env), id);
      b == a || Leaves(a, b)
  {
    hide Inv, Ship, LifeOf;
    if decisions != [] {
      var n := |decisions| - 1;
      ShipAllMoves(cfg, s, decisions[..n], env, id);
      ShipAllKeepsInv(cfg, s, decisions[..n], env);
      ShipMoves(cfg, ShipAll(cfg, s, decisions[..n], env), decisions[n], AliveAt(env, n), env.now, id);
    }
  }

  lemma RewrittenQueueSameLives(s: State, ws: seq<Work>, id: string)
    requires SameOrder(s.pending, ws)
    ensures LifeOf(s.(pending := ws), id) == LifeOf(s, id)
  {
    SameOrderSameIds(s.pending, ws);
  }

  lemma RewrittenFlightSameLives(s: State, ws: seq<Work>, id: string)
    requires SameOrder(s.inFlight, ws)
    ensures LifeOf(s.(inFlight := ws), id) == LifeOf(s, id)
  {
    SameOrderSameIds(s.inFlight, ws);
  }

  lemma SeenMoves(cfg: Config, s: State, env: Env, id: string)
    requires Inv(cfg, s)
    ensures var a, b := LifeOf(s, id), LifeOf(Prepared(cfg, s, env), id);
      b == a || (a.stage == Waiting && b == Life(Over, a.sends, Failed(a.future)))
    ensures LifeOf(Seen(cfg, s, env), id) == LifeOf(Prepared(cfg, s, env), id)
  {
    hide TasksOk, WorkersOk, Places, LifeOf, Expel;
    var queue := s.(pending := ReestimateAll(cfg, s.store, env.now, s.pending));
    RewrittenQueueSameLives(s, queue.pending, id);
    QueuePlaces(s, queue.pending);
    ExpelMoves(cfg, queue, InfeasibleIds(cfg, env.sweep, queue.pending), id);
    WaitingInQueue(queue, id);
    var ready := Prepared(cfg, s, env);
    var observed := ready.(inFlight := ObserveAll(env.readings, ready.inFlight));
    RewrittenFlightSameLives(ready, observed.inFlight, id);
    RewrittenQueueSameLives(observed, StampAll(ready.store, ready.pending), id);
  }

  lemma QueuePlaces(s: State, ws: seq<Work>)
    requires Places(s) && SameOrder(s.pending, ws)
    ensures Places(s.(pending := ws))
  {
    SameOrderSameIds(s.pending, ws);
  }

  lemma WaitingInQueue(s: State, id: string)
    ensures id in Ids(s.pending) <==> LifeOf(s, id).stage == Waiting
  {
  }

  lemma DispatchMoves(cfg: Config, s: State, env: Env, id: string)
    requires Inv(cfg, s)
    ensures Moves(ADispatch(env), id, LifeOf(s, id), LifeOf(Dispatch(cfg, s, env), id))
  {
    hide Inv, LifeOf, PlanOf, ShipAll, Prepared, Surveyed, Failed;
    if s.pending != [] {
      SeenMoves(cfg, s, env, id);
      if Prepared(cfg, s, env).pending != [] {
        var seen := Seen(cfg, s, env);
        var plan := PlanOf(cfg, seen, env);
        SeenKeepsInv(cfg, s, env);
        IndexIsIrrelevant(cfg, seen, plan.rr);
        SameTasksSameLives(seen, seen.(nextGpu := plan.rr), id);
        ShipAllMoves(cfg, seen.(nextGpu := plan.rr), Decisions(plan.admitted), env, id);
      }
    }
  }

  /** What taking a task out of flight does to a task. */
  lemma TakingMoves(cfg: Config, s: State, a: Action, id: string)
    requires Inv(cfg, s) && (a.ATakeResult? || a.ATakeTimeout? || a.ATakeLost?)
    ensures Moves(a, id, LifeOf(s, id), LifeOf(Apply(cfg, s, a), id))
  {
    InvPlaces(cfg, s);
    hide Inv, Places, LifeOf, StageOf, TakeResult, TakeTimeout, TakeLost;
    FlyingInTable(s, id);
    match a
    case ATakeResult(taken, worker) => TakeResultMoves(cfg, s, taken, worker, id);
    case ATakeTimeout(taken) => TakeTimeoutMoves(cfg, s, taken, id);
    case ATakeLost(worker) => TakeLostMoves(cfg, s, worker, id);
  }

  /** What a handler letting go of a task does to a task. */
  lemma FinishingMoves(cfg: Config, s: State, a: Action, id: string)
    requires Inv(cfg, s) && (a.AFinishResult? || a.AFinishTimeout? || a.AFinishLost?)
    ensures Moves(a, id, LifeOf(s, id), LifeOf(Apply(cfg, s, a), id))
  {
    hide Inv, LifeOf, StageOf, FinishResult, FinishLost, FinishTimeout;
    StageOfLife(s, id);
    match a
    case AFinishResult(held, ok, observation) => FinishResultMoves(cfg, s, held, ok, observation, id);
    case AFinishTimeout(_) => FinishTimeoutMoves(cfg, s, a, id);
    case AFinishLost(_, _) => FinishLostMoves(cfg, s, a, id);
  }

  /** Whatever step is taken, by whatever thread, a task makes one of the listed moves or none. */
  lemma EveryStepMoves(cfg: Config, s: State, a: Action, id: string)
    requires Inv(cfg, s)
    ensures Moves(a, id, LifeOf(s, id), LifeOf(Apply(cfg, s, a), id))
  {
    hide Inv, LifeOf, Moves;
    match a
    case ASubmit(_, _, _, _, _) => SubmitMoves(cfg, s, a, id);
    case ACancel(_) => CancelMoves(cfg, s, a, id);
    case ADispatch(env) => DispatchMoves(cfg, s, env, id);
    case ACheckWorkers(_) => UnmovedSteps(cfg, s, a, id);
    case AFailPending => UnmovedSteps(cfg, s, a, id);
    case AStopAll => UnmovedSteps(cfg, s, a, id);
    case ATakeResult(_, _) => TakingMoves(cfg, s, a, id);
    case ATakeTimeout(_) => TakingMoves(cfg, s, a, id);
    case ATakeLost(_) => TakingMoves(cfg, s, a, id);
    case _ => FinishingMoves(cfg, s, a, id);
  }

  lemma UnmovedSteps(cfg: Config, s: State, a: Action, id: string)
    requires Inv(cfg, s) && (a.ACheckWorkers? || a.AFailPending? || a.AStopAll?)
    ensures Moves(a, id, LifeOf(s, id), LifeOf(Apply(cfg, s, a), id))
  {
    InvPlaces(cfg, s);
    hide Inv, Places, LifeOf, Expel, Failed;
    match a
    case ACheckWorkers(gone) => SameTasksSameLives(s, CheckWorkers(s, gone), id);
    case AStopAll => SameTasksSameLives(s, StopAll(s), id);
    case AFailPending =>
      ExpelMoves(cfg, s, Ids(s.pending), id);
      WaitingInQueue(s, id);
  }

  lemma StageOfLife(s: State, id: string)
    ensures LifeOf(s, id).stage == StageOf(s, id)
  {
  }

  lemma FlyingInTable(s: State, id: string)
    requires Places(s)
    ensures id in Ids(s.inFlight) <==> LifeOf(s, id).stage == Flying
  {
  }

  // ----- how many moves -----

  /** How many moves a task has left at most. */
  function MovesLeft(cfg: Config, a: Life): int {
    match a.stage
    case Nowhere => 3 * (cfg.maxRetries + 1) + 1
    case Waiting => 3 * (cfg.maxRetries + 1 - a.sends)
    case Flying => 3 * (cfg.maxRetries + 1 - a.sends) + 2
    case Handled(_) => 3 * (cfg.maxRetries + 1 - a.sends) + 1
    case Over => 0
  }

  /** Retries bound how often a task was sent, wherever it is. */
  lemma SendsAreBounded(cfg: Config, s: State, id: string)
    requires Inv(cfg, s)
    ensures var a := LifeOf(s, id);
      && a.sends <= cfg.maxRetries + 1 && (a.stage == Waiting ==> a.sends <= cfg.maxRetries)
      && (a.stage == Nowhere ==> a.sends == 0) && MovesLeft(cfg, a) >= 0
  {
    if id in s.futures {
      assert TaskOk(cfg, s, id);
    }
  }

  /** Termination of crash retries: every move of a task, of whatever kind, uses up rank, and
      a task that does not move loses none. */
  lemma EveryMoveDescends(cfg: Config, s: State, a: Action, id: string)
    requires Inv(cfg, s)
    ensures var x, y := LifeOf(s, id), LifeOf(Apply(cfg, s, a), id);
      0 <= MovesLeft(cfg, y) <= MovesLeft(cfg, x) - (if x.stage == y.stage then 0 else 1)
  {
    hide Inv, LifeOf, Apply;
    EveryStepMoves(cfg, s, a, id);
    ApplyKeepsInv(cfg, s, a);
    SendsAreBounded(cfg, s, id);
    SendsAreBounded(cfg, Apply(cfg, s, a), id);
  }

  /** How often a task changes place along a run. */
  function MoveCount(cfg: Config, s: State, acts: seq<Action>, id: string): nat {
    if acts == [] then 0
    else
      var pre := acts[..|acts| - 1];
      MoveCount(cfg, s, pre, id) + One(StageOf(RunFrom(cfg, s, pre), id) != StageOf(RunFrom(cfg, s, acts), id))
  }

  lemma {:induction false} MovesUseRank(cfg: Config, s: State, acts: seq<Action>, id: string)
    requires Inv(cfg, s)
    ensures MoveCount(cfg, s, acts, id) + MovesLeft(cfg, LifeOf(RunFrom(cfg, s, acts), id))
            <= MovesLeft(cfg, LifeOf(s, id))
  {
    hide Inv, LifeOf, Apply, MovesLeft, StageOf;
    if acts != [] {
      var pre := acts[..|acts| - 1];
      MovesUseRank(cfg, s, pre, id);
      RunKeepsInv(cfg, s, pre);
      EveryMoveDescends(cfg, RunFrom(cfg, s, pre), acts[|acts| - 1], id);
      StageOfLife(RunFrom(cfg, s, pre), id);
      StageOfLife(RunFrom(cfg, s, acts), id);
    }
  }

  /** No run moves a task more than 3r + 4 times, or sends it more than r + 1 times, for r
      allowed crash retries. */
  lemma TasksMoveBoundedly(cfg: Config, acts: seq<Action>, id: string)
    requires cfg.maxWorkers >= 1
    ensures MoveCount(cfg, INITIAL, acts, id) <= 3 * cfg.maxRetries + 4
    ensures LifeOf(StateAfter(cfg, acts), id).sends <= cfg.maxRetries + 1
  {
    InitiallyInv(cfg);
    RunKeepsInv(cfg, INITIAL, acts);
    MovesUseRank(cfg, INITIAL, acts, id);
    SendsAreBounded(cfg, StateAfter(cfg, acts), id);
  }

  // ----- delivered results are final -----

  /** A settled task stays settled, with the future it has. */
  lemma {:induction false} OverIsForever(cfg: Config, s: State, acts: seq<Action>, id: string)
    requires Inv(cfg, s) && StageOf(s, id) == Over
    ensures LifeOf(RunFrom(cfg, s, acts), id) == LifeOf(s, id)
  {
    hide Inv, Apply;
    if acts != [] {
      var pre := acts[..|acts| - 1];
      OverIsForever(cfg, s, pre, id);
      RunKeepsInv(cfg, s, pre);
      EveryStepMoves(cfg, RunFrom(cfg, s, pre), acts[|acts| - 1], id);
    }
  }

  /** What the first `AFinishResult` for `id` says. */
  function FirstVerdict(acts: seq<Action>, id: string): Option<bool> {
    if acts == [] then None
    else
      var earlier, last := FirstVerdict(acts[..|acts| - 1], id), acts[|acts| - 1];
      if earlier.Some? then earlier
      else if last.AFinishResult? && last.id == id then Some(last.ok)
      else None
  }

  /** A result taken from a worker's queue is final: whatever happens afterwards, be it a
      timeout, the worker's death, cancellation or shutdown, the task is never queued, sent or
      failed again, and its future ends with exactly that result. */
  lemma {:induction false} TakenResultIsFinal(cfg: Config, s: State, acts: seq<Action>, id: string)
    requires Inv(cfg, s) && StageOf(s, id) == Handled(ByResult)
    ensures LifeOf(RunFrom(cfg, s, acts), id) ==
      match FirstVerdict(acts, id)
      case None => LifeOf(s, id)
      case Some(ok) => Life(Over, LifeOf(s, id).sends, Some(Finished(ok)))
  {
    hide Inv, Apply, LifeOf;
    if acts != [] {
      var pre := acts[..|acts| - 1];
      var mid := RunFrom(cfg, s, pre);
      TakenResultIsFinal(cfg, s, pre, id);
      RunKeepsInv(cfg, s, pre);
      StageOfLife(s, id);
      EveryStepMoves(cfg, mid, acts[|acts| - 1], id);
    }
  }

  // ----- futures settle once -----

  /** A done future belongs to a settled task, or to a cancelled one still in the queue. */
  lemma DoneIsSettledOrCancelled(cfg: Config, s: State, id: string)
    requires Inv(cfg, s) && id in s.futures && Done(s.futures[id])
    ensures var a := LifeOf(s, id);
      (a.stage == Over && id in s.finished) || (a.stage == Waiting && a.future == Some(Cancelled))
  {
    assert TaskOk(cfg, s, id);
  }

  /** A done future never changes again, but that a cancelled one is noticed, and its task is
      never sent again: a cancelled task never runs, and nothing settles twice. */
  lemma {:induction false} DoneIsForever(cfg: Config, s: State, acts: seq<Action>, id: string)
    requires Inv(cfg, s) && id in s.futures && Done(s.futures[id])
    ensures var a, b := LifeOf(s, id), LifeOf(RunFrom(cfg, s, acts), id);
      && b.sends == a.sends
      && (b.future == a.future || (a.future == Some(Cancelled) && b.future == Some(CancelledNotified)))
  {
    hide Inv, Apply;
    if acts != [] {
      var pre := acts[..|acts| - 1];
      var mid := RunFrom(cfg, s, pre);
      DoneIsForever(cfg, s, pre, id);
      RunKeepsInv(cfg, s, pre);
      DoneIsSettledOrCancelled(cfg, mid, id);
      EveryStepMoves(cfg, mid, acts[|acts| - 1], id);
    }
  }

  // ----- a crash teaches -----

  lemma RecordedCrashFloors(store: Store, o: Origin, gb: real)
    ensures var p := Stores.Select(Record(store, o, Crashed(gb)), o).0; p.floor.Some? && p.floor.value >= gb
  {
    var store' := Record(store, o, Crashed(gb));
    RecordWritesBoth(store, o, Crashed(gb), BaseKey(o));
    if o.profileKey.Some? { RecordWritesBoth(store, o, Crashed(gb), KeyedKey(o)); }
  }

  /** After an OOM-like crash no task of the same function and bucket is estimated below what the
      crashed task was admitted with, whatever the hints. */
  lemma CrashTeaches(cfg: Config, s: State, id: string, exitCode: Option<int>,
                     memoryHint: Option<real>, vramHint: Option<real>)
    requires id in s.held && s.held[id].handler.ByCrash? && s.held[id].work.retries < cfg.maxRetries
    requires LooksLikeOom(exitCode)
    ensures var w := s.held[id].work;
      var store := FinishLost(cfg, s, id, exitCode).store;
      EstimateFrom(Stores.Select(store, w.origin).0, memoryHint, vramHint).memory >= w.estimate.memory
  {
    var w := s.held[id].work;
    RecordedCrashFloors(s.store, w.origin, w.estimate.memory);
    var store := Record(s.store, w.origin, Crashed(w.estimate.memory));
    EstimateRespectsFloor(Stores.Select(store, w.origin).0, memoryHint, vramHint);
    hide Record, EstimateFrom, Stores.Select, Penalized;
  }

  // ----- warm identities stay warm -----

  /** A key of the profile store with observations. */
  predicate Warm(store: Store, key: string) {
    Lookup(store, key).observations != []
  }

  lemma RecordKeepsKeyWarm(store: Store, at: Origin, e: Event, key: string)
    requires Warm(store, key)
    ensures Warm(Record(store, at, e), key)
  {
    RecordWritesBoth(store, at, e, key);
    StepKeepsWarm(Lookup(store, key), e);
  }

  lemma SpawningKeepsStore(s: State, pin: Option<int>, victim: Worker)
    ensures Spawn(s, pin).store == s.store && Retire(s, victim).store == s.store
  {
    hide WithoutWorkers;
  }

  lemma AcquireKeepsStore(cfg: Config, s: State, pin: Option<int>, alive: set<int>)
    ensures var r := Acquire(cfg, s, pin, alive); r.Some? ==> r.value.1.store == s.store
  {
    hide FirstIdle, Spawn, Retire;
    var victim := FirstIdle(s.workers, alive, true, None);
    var nobody := Worker(0, None, None, false, false, 0);
    SpawningKeepsStore(s, pin, if victim.Some? then victim.value else nobody);
    if victim.Some? { SpawningKeepsStore(Retire(s, victim.value), pin, nobody); }
  }

  lemma SendingKeepsStore(s: State, w: Work, gpu: Option<int>, k: int, now: real)
    ensures Send(Handshake(s, w), w, gpu, k, now).store == s.store && Handshake(s, w).store == s.store
  {
    hide Without, Replace, FindWorker;
  }

  lemma ShipKeepsStore(cfg: Config, s: State, d: Decision, alive: set<int>, now: real)
    ensures Ship(cfg, s, d, alive, now).store == s.store
  {
    hide Acquire, Handshake, Send, Find, Without;
    var found, acquired := Find(s.pending, d.pendingId), Acquire(cfg, s, d.gpu, alive);
    if found.Some? && acquired.Some? {
      AcquireKeepsStore(cfg, s, d.gpu, alive);
      SendingKeepsStore(acquired.value.1, found.value, d.gpu, acquired.value.0, now);
    }
  }

  lemma {:induction false} ShipAllKeepsStore(cfg: Config, s: State, decisions: seq<Decision>, env: Env)
    ensures ShipAll(cfg, s, decisions, env).store == s.store
  {
    hide Ship;
    if decisions != [] {
      var n := |decisions| - 1;
      ShipAllKeepsStore(cfg, s, decisions[..n], env);
      ShipKeepsStore(cfg, ShipAll(cfg, s, decisions[..n], env), decisions[n], AliveAt(env, n), env.now);
    }
  }

  lemma DispatchKeepsStore(cfg: Config, s: State, env: Env)
    ensures Dispatch(cfg, s, env).store == s.store
  {
    hide ShipAll, PlanOf, Prepared;
    PreparedKeepsStore(cfg, s, env);
    var seen := Seen(cfg, s, env);
    var plan := PlanOf(cfg, seen, env);
    ShipAllKeepsStore(cfg, seen.(nextGpu := plan.rr), Decisions(plan.admitted), env);
  }

  /** Only a finished result or a lost task writes to the profile store. */
  lemma StoreChanges(cfg: Config, s: State, a: Action)
    ensures var store := Apply(cfg, s, a).store;
      || store == s.store
      || (a.AFinishResult? && a.id in s.held
          && store == Record(s.store, s.held[a.id].work.origin, Observed(a.observation)))
      || (a.AFinishLost? && a.id in s.held
          && store == Record(s.store, s.held[a.id].work.origin, Crashed(s.held[a.id].work.estimate.memory)))
  {
    hide Dispatch, TakeResult, TakeTimeout, TakeLost, FinishResult, FinishLost, FinishTimeout;
    hide Expel, CheckWorkers, StopAll, Submit;
    match a
    case ADispatch(env) => DispatchKeepsStore(cfg, s, env);
    case ATakeResult(id, worker) => TakeResultKeepsStore(cfg, s, id, worker);
    case ATakeTimeout(id) => TakeTimeoutKeepsStore(cfg, s, id);
    case ATakeLost(worker) => TakeLostKeepsStore(s, worker);
    case AFinishResult(id, ok, observation) => FinishResultWrites(cfg, s, id, ok, observation);
    case AFinishLost(id, exitCode) => FinishLostWrites(cfg, s, id, exitCode);
    case _ => PlainStepsKeepStore(cfg, s, a);
  }

  lemma PlainStepsKeepStore(cfg: Config, s: State, a: Action)
    requires a.ASubmit? || a.ACancel? || a.AFinishTimeout? || a.ACheckWorkers? || a.AFailPending? || a.AStopAll?
    ensures Apply(cfg, s, a).store == s.store
  {
    hide Without, WithoutWorkers, Replace;
  }

  lemma TakeTimeoutKeepsStore(cfg: Config, s: State, id: string)
    ensures TakeTimeout(cfg, s, id).store == s.store
  {
    hide Find, FindWorker, Without, WithoutWorkers, Replace;
  }

  lemma TakeLostKeepsStore(s: State, worker: int)
    ensures TakeLost(s, worker).store == s.store
  {
    hide TakeLost;
    TakeLostFrame(s, worker);
  }

  lemma ConcludeKeepsStore(s: State, id: string, ok: bool)
    ensures Conclude(s, id, ok).store == s.store
  {
  }

  lemma FinishResultWrites(cfg: Config, s: State, id: string, ok: bool, observation: Observation)
    ensures var store := FinishResult(s, id, ok, observation).store;
      store == s.store || (id in s.held && store == Record(s.store, s.held[id].work.origin, Observed(observation)))
  {
    hide Conclude, Record;
    if id in s.held {
      ConcludeKeepsStore(s.(store := Record(s.store, s.held[id].work.origin, Observed(observation))), id, ok);
    }
  }

  lemma FinishLostWrites(cfg: Config, s: State, id: string, exitCode: Option<int>)
    ensures var store := FinishLost(cfg, s, id, exitCode).store;
      || store == s.store
      || (id in s.held && store == Record(s.store, s.held[id].work.origin, Crashed(s.held[id].work.estimate.memory)))
  {
    hide Conclude, Record, Penalized;
    ConcludeKeepsStore(s, id, false);
  }

  lemma PreparedKeepsStore(cfg: Config, s: State, env: Env)
    ensures Prepared(cfg, s, env).store == s.store
  {
  }

  lemma TakeResultKeepsStore(cfg: Config, s: State, id: string, worker: int)
    ensures TakeResult(cfg, s, id, worker).store == s.store
  {
    hide FreeWorker, SameTasks, OnlyPoolChanges;
    var found := Find(s.inFlight, id);
    FreeWorkerKeepsTasks(cfg, s, id, worker);
    if found.Some? {
      FreeWorkerKeepsTasks(cfg, Popped(s, found.value, Held(found.value, ByResult)), id, worker);
      FreeWorkerKeepsTasks(cfg, s.(inFlight := Without(s.inFlight, {id}), finished := s.finished + {id}), id, worker);
    }
  }

  /** An identity that has become warm never becomes cold again, in any run. */
  lemma {:induction false} WarmIsForever(cfg: Config, s: State, acts: seq<Action>, key: string)
    requires Warm(s.store, key)
    ensures Warm(RunFrom(cfg, s, acts).store, key)
  {
    hide Apply, Record, Warm;
    if acts != [] {
      var pre := acts[..|acts| - 1];
      var mid := RunFrom(cfg, s, pre);
      WarmIsForever(cfg, s, pre, key);
      var a := acts[|acts| - 1];
      StoreChanges(cfg, mid, a);
      if a.AFinishResult? && a.id in mid.held {
        RecordKeepsKeyWarm(mid.store, mid.held[a.id].work.origin, Observed(a.observation), key);
      } else if a.AFinishLost? && a.id in mid.held {
        RecordKeepsKeyWarm(mid.store, mid.held[a.id].work.origin, Crashed(mid.held[a.id].work.estimate.memory), key);
      }
    }
  }
}
