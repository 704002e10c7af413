/** What a result, a timeout or a crash leaves behind: in the profile store, in the queue and in the pool. */
module Outcomes {
  import opened Quantities
  import opened Profiles
  import opened Stores
  import opened Planning
  import opened ExecutorState
  import opened ExecutorInvariants
  import opened ExecutorDispatch
  import opened ExecutorRuns
  import opened ExecutorProgress

  // ----- what is learned -----

  /** `e` reached the aggregate of `o` and, if it has one, its bucket, and no other profile changed. */
  ghost predicate Learned(before: Store, after: Store, o: Origin, e: Event) {
    forall key :: Lookup(after, key) ==
      if key == BaseKey(o) || (o.profileKey.Some? && key == KeyedKey(o))
      then Step(Lookup(before, key), e) else Lookup(before, key)
  }

  lemma RecordTeaches(store: Store, o: Origin, e: Event)
    ensures Learned(store, Record(store, o, e), o, e)
  {
    hide Record, Step;
    forall key ensures Lookup(Record(store, o, e), key) ==
      if key == BaseKey(o) || (o.profileKey.Some? && key == KeyedKey(o))
      then Step(Lookup(store, key), e) else Lookup(store, key)
    {
      RecordWritesBoth(store, o, e, key);
    }
  }

  lemma ConcludeLearnsNothing(s: State, id: string, ok: bool)
    ensures Conclude(s, id, ok).store == s.store
  {
  }

  /** The observation of a result that is taken, good or bad, reaches the aggregate and the bucket of its
      task, where it is the last; a result nobody holds teaches nothing. */
  lemma ResultTeaches(s: State, id: string, ok: bool, observation: Observation)
    ensures var s' := FinishResult(s, id, ok, observation);
      if id in s.held && s.held[id].handler.ByResult?
      then
        var o := s.held[id].work.origin;
        var seen := Lookup(s'.store, BaseKey(o)).observations;
        && Learned(s.store, s'.store, o, Observed(observation))
        && seen != [] && seen[|seen| - 1] == observation
      else s' == s
  {
    if id in s.held && s.held[id].handler.ByResult? {
      var o := s.held[id].work.origin;
      var store := Record(s.store, o, Observed(observation));
      ConcludeLearnsNothing(s.(store := store), id, ok);
      RecordTeaches(s.store, o, Observed(observation));
      AddedIsLast(Lookup(s.store, BaseKey(o)), observation);
      hide Conclude, Record, Add;
    }
  }

  // ----- crashes -----

  /** A crash by SIGKILL within the allowed retries puts the task back at the very front, alone, with
      memory and VRAM doubled, at least one core and no expected duration, and its profile learns the
      memory it was admitted with; any other crash fails it. */
  lemma CrashDecides(cfg: Config, s: State, id: string, exitCode: Option<int>)
    requires Inv(cfg, s) && id in s.held && s.held[id].handler.ByCrash?
    ensures var s', w := FinishLost(cfg, s, id, exitCode), s.held[id].work;
      if w.retries < cfg.maxRetries && (exitCode == Some(-9) || exitCode == Some(137))
      then
        && Learned(s.store, s'.store, w.origin, Crashed(w.estimate.memory))
        && |s'.pending| == |s.pending| + 1 && s'.pending[1..] == s.pending
        && SecondChance(w, s'.pending[0])
      else s'.pending == s.pending && s'.store == s.store && id in s'.finished && s'.futures[id] == Finished(false)
  {
    var w := s.held[id].work;
    MayTryAgain(cfg, s, id);
    RecordTeaches(s.store, w.origin, Crashed(w.estimate.memory));
    ConcludeLearnsNothing(s, id, false);
    hide Record, Penalized, SecondChance, Inv, Learned;
  }

  lemma MayTryAgain(cfg: Config, s: State, id: string)
    requires Inv(cfg, s) && id in s.held && s.held[id].handler.ByCrash?
    ensures id in s.futures && s.futures[id] == Running
    ensures SecondChance(s.held[id].work, Penalized(s.held[id].work))
  {
    assert TaskOk(cfg, s, id);
    hide Inv;
  }

  /** `again` is `w` queued once more after a crash. */
  ghost predicate SecondChance(w: Work, again: Work) {
    && again.id == w.id && again.origin == w.origin && again.retries == w.retries + 1 && again.exclusive
    && again.memoryHint == w.memoryHint && again.vramHint == w.vramHint
    && again.estimate.memory == 2.0 * w.estimate.memory && again.estimate.vram == 2.0 * w.estimate.vram
    && again.estimate.cpu == (if w.estimate.cpu < 1.0 then 1.0 else w.estimate.cpu)
    && again.estimate.duration == None && again.estimate.confidence == w.estimate.confidence
    && again.gpu == None && again.worker == None && again.startedAt == None
    && again.observedMemory == 0.0 && again.observedVram == 0.0 && again.runningNotified == w.runningNotified
  }

  // ----- timeouts -----

  /** A timeout of a task in flight on a worker of the pool.  If timed-out workers are killed, the worker
      leaves the pool poisoned, off every task; if not, it stays in the pool, off the task, fit for
      another.  Either way nobody else leaves. */
  lemma TimeoutDecides(cfg: Config, s: State, w: Work, k: Worker)
    requires Inv(cfg, s) && w in s.inFlight && k in s.workers && w.worker == Some(k.id)
    ensures var s' := TakeTimeout(cfg, s, w.id);
      && w.id in s'.held && s'.held[w.id].handler == ByTimeout
      && (if cfg.killOnTimeout
          then k.id !in WorkerIds(s'.workers) && k.(stopped := true, poisoned := true, current := None) in s'.retiring
          else k.(current := None) in s'.workers && s'.retiring == s.retiring && s'.held[w.id].work.resultIgnored)
      && (forall j :: j in s.workers && j.id != k.id ==> j in s'.workers)
  {
    FindsIt(cfg, s, w);
    FindsWorker(cfg, s, k);
    IsOn(cfg, s, w, k);
    NeverIgnored(cfg, s, w);
    NotDoneInFlight(cfg, s, w);
    var popped := Popped(s, w, Held(if cfg.killOnTimeout then w else w.(resultIgnored := true), ByTimeout));
    TimeoutBranches(cfg, s, w, k);
    TakenOut(s, w, Held(if cfg.killOnTimeout then w else w.(resultIgnored := true), ByTimeout));
    hide Inv, TakeTimeout, Popped, Poison, PutBack, NoDupWorkers;
    PoisonedLeaves(popped, k);
    ReplacedStays(popped, k, k.(current := None));
  }

  lemma TakenOut(s: State, w: Work, held: Held)
    ensures var s' := Popped(s, w, held);
      && s'.workers == s.workers && s'.retiring == s.retiring && w.id in s'.held && s'.held[w.id] == held
  {
    hide Without;
  }

  lemma TimeoutBranches(cfg: Config, s: State, w: Work, k: Worker)
    requires Find(s.inFlight, w.id) == Some(w) && w.worker == Some(k.id) && FindWorker(s.workers, k.id) == Some(k)
    requires k.current == Some(w.id) && w.id in s.futures && !Done(s.futures[w.id])
    ensures var popped := Popped(s, w, Held(if cfg.killOnTimeout then w else w.(resultIgnored := true), ByTimeout));
      TakeTimeout(cfg, s, w.id) == if cfg.killOnTimeout then Poison(popped, k) else PutBack(popped, k.(current := None))
  {
    hide Find, FindWorker, Popped, Poison, PutBack;
  }

  lemma PoisonedLeaves(s: State, k: Worker)
    ensures var s' := Poison(s, k);
      && k.id !in WorkerIds(s'.workers) && k.(stopped := true, poisoned := true, current := None) in s'.retiring
      && s'.held == s.held && (forall j :: j in s.workers && j.id != k.id ==> j in s'.workers)
  {
    LeavesPool(s.workers, k);
    hide WithoutWorkers;
    assert s.retiring + [k.(stopped := true, poisoned := true, current := None)] == Poison(s, k).retiring;
  }

  lemma LeavesPool(ks: seq<Worker>, k: Worker)
    ensures var left := WithoutWorkers(ks, {k.id});
      k.id !in WorkerIds(left) && forall j :: j in ks && j.id != k.id ==> j in left
  {
  }

  lemma ReplacedStays(s: State, k: Worker, k': Worker)
    requires NoDupWorkers(s.workers) && k in s.workers && k'.id == k.id
    ensures var s' := PutBack(s, k');
      && k' in s'.workers && s'.retiring == s.retiring && s'.held == s.held
      && (forall j :: j in s.workers && j.id != k.id ==> j in s'.workers)
  {
    Replaced(s.workers, k, k');
    hide Replace;
  }

  lemma FindsIt(cfg: Config, s: State, w: Work)
    requires Inv(cfg, s) && w in s.inFlight
    ensures Find(s.inFlight, w.id) == Some(w)
  {
    assert w.id in Ids(s.inFlight);
    SameIdSameWork(s.inFlight, w, Find(s.inFlight, w.id).value);
  }

  lemma FindsWorker(cfg: Config, s: State, k: Worker)
    requires Inv(cfg, s) && k in s.workers
    ensures FindWorker(s.workers, k.id) == Some(k) && NoDupWorkers(s.workers)
  {
    assert k.id in WorkerIds(s.workers);
    SameIdSameWorker(s.workers, k, FindWorker(s.workers, k.id).value);
  }

  lemma IsOn(cfg: Config, s: State, w: Work, k: Worker)
    requires Inv(cfg, s) && w in s.inFlight && k in s.workers && w.worker == Some(k.id)
    ensures k.current == Some(w.id)
  {
    hide TasksOk;
    var j := CarrierOf(cfg, s, w);
    assert k in Carriers(s);
    SameCarrier(cfg, s, j, k);
  }

  lemma NotDoneInFlight(cfg: Config, s: State, w: Work)
    requires Inv(cfg, s) && w in s.inFlight
    ensures w.id in s.futures && !Done(s.futures[w.id])
  {
    assert w.id in Ids(s.inFlight) && TaskOk(cfg, s, w.id);
  }

  lemma Replaced(ks: seq<Worker>, k: Worker, k': Worker)
    requires NoDupWorkers(ks) && k in ks && k'.id == k.id
    ensures k' in Replace(ks, k') && forall j :: j in ks && j.id != k.id ==> j in Replace(ks, k')
  {
    ReplaceFacts(ks, k, k');
  }

  // ----- results and the pool -----

  /** A worker whose result is handled has handled one more.  It stays in the pool, free, as long as that
      is below its allowance or it has been told to stop, and otherwise leaves the pool, stopped; nobody
      else changes. */
  lemma FreedExactly(cfg: Config, s: State, k: Worker, id: string)
    requires Inv(cfg, s) && k in s.workers && k.current == Some(id)
    ensures var s' := FreeWorker(cfg, s, id, k.id);
      var freed := k.(current := None, tasksCompleted := k.tasksCompleted + 1);
      && (if cfg.recycleAfter.Some? && freed.tasksCompleted >= cfg.recycleAfter.value && !k.stopped
          then k.id !in WorkerIds(s'.workers) && s'.retiring == s.retiring + [freed.(stopped := true)]
          else freed in s'.workers && s'.retiring == s.retiring)
      && (forall j :: j in s.workers && j.id != k.id ==> j in s'.workers)
  {
    var freed := k.(current := None, tasksCompleted := k.tasksCompleted + 1);
    FindsWorker(cfg, s, k);
    FreedBranches(cfg, s, k, id);
    LeavesPool(s.workers, freed);
    hide Inv, FreeWorker, PutBack, WithoutWorkers, NoDupWorkers;
    ReplacedStays(s, k, freed);
  }

  /** A result frees the worker it names if that is on the task, whether the task is still in flight or the
      result is stale: the pool is left as by `FreedExactly`. */
  lemma ResultFreesWorker(cfg: Config, s: State, k: Worker, id: string)
    requires Inv(cfg, s) && k in s.workers && k.current == Some(id)
    ensures var s' := TakeResult(cfg, s, id, k.id);
      var freed := k.(current := None, tasksCompleted := k.tasksCompleted + 1);
      && (if cfg.recycleAfter.Some? && freed.tasksCompleted >= cfg.recycleAfter.value && !k.stopped
          then k.id !in WorkerIds(s'.workers) && s'.retiring == s.retiring + [freed.(stopped := true)]
          else freed in s'.workers && s'.retiring == s.retiring)
      && (forall j :: j in s.workers && j.id != k.id ==> j in s'.workers)
  {
    FindsWorker(cfg, s, k);
    FreedExactly(cfg, s, k, id);
    hide Inv;
    FreedBranches(cfg, s, k, id);
    var found := Find(s.inFlight, id);
    if found.Some? {
      FreedBranches(cfg, Popped(s, found.value, Held(found.value, ByResult)), k, id);
      FreedBranches(cfg, s.(inFlight := Without(s.inFlight, {id}), finished := s.finished + {id}), k, id);
    }
    hide FreeWorker, Find, FindWorker, Without, WithoutWorkers, Replace;
  }

  lemma FreedBranches(cfg: Config, s: State, k: Worker, id: string)
    requires FindWorker(s.workers, k.id) == Some(k) && k.current == Some(id)
    ensures var freed := k.(current := None, tasksCompleted := k.tasksCompleted + 1);
      FreeWorker(cfg, s, id, k.id) ==
        if cfg.recycleAfter.Some? && freed.tasksCompleted >= cfg.recycleAfter.value && !k.stopped
        then Retire(s, freed) else PutBack(s, freed)
  {
    hide FindWorker, Retire, PutBack;
  }

  /** After a sweep over the workers none whose process is gone is in the pool or retiring; those of the
      pool are with their handler; everybody else is where they were. */
  lemma GoneAreMoved(s: State, gone: set<int>, k: Worker)
    ensures var s' := CheckWorkers(s, gone);
      && (k in s'.workers <==> k in s.workers && k.id !in gone)
      && (k in s'.retiring <==> k in s.retiring && k.id !in gone)
      && (k in s'.dead <==> k in s.dead || (k in s.workers && k.id in gone))
  {
  }

  /** The first worker that is idle, alive and, unless any will do, pinned as wanted. */
  lemma {:induction false} FirstIdleIsFirst(ks: seq<Worker>, alive: set<int>, anyPin: bool, pin: Option<int>, i: int)
    requires 0 <= i < |ks|
    requires ks[i].current == None && !ks[i].stopped && ks[i].id in alive && (anyPin || ks[i].pinned == pin)
    requires forall j :: 0 <= j < i ==>
      !(ks[j].current == None && !ks[j].stopped && ks[j].id in alive && (anyPin || ks[j].pinned == pin))
    ensures FirstIdle(ks, alive, anyPin, pin) == Some(ks[i])
  {
    if i > 0 {
      assert !(ks[0].current == None && !ks[0].stopped && ks[0].id in alive && (anyPin || ks[0].pinned == pin));
      assert forall j :: 0 <= j < |ks| - 1 ==> ks[1..][j] == ks[j + 1];
      FirstIdleIsFirst(ks[1..], alive, anyPin, pin, i - 1);
    }
  }

  // ----- once out, out for good -----

  /** The number has been given out, and its worker is not in the pool. */
  predicate Out(s: State, k: int) {
    k < s.nextWorker && forall j :: j in s.workers ==> j.id != k
  }

  /** Nobody joins the pool but under a number not yet given out. */
  ghost predicate OnlyNewJoin(s: State, s': State) {
    && s.nextWorker <= s'.nextWorker
    && (forall j :: j in s'.workers ==> j.id >= s.nextWorker || exists k :: k in s.workers && k.id == j.id)
  }

  lemma NobodyJoins(s: State, s': State)
    requires s'.nextWorker == s.nextWorker && s'.workers == s.workers
    ensures OnlyNewJoin(s, s')
  {
  }

  lemma JoiningAdds(s: State, t: State, u: State)
    requires OnlyNewJoin(s, t) && OnlyNewJoin(t, u)
    ensures OnlyNewJoin(s, u)
  {
  }

  lemma PoolStepsAddNobody(s: State, k: Worker)
    requires exists j :: j in s.workers && j.id == k.id
    ensures OnlyNewJoin(s, Retire(s, k)) && OnlyNewJoin(s, Poison(s, k)) && OnlyNewJoin(s, PutBack(s, k))
  {
  }

  lemma SpawnAddsNew(s: State, pin: Option<int>)
    ensures OnlyNewJoin(s, Spawn(s, pin))
  {
  }

  lemma FreeWorkerAddsNobody(cfg: Config, s: State, id: string, worker: int)
    ensures OnlyNewJoin(s, FreeWorker(cfg, s, id, worker))
  {
    hide Retire, PutBack, OnlyNewJoin, FindWorker;
    NobodyJoins(s, s);
    var k := FindWorker(s.workers, worker);
    if k.Some? {
      PoolStepsAddNobody(s, k.value.(current := None, tasksCompleted := k.value.tasksCompleted + 1));
    }
  }

  lemma TakeResultAddsNobody(cfg: Config, s: State, id: string, worker: int)
    ensures OnlyNewJoin(s, TakeResult(cfg, s, id, worker))
  {
    hide FreeWorker, OnlyNewJoin, Without;
    var found := Find(s.inFlight, id);
    FreeWorkerAddsNobody(cfg, s, id, worker);
    if found.Some? {
      var popped := Popped(s, found.value, Held(found.value, ByResult));
      var ignored := s.(inFlight := Without(s.inFlight, {id}), finished := s.finished + {id});
      NobodyJoins(s, popped);
      NobodyJoins(s, ignored);
      FreeWorkerAddsNobody(cfg, popped, id, worker);
      FreeWorkerAddsNobody(cfg, ignored, id, worker);
      JoiningAdds(s, popped, FreeWorker(cfg, popped, id, worker));
      JoiningAdds(s, ignored, FreeWorker(cfg, ignored, id, worker));
    }
  }

  lemma TakeTimeoutAddsNobody(cfg: Config, s: State, id: string)
    ensures OnlyNewJoin(s, TakeTimeout(cfg, s, id))
  {
    hide Poison, PutBack, OnlyNewJoin, Without;
    NobodyJoins(s, s);
    var found := Find(s.inFlight, id);
    if found.Some? {
      var w := found.value;
      var killing := cfg.killOnTimeout && w.worker.Some?;
      var popped := Popped(s, w, Held(if killing then w else w.(resultIgnored := true), ByTimeout));
      NobodyJoins(s, popped);
      var worker := if w.worker == None then None else FindWorker(s.workers, w.worker.value);
      if worker.Some? {
        PoolStepsAddNobody(popped, worker.value);
        PoolStepsAddNobody(popped, worker.value.(current := None));
        JoiningAdds(s, popped, Poison(popped, worker.value));
        JoiningAdds(s, popped, PutBack(popped, worker.value.(current := None)));
      }
    }
  }

  lemma AcquireAddsNew(cfg: Config, s: State, pin: Option<int>, alive: set<int>)
    ensures var r := Acquire(cfg, s, pin, alive); r.Some? ==> OnlyNewJoin(s, r.value.1)
  {
    hide Spawn, Retire, OnlyNewJoin;
    NobodyJoins(s, s);
    SpawnAddsNew(s, pin);
    var victim := FirstIdle(s.workers, alive, true, None);
    if victim.Some? {
      PoolStepsAddNobody(s, victim.value);
      SpawnAddsNew(Retire(s, victim.value), pin);
      JoiningAdds(s, Retire(s, victim.value), Spawn(Retire(s, victim.value), pin));
    }
  }

  lemma SendAddsNobody(s: State, w: Work, gpu: Option<int>, k: int, now: real)
    ensures OnlyNewJoin(s, Send(s, w, gpu, k, now)) && OnlyNewJoin(s, Handshake(s, w))
  {
    hide Without;
  }

  lemma ShipAddsNew(cfg: Config, s: State, d: Decision, alive: set<int>, now: real)
    ensures OnlyNewJoin(s, Ship(cfg, s, d, alive, now))
  {
    hide Acquire, Handshake, Send, Without, OnlyNewJoin;
    NobodyJoins(s, s);
    var found, acquired := Find(s.pending, d.pendingId), Acquire(cfg, s, d.gpu, alive);
    if found.Some? && acquired.Some? {
      var w, t := found.value, acquired.value.1;
      var u := Handshake(t, w);
      AcquireAddsNew(cfg, s, d.gpu, alive);
      SendAddsNobody(t, w, d.gpu, acquired.value.0, now);
      SendAddsNobody(u, w, d.gpu, acquired.value.0, now);
      JoiningAdds(s, t, u);
      JoiningAdds(s, u, Send(u, w, d.gpu, acquired.value.0, now));
      NobodyJoins(u, u.(pending := Without(u.pending, {w.id}), finished := u.finished + {w.id}));
      JoiningAdds(s, u, u.(pending := Without(u.pending, {w.id}), finished := u.finished + {w.id}));
    }
  }

  lemma {:induction false} ShipAllAddsNew(cfg: Config, s: State, decisions: seq<Decision>, env: Env)
    ensures OnlyNewJoin(s, ShipAll(cfg, s, decisions, env))
  {
    hide Ship, OnlyNewJoin;
    NobodyJoins(s, s);
    if decisions != [] {
      var n := |decisions| - 1;
      var mid := ShipAll(cfg, s, decisions[..n], env);
      ShipAllAddsNew(cfg, s, decisions[..n], env);
      ShipAddsNew(cfg, mid, decisions[n], AliveAt(env, n), env.now);
      JoiningAdds(s, mid, ShipAll(cfg, s, decisions, env));
    }
  }

  lemma DispatchAddsNew(cfg: Config, s: State, env: Env)
    ensures OnlyNewJoin(s, Dispatch(cfg, s, env))
  {
    PreparingAddsNobody(cfg, s, env);
    hide ShipAll, PlanOf, Prepared, OnlyNewJoin;
    var seen := Seen(cfg, s, env);
    var plan := PlanOf(cfg, seen, env);
    var start := seen.(nextGpu := plan.rr);
    ShipAllAddsNew(cfg, start, Decisions(plan.admitted), env);
    NobodyJoins(s, s);
    NobodyJoins(s, Prepared(cfg, s, env));
    NobodyJoins(s, start);
    JoiningAdds(s, start, ShipAll(cfg, start, Decisions(plan.admitted), env));
  }

  lemma PreparingAddsNobody(cfg: Config, s: State, env: Env)
    ensures Prepared(cfg, s, env).workers == s.workers && Prepared(cfg, s, env).nextWorker == s.nextWorker
  {
  }

  lemma EveryStepAddsNew(cfg: Config, s: State, a: Action)
    ensures OnlyNewJoin(s, Apply(cfg, s, a))
  {
    hide Dispatch, TakeResult, TakeTimeout, OnlyNewJoin;
    match a
    case ADispatch(env) => DispatchAddsNew(cfg, s, env);
    case ATakeResult(id, worker) => TakeResultAddsNobody(cfg, s, id, worker);
    case ATakeTimeout(id) => TakeTimeoutAddsNobody(cfg, s, id);
    case _ => OtherStepsAddNobody(cfg, s, a);
  }

  lemma OtherStepsAddNobody(cfg: Config, s: State, a: Action)
    requires !a.ADispatch? && !a.ATakeResult? && !a.ATakeTimeout?
    ensures OnlyNewJoin(s, Apply(cfg, s, a))
  {
    hide Without, Record, Submit, Penalized, WithoutWorkers, TakeLost, StopAll, CheckWorkers, OnlyNewJoin, Conclude;
    hide Expel;
    match a
    case ATakeLost(worker) =>
      TakeLostFrame(s, worker);
      NobodyJoins(s, TakeLost(s, worker));
    case AStopAll => StopAllAddsNobody(s);
    case ACheckWorkers(gone) => CheckWorkersAddsNobody(s, gone);
    case _ =>
      PoolUntouched(cfg, s, a);
      NobodyJoins(s, Apply(cfg, s, a));
  }

  lemma PoolUntouched(cfg: Config, s: State, a: Action)
    requires a.ASubmit? || a.ACancel? || a.AFinishResult? || a.AFinishTimeout? || a.AFinishLost? || a.AFailPending?
    ensures Apply(cfg, s, a).workers == s.workers && Apply(cfg, s, a).nextWorker == s.nextWorker
  {
    hide Without, Record, Penalized;
  }

  lemma StopAllAddsNobody(s: State)
    ensures OnlyNewJoin(s, StopAll(s))
  {
    forall j | j in StopAll(s).workers ensures exists k :: k in s.workers && k.id == j.id {
      var i :| 0 <= i < |s.workers| && StopAll(s).workers[i] == j;
      assert s.workers[i] in s.workers;
    }
  }

  lemma CheckWorkersAddsNobody(s: State, gone: set<int>)
    ensures OnlyNewJoin(s, CheckWorkers(s, gone))
  {
  }

  /** A worker that has left the pool never comes back: no run, whatever the threads do, has a worker of
      that number in the pool again.  So one that was killed, or retired, is never reused. */
  lemma {:induction false} OutForGood(cfg: Config, s: State, acts: seq<Action>, k: int)
    requires Out(s, k)
    ensures Out(RunFrom(cfg, s, acts), k)
  {
    hide Apply;
    if acts != [] {
      var pre := acts[..|acts| - 1];
      OutForGood(cfg, s, pre, k);
      EveryStepAddsNew(cfg, RunFrom(cfg, s, pre), acts[|acts| - 1]);
    }
  }

  lemma NumberedBelow(cfg: Config, s: State, k: Worker)
    requires Inv(cfg, s) && k in s.workers
    ensures k.id < s.nextWorker
  {
    hide TasksOk;
    assert k in Carriers(s);
  }

  lemma OutMeans(s: State, k: int)
    ensures Out(s, k) <==> k < s.nextWorker && k !in WorkerIds(s.workers)
  {
    assert forall j :: j in s.workers ==> j.id in WorkerIds(s.workers);
  }

  /** A worker killed for a timeout is in no pool of any continuation. */
  lemma KilledForGood(cfg: Config, s: State, w: Work, k: Worker, acts: seq<Action>)
    requires Inv(cfg, s) && w in s.inFlight && k in s.workers && w.worker == Some(k.id) && cfg.killOnTimeout
    ensures k.id !in WorkerIds(RunFrom(cfg, TakeTimeout(cfg, s, w.id), acts).workers)
  {
    var s' := TakeTimeout(cfg, s, w.id);
    TimeoutDecides(cfg, s, w, k);
    TakeTimeoutAddsNobody(cfg, s, w.id);
    NumberedBelow(cfg, s, k);
    OutMeans(s', k.id);
    OutForGood(cfg, s', acts, k.id);
    OutMeans(RunFrom(cfg, s', acts), k.id);
    hide Inv, TakeTimeout, RunFrom, Out, WorkerIds;
  }
}
