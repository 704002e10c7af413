/** A worker leaves the pool no later than with the result that uses up its allowance. */
module Recycling {
  import opened Quantities
  import opened Profiles
  import opened Stores
  import opened Planning
  import opened ExecutorState
  import opened ExecutorInvariants
  import opened ExecutorDispatch
  import opened ExecutorRuns

  /** The worker has handled fewer results than its allowance, or has been told to stop. */
  predicate Fresh(cfg: Config, k: Worker) {
    cfg.recycleAfter.Some? && cfg.recycleAfter.value > 0 ==> k.stopped || k.tasksCompleted < cfg.recycleAfter.value
  }

  ghost predicate FreshPool(cfg: Config, ks: seq<Worker>) {
    forall k :: k in ks ==> Fresh(cfg, k)
  }

  lemma PoolStepsKeepFresh(cfg: Config, s: State, k: Worker)
    requires FreshPool(cfg, s.workers)
    ensures FreshPool(cfg, Retire(s, k).workers) && FreshPool(cfg, Poison(s, k).workers)
    ensures Fresh(cfg, k) ==> FreshPool(cfg, PutBack(s, k).workers)
  {
  }

  lemma SpawnKeepsFresh(cfg: Config, s: State, pin: Option<int>)
    requires FreshPool(cfg, s.workers)
    ensures FreshPool(cfg, Spawn(s, pin).workers)
  {
  }

  lemma FreeWorkerKeepsFresh(cfg: Config, s: State, id: string, workerId: int)
    requires FreshPool(cfg, s.workers)
    ensures FreshPool(cfg, FreeWorker(cfg, s, id, workerId).workers)
  {
    hide FreshPool, Retire, PutBack;
    var worker := FindWorker(s.workers, workerId);
    if worker.Some? {
      PoolStepsKeepFresh(cfg, s, worker.value.(current := None, tasksCompleted := worker.value.tasksCompleted + 1));
    }
  }

  lemma TakeResultKeepsFresh(cfg: Config, s: State, id: string, worker: int)
    requires FreshPool(cfg, s.workers)
    ensures FreshPool(cfg, TakeResult(cfg, s, id, worker).workers)
  {
    hide FreshPool, FreeWorker, Without;
    var found := Find(s.inFlight, id);
    FreeWorkerKeepsFresh(cfg, s, id, worker);
    if found.Some? {
      FreeWorkerKeepsFresh(cfg, Popped(s, found.value, Held(found.value, ByResult)), id, worker);
      FreeWorkerKeepsFresh(cfg, s.(inFlight := Without(s.inFlight, {id}), finished := s.finished + {id}), id, worker);
    }
  }

  lemma TakeTimeoutKeepsFresh(cfg: Config, s: State, id: string)
    requires FreshPool(cfg, s.workers)
    ensures FreshPool(cfg, TakeTimeout(cfg, s, id).workers)
  {
    hide FreshPool, Poison, PutBack, Without, Find, FindWorker;
    var found := Find(s.inFlight, id);
    if found.Some? && found.value.worker.Some? {
      var w := found.value;
      var worker := FindWorker(s.workers, w.worker.value);
      if worker.Some? {
        var popped := Popped(s, w, Held(if cfg.killOnTimeout then w else w.(resultIgnored := true), ByTimeout));
        FoundIsFresh(cfg, s.workers, worker.value);
        PoolStepsKeepFresh(cfg, popped, worker.value);
        PoolStepsKeepFresh(cfg, popped, worker.value.(current := None));
      }
    }
  }

  lemma FoundIsFresh(cfg: Config, ks: seq<Worker>, k: Worker)
    requires FreshPool(cfg, ks) && k in ks
    ensures Fresh(cfg, k)
  {
  }

  lemma AcquireKeepsFresh(cfg: Config, s: State, pin: Option<int>, alive: set<int>)
    requires FreshPool(cfg, s.workers)
    ensures var r := Acquire(cfg, s, pin, alive); r.Some? ==> FreshPool(cfg, r.value.1.workers)
  {
    hide FreshPool, Spawn, Retire;
    SpawnKeepsFresh(cfg, s, pin);
    var victim := FirstIdle(s.workers, alive, true, None);
    if victim.Some? {
      PoolStepsKeepFresh(cfg, s, victim.value);
      SpawnKeepsFresh(cfg, Retire(s, victim.value), pin);
    }
  }

  lemma SendKeepsFresh(cfg: Config, s: State, w: Work, gpu: Option<int>, k: int, now: real)
    requires FreshPool(cfg, s.workers)
    ensures FreshPool(cfg, Send(s, w, gpu, k, now).workers)
  {
    hide Without;
    var worker := FindWorker(s.workers, k);
    if worker.Some? {
      FoundIsFresh(cfg, s.workers, worker.value);
      PoolStepsKeepFresh(cfg, s, worker.value.(current := Some(w.id)));
    }
  }

  lemma HandshakeKeepsPool(s: State, w: Work)
    ensures Handshake(s, w).workers == s.workers
  {
  }

  lemma ShipKeepsFresh(cfg: Config, s: State, d: Decision, alive: set<int>, now: real)
    requires FreshPool(cfg, s.workers)
    ensures FreshPool(cfg, Ship(cfg, s, d, alive, now).workers)
  {
    hide FreshPool, Acquire, Handshake, Send, Without;
    var found, acquired := Find(s.pending, d.pendingId), Acquire(cfg, s, d.gpu, alive);
    if found.Some? && acquired.Some? {
      AcquireKeepsFresh(cfg, s, d.gpu, alive);
      HandshakeKeepsPool(acquired.value.1, found.value);
      SendKeepsFresh(cfg, Handshake(acquired.value.1, found.value), found.value, d.gpu, acquired.value.0, now);
    }
  }

  lemma {:induction false} ShipAllKeepsFresh(cfg: Config, s: State, decisions: seq<Decision>, env: Env)
    requires FreshPool(cfg, s.workers)
    ensures FreshPool(cfg, ShipAll(cfg, s, decisions, env).workers)
  {
    hide FreshPool, Ship;
    if decisions != [] {
      var n := |decisions| - 1;
      ShipAllKeepsFresh(cfg, s, decisions[..n], env);
      ShipKeepsFresh(cfg, ShipAll(cfg, s, decisions[..n], env), decisions[n], AliveAt(env, n), env.now);
    }
  }

  lemma DispatchKeepsFresh(cfg: Config, s: State, env: Env)
    requires FreshPool(cfg, s.workers)
    ensures FreshPool(cfg, Dispatch(cfg, s, env).workers)
  {
    hide FreshPool, ShipAll, PlanOf, Prepared;
    PreparedKeepsPool(cfg, s, env);
    var seen := Seen(cfg, s, env);
    var plan := PlanOf(cfg, seen, env);
    ShipAllKeepsFresh(cfg, seen.(nextGpu := plan.rr), Decisions(plan.admitted), env);
  }

  lemma PreparedKeepsPool(cfg: Config, s: State, env: Env)
    ensures Prepared(cfg, s, env).workers == s.workers
  {
  }

  lemma OtherStepsKeepFresh(cfg: Config, s: State, a: Action)
    requires FreshPool(cfg, s.workers)
    requires !a.ADispatch? && !a.ATakeResult? && !a.ATakeTimeout?
    ensures FreshPool(cfg, Apply(cfg, s, a).workers)
  {
    hide Find, FindWorker, Without, Record, FailAll, LogFailures, Settle, Penalized;
    match a
    case ATakeLost(worker) => TakeLostKeepsPool(s, worker);
    case AFinishLost(id, exitCode) => FinishesKeepPool(cfg, s, id, true, exitCode);
    case AFinishResult(id, ok, observation) => FinishResultKeepsPool(s, id, ok, observation);
    case AFinishTimeout(id) => FinishesKeepPool(cfg, s, id, false, None);
    case AStopAll => StoppedIsFresh(cfg, s);
    case _ =>
  }

  lemma StoppedIsFresh(cfg: Config, s: State)
    ensures FreshPool(cfg, StopAll(s).workers)
  {
  }

  lemma TakeLostKeepsPool(s: State, worker: int)
    ensures TakeLost(s, worker).workers == s.workers
  {
    hide TakeLost;
    TakeLostFrame(s, worker);
  }

  lemma FinishesKeepPool(cfg: Config, s: State, id: string, ok: bool, exitCode: Option<int>)
    ensures FinishLost(cfg, s, id, exitCode).workers == s.workers
    ensures FinishTimeout(s, id).workers == s.workers
    ensures Conclude(s, id, ok).workers == s.workers
  {
    hide Record, Penalized;
  }

  lemma FinishResultKeepsPool(s: State, id: string, ok: bool, observation: Observation)
    ensures FinishResult(s, id, ok, observation).workers == s.workers
  {
    hide Record;
  }

  /** In every reachable state a worker still in the pool has handled fewer results than its
      allowance, or is being shut down. */
  lemma {:induction false} PoolStaysFresh(cfg: Config, acts: seq<Action>)
    ensures FreshPool(cfg, StateAfter(cfg, acts).workers)
  {
    hide Apply, FreshPool;
    if acts == [] {
      assert FreshPool(cfg, []) by { EmptyIsFresh(cfg); }
    } else {
      PoolStaysFresh(cfg, acts[..|acts| - 1]);
      ApplyKeepsFresh(cfg, StateAfter(cfg, acts[..|acts| - 1]), acts[|acts| - 1]);
    }
  }

  lemma EmptyIsFresh(cfg: Config)
    ensures FreshPool(cfg, [])
  {
  }

  lemma ApplyKeepsFresh(cfg: Config, s: State, a: Action)
    requires FreshPool(cfg, s.workers)
    ensures FreshPool(cfg, Apply(cfg, s, a).workers)
  {
    hide FreshPool, Dispatch, TakeResult, TakeTimeout;
    match a
    case ADispatch(env) => DispatchKeepsFresh(cfg, s, env);
    case ATakeResult(id, worker) => TakeResultKeepsFresh(cfg, s, id, worker);
    case ATakeTimeout(id) => TakeTimeoutKeepsFresh(cfg, s, id);
    case _ => OtherStepsKeepFresh(cfg, s, a);
  }
}
