/** The executor as the object it is: tables and fields updated in place by the critical
    sections, every method proved to do what the function of the same name in
    `ExecutorState` or `Draining` does to the whole state, and to keep its invariant. */
module AdaptiveExecutor {
  import opened Quantities
  import opened Profiles
  import opened Stores
  import opened Accounting
  import opened Admission
  import opened Planning
  import opened Plans
  import opened Planner
  import opened ExecutorState
  import opened ExecutorInvariants
  import opened ExecutorDispatch
  import opened ExecutorRuns
  import opened ExecutorProgress
  import opened Draining
  import opened ExecutorRefinement
  import opened Refreshing

  class AdaptiveExecutor {
    const cfg: Config
    var pending: seq<Work>
    var inFlight: seq<Work>
    var workers: seq<Worker>
    var retiring: seq<Worker>
    var futures: map<string, Future>
    var store: Store
    var nextWorker: int
    var nextGpu: int
    var stopping: bool
    // Tasks and workers in a handler's local variables, and what only specifications read.
    ghost var held: map<string, Held>
    ghost var dead: seq<Worker>
    ghost var finished: set<string>
    ghost var dropped: set<string>
    ghost var log: map<string, Log>
    ghost var broken: bool

    ghost function View(): State
      reads this
    {
      State(pending, inFlight, held, finished, dropped, futures, log, workers, retiring, dead,
            nextWorker, nextGpu, store, stopping, broken)
    }

    ghost predicate Valid()
      reads this
    {
      Inv(cfg, View())
    }

    constructor (config: Config)
      requires config.maxWorkers >= 1
      ensures Valid() && cfg == config && View() == INITIAL
    {
      cfg := config;
      pending, inFlight, workers, retiring, futures, store := [], [], [], [], map[], map[];
      nextWorker, nextGpu, stopping := 0, 0, false;
      held, dead, finished, dropped, log, broken := map[], [], {}, {}, map[], false;
      new;
      InitiallyInv(config);
    }

    // ----- submission -----

    /** An estimate against total capacity, with the largest GPU found by a scan. */
    method InfeasibleEstimate(estimate: Estimate, snapshot: Option<Snapshot>) returns (rejected: bool)
      ensures rejected == Infeasible(cfg, estimate, snapshot)
    {
      if snapshot == None {
        return false;
      }
      var machine := snapshot.value;
      if machine.memoryTotal > 0.0 && estimate.memory > machine.memoryTotal - cfg.memoryHeadroom {
        return true;
      }
      if estimate.vram <= 0.0 || machine.gpus == map[] {
        return false;
      }
      var todo := machine.gpus.Keys;
      SomeMember(todo);
      var first :| first in todo;
      var largest := machine.gpus[first].total;
      while todo != {}
        invariant todo <= machine.gpus.Keys
        invariant exists g :: g in machine.gpus && largest == machine.gpus[g].total
        invariant forall g :: g in machine.gpus && g !in todo ==> machine.gpus[g].total <= largest
        decreases todo
      {
        SomeMember(todo);
        var g :| g in todo;
        if machine.gpus[g].total > largest {
          largest := machine.gpus[g].total;
        }
        todo := todo - {g};
      }
      return estimate.vram > largest - cfg.vramHeadroom;
    }

    /** Queue a task, unless it could never fit.  `id` is freshly generated. */
    method Submit(id: string, origin: Origin, memoryHint: Option<real>, vramHint: Option<real>, now: real,
                  machine: Snapshot)
      returns (accepted: bool)
      requires Valid() && id !in futures
      modifies this
      ensures Valid()
      ensures accepted ==
        !Infeasible(cfg, EstimateFrom(Stores.Select(old(store), origin).0, memoryHint, vramHint), Some(machine))
      ensures View() ==
        if accepted then ExecutorState.Submit(old(View()), id, origin, memoryHint, vramHint, now) else old(View())
    {
      hide Inv, Infeasible;
      var profile := Stores.Select(store, origin).0;
      var estimate := EstimateFrom(profile, memoryHint, vramHint);
      var rejected := InfeasibleEstimate(estimate, Some(machine));
      if rejected {
        return false;
      }
      SubmitKeepsInv(cfg, View(), id, origin, memoryHint, vramHint, now);
      var w := Work(id, origin, memoryHint, vramHint, estimate, |profile.observations|, Some(now), profile.floor,
                    None, false, None, None, None, 0.0, 0.0, 0, false, false, false);
      pending := pending + [w];
      futures := futures[id := Queued];
      log := log[id := Log(0, 0, 0, None)];
      return true;
    }

    // ----- settling -----

    /** Resolve a future unless it is already done. */
    method SettleFuture(id: string, ok: bool)
      modifies this`futures, this`log
      ensures View() == Settle(old(View()), id, ok)
    {
      if id !in futures || Done(futures[id]) {
        return;
      }
      futures := futures[id := Finished(ok)];
      log := if id in log then log[id := Settled(log[id])] else log;
    }

    /** Settle a task that leaves its handler. */
    method Conclude(id: string, ok: bool)
      modifies this`futures, this`log, this`held, this`finished
      ensures View() == ExecutorState.Conclude(old(View()), id, ok)
    {
      hide Settle;
      SettleFuture(id, ok);
      held := held - {id};
      finished := finished + {id};
    }

    // ----- workers -----

    method RetireWorker(k: Worker)
      modifies this`workers, this`retiring
      ensures View() == Retire(old(View()), k)
    {
      workers := WithoutWorkers(workers, {k.id});
      retiring := retiring + [k.(stopped := true)];
    }

    method SpawnWorker(pin: Option<int>) returns (id: int)
      modifies this`workers, this`nextWorker
      ensures id == old(nextWorker) && View() == Spawn(old(View()), pin)
    {
      id := nextWorker;
      nextWorker := nextWorker + 1;
      workers := workers + [Worker(id, pin, None, false, false, 0)];
    }

    method FindIdle(alive: set<int>, anyPin: bool, pin: Option<int>) returns (r: Option<Worker>)
      ensures r == FirstIdle(workers, alive, anyPin, pin)
    {
      var i := 0;
      while i < |workers|
        invariant 0 <= i <= |workers|
        invariant FirstIdle(workers, alive, anyPin, pin) == FirstIdle(workers[i..], alive, anyPin, pin)
      {
        var k := workers[i];
        assert workers[i..][1..] == workers[i + 1..];
        if Idle(k, alive) && (anyPin || k.pinned == pin) {
          return Some(k);
        }
        i := i + 1;
      }
      return None;
    }

    method GetOrSpawnIdleWorker(pin: Option<int>, alive: set<int>) returns (id: Option<int>)
      modifies this`workers, this`retiring, this`nextWorker
      ensures var r := Acquire(cfg, old(View()), pin, alive);
        if r == None then id == None && View() == old(View())
        else id == Some(r.value.0) && View() == r.value.1
    {
      var idle := FindIdle(alive, false, pin);
      if idle.Some? {
        return Some(idle.value.id);
      }
      if |workers| >= cfg.maxWorkers {
        var victim := FindIdle(alive, true, None);
        if victim == None {
          return None;
        }
        RetireWorker(victim.value);
      }
      var spawned := SpawnWorker(pin);
      return Some(spawned);
    }

    // ----- the dispatch cycle -----

    /** Refresh waiting estimates, throttled, from the profile each task would draw on now. */
    method ReestimatePending(now: real)
      modifies this`pending
      ensures pending == ReestimateAll(cfg, store, now, old(pending))
      ensures |pending| == |old(pending)|
      ensures forall i :: 0 <= i < |pending| ==> Refreshed(cfg, store, now, old(pending)[i], pending[i])
    {
      forall i | 0 <= i < |pending|
        ensures Refreshed(cfg, store, now, pending[i], Reestimate(cfg, store, now, pending[i]))
      {
        ReestimateRefreshes(cfg, store, now, pending[i]);
      }
      hide Refreshed, EstimateFrom, Stores.Select;
      var i := 0;
      while i < |pending|
        invariant 0 <= i <= |pending| == |old(pending)|
        invariant forall j :: 0 <= j < |pending| ==>
          pending[j] == if j < i then Reestimate(cfg, store, now, old(pending)[j]) else old(pending)[j]
      {
        var w := pending[i];
        if w.retries == 0 && (w.refreshedAt == None || now - w.refreshedAt.value >= cfg.reestimateInterval) {
          var profile := Stores.Select(store, w.origin).0;
          w := w.(refreshedAt := Some(now));
          if |profile.observations| != w.sampleCount || profile.floor != w.floorSeen {
            w := w.(estimate := EstimateFrom(profile, w.memoryHint, w.vramHint),
                    sampleCount := |profile.observations|, floorSeen := profile.floor);
          }
        }
        assert w == Reestimate(cfg, store, now, pending[i]);
        hide Reestimate;
        pending := pending[i := w];
        i := i + 1;
      }
    }

    /** Fail every queued task that can never fit. */
    method SweepInfeasible(snapshot: Option<Snapshot>)
      requires NoDup(pending)
      modifies this`pending, this`futures, this`log, this`finished
      ensures View() == Expel(old(View()), InfeasibleIds(cfg, snapshot, old(pending)))
    {
      hide Settle, Infeasible, Expelling, Expel, Ids, InfeasibleIds, Without, NoDup;
      ghost var start, gone, rejects := View(), InfeasibleIds(cfg, snapshot, pending), [];
      NothingExpelled(start);
      NothingSwept(pending, gone);
      var feasible, i := [], 0;
      while i < |pending|
        invariant 0 <= i <= |pending| && pending == start.pending
        invariant feasible == Without(pending[..i], gone) && Ids(rejects) == gone * Ids(pending[..i])
        invariant forall w :: w in rejects ==> w in pending
        invariant View() == Expelling(start, rejects, pending)
      {
        var w := pending[i];
        var rejected := InfeasibleEstimate(w.estimate, snapshot);
        SweepStep(cfg, snapshot, pending, i, rejects);
        if rejected {
          ExpelOneMore(start, rejects, w, pending);
          SettleFuture(w.id, false);
          finished := finished + {w.id};
          rejects := rejects + [w];
        } else {
          feasible := feasible + [w];
        }
        i := i + 1;
      }
      assert pending[..i] == pending;
      SweptIsExpelled(start, rejects, gone);
      pending := feasible;
    }

    /** Take in the observed growth of what is in flight. */
    method RefreshObservations(readings: map<string, (real, real)>)
      modifies this`inFlight
      ensures inFlight == ObserveAll(readings, old(inFlight))
    {
      var i := 0;
      while i < |inFlight|
        invariant 0 <= i <= |inFlight| == |old(inFlight)|
        invariant forall j :: 0 <= j < |inFlight| ==>
          inFlight[j] == if j < i then Observe(readings, old(inFlight)[j]) else old(inFlight)[j]
      {
        var w := inFlight[i];
        if w.id in readings {
          var (memory, vram) := readings[w.id];
          inFlight := inFlight[i := w.(observedMemory := Max(0.0, memory), observedVram := Max(0.0, vram))];
        }
        i := i + 1;
      }
    }

    /** The queue as the planner sees it, each task stamped with its identity on the way. */
    method PendingEntries() returns (entries: seq<PendingEntry>)
      modifies this`pending
      ensures pending == StampAll(store, old(pending)) && entries == Entries(pending)
    {
      entries := [];
      var i := 0;
      while i < |pending|
        invariant 0 <= i <= |pending| == |old(pending)| && |entries| == i
        invariant forall j :: 0 <= j < |pending| ==>
          pending[j] == if j < i then Stamp(store, old(pending)[j]) else old(pending)[j]
        invariant forall j :: 0 <= j < i ==> entries[j] == EntryOf(pending[j])
      {
        var w := pending[i];
        var (identity, count) := EstimationIdentity(store, w.origin);
        var hinted := w.memoryHint != None || w.vramHint != None;
        w := w.(identity := Some(identity), cold := count == 0 && !hinted);
        pending := pending[i := w];
        entries := entries + [PendingEntry(w.id, w.estimate.memory, w.estimate.vram, w.estimate.cpu,
                                           w.estimate.duration, w.exclusive, Some(identity), w.cold)];
        i := i + 1;
      }
    }

    /** What is free, GPU by GPU, after use, headroom and commitments. */
    method MeasureCapacity(snapshot: Option<Snapshot>) returns (cap: Capacity)
      ensures cap == CapacityFor(cfg, View(), snapshot)
    {
      var committed := CommittedVramPerGpu(VramUsages(inFlight));
      var gpuFree: map<int, Amount> := map[];
      var i := 0;
      while i < |cfg.gpuIds|
        invariant 0 <= i <= |cfg.gpuIds|
        invariant forall g :: g in gpuFree <==> g in cfg.gpuIds[..i] && g in GpuFree(cfg, snapshot, inFlight)
        invariant forall g :: g in gpuFree ==> gpuFree[g] == GpuFree(cfg, snapshot, inFlight)[g]
      {
        var g := cfg.gpuIds[i];
        assert forall h :: h in cfg.gpuIds[..i + 1] <==> h in cfg.gpuIds[..i] || h == g;
        if snapshot == None {
          gpuFree := gpuFree[g := Unbounded];
        } else if g in snapshot.value.gpus {
          var gpu := snapshot.value.gpus[g];
          var commitment := if g in committed then committed[g] else 0.0;
          gpuFree := gpuFree[g := Finite(gpu.total - gpu.used - cfg.vramHeadroom - commitment)];
        }
        i := i + 1;
      }
      assert cfg.gpuIds[..i] == cfg.gpuIds;
      SameTable(gpuFree, GpuFree(cfg, snapshot, inFlight));
      var memoryFree := if snapshot == None then Unbounded
                        else Finite(snapshot.value.memoryTotal - snapshot.value.memoryUsed - cfg.memoryHeadroom
                                    - TotalCommitted(MemoryUsages(inFlight)));
      cap := Capacity(memoryFree, gpuFree, cfg.gpuIds, nextGpu, cfg.maxWorkers, |inFlight|, snapshot.Some?);
    }

    /** Gather the live state and ask the planner. */
    method BuildDispatchPlan(env: Env) returns (plan: Plan)
      modifies this`pending, this`inFlight
      ensures View() == Surveyed(old(View()), env)
      ensures var fin := PlanOf(cfg, View(), env); plan == Plan(Decisions(fin.admitted), fin.rr)
    {
      hide CapacityFor, PlanFor;
      RefreshObservations(env.readings);
      var running := RunningEntries(inFlight, env.now);
      var entries := PendingEntries();
      var cap := MeasureCapacity(env.snapshot);
      plan := PlanDispatch(entries, running, cap);
    }

    /** The running handshake of a queued future: false if it was cancelled. */
    method SetRunning(w: Work) returns (running: bool)
      requires w.id in futures && (futures[w.id].Queued? || futures[w.id].Cancelled?)
      modifies this`futures, this`log
      ensures running == old(futures)[w.id].Queued?
      ensures View() == Handshake(old(View()), w.(runningNotified := false))
    {
      running := futures[w.id].Queued?;
      futures := futures[w.id := if running then Running else CancelledNotified];
      log := if w.id in log then log[w.id := Shaken(log[w.id])] else log;
    }

    /** Put a task on a worker. */
    method Assign(w: Work, gpu: Option<int>, k: int, now: real)
      modifies this`inFlight, this`workers, this`log
      ensures View() == Send(old(View()), w, gpu, k, now).(pending := pending)
    {
      hide Replace, FindWorker, Without;
      var sent := w.(runningNotified := true, gpu := gpu, worker := Some(k), startedAt := Some(now),
                     observedMemory := 0.0, observedVram := 0.0);
      inFlight := inFlight + [sent];
      var worker := FindWorker(workers, k);
      if worker.Some? {
        workers := Replace(workers, worker.value.(current := Some(w.id)));
      }
      log := if w.id in log then log[w.id := Dispatched(log[w.id], w.estimate)] else log;
    }

    /** Shake hands on a queued task and put it on a worker, unless it was cancelled. */
    method HandOver(w: Work, gpu: Option<int>, k: int, now: real, ghost queue: seq<Work>)
      requires Inv(cfg, View().(pending := queue)) && w in queue
      modifies this`workers, this`futures, this`log, this`inFlight, this`finished
      ensures View().(pending := Without(queue, {w.id})) ==
        var s := Handshake(old(View()).(pending := queue), w);
        if w.id in s.futures && s.futures[w.id].CancelledNotified? && !w.runningNotified
        then s.(pending := Without(s.pending, {w.id}), finished := s.finished + {w.id})
        else Send(s, w, gpu, k, now)
      ensures !Handshake(old(View()).(pending := queue), w).broken
    {
      hide Inv, Handshake, Send, Without;
      HandshakeNeverRaises(cfg, View().(pending := queue), w);
      QueuedFuture(cfg, View(), w);
      HandshakeIgnoresQueue(View(), queue, w);
      hide QueuedTask;
      if !w.runningNotified {
        var running := SetRunning(w);
        if !running {
          finished := finished + {w.id};
          return;
        }
      }
      SendIgnoresQueue(View(), queue, w, gpu, k, now);
      Assign(w, gpu, k, now);
    }

    /** Carry out one decision.  The task stays in the queue for now; `removed` says whether it
        is to leave it. */
    method CarryOut(d: Decision, alive: set<int>, now: real, ghost queue: seq<Work>) returns (removed: bool)
      requires Inv(cfg, View().(pending := queue)) && Find(queue, d.pendingId) == Find(pending, d.pendingId)
      modifies this`workers, this`retiring, this`nextWorker, this`futures, this`log, this`inFlight, this`finished
      ensures View().(pending := if removed then Without(queue, {d.pendingId}) else queue)
           == Ship(cfg, old(View()).(pending := queue), d, alive, now)
    {
      hide Inv, Find, Acquire, Handshake, Send, Without;
      ghost var before := View().(pending := queue);
      var found := Find(pending, d.pendingId);
      if found == None {
        return false;
      }
      var w := found.value;
      AcquireIgnoresQueue(cfg, View(), queue, d.gpu, alive);
      var worker := GetOrSpawnIdleWorker(d.gpu, alive);
      if worker == None {
        return false;
      }
      AcquireKeepsInv(cfg, before, d.gpu, alive);
      HandOver(w, d.gpu, worker.value, now, queue);
      return true;
    }

    /** Carry out a plan, then drop from the queue what was sent or found cancelled. */
    method CarryOutAll(decisions: seq<Decision>, env: Env)
      requires Valid() && forall i, j :: 0 <= i < j < |decisions| ==> decisions[i].pendingId != decisions[j].pendingId
      modifies this
      ensures View() == ShipAll(cfg, old(View()), decisions, env)
    {
      hide Inv, Ship, Find, Without;
      ghost var start := View();
      var removed: set<string> := {};
      var i := 0;
      WithoutNothing(pending);
      while i < |decisions|
        invariant 0 <= i <= |decisions| && pending == start.pending
        invariant forall id :: id in removed ==> exists j :: 0 <= j < i && decisions[j].pendingId == id
        invariant View().(pending := Without(pending, removed)) == ShipAll(cfg, start, decisions[..i], env)
      {
        var d := decisions[i];
        assert decisions[..i + 1][..i] == decisions[..i];
        ShipAllKeepsInv(cfg, start, decisions[..i], env);
        FindElsewhere(pending, removed, d.pendingId);
        WithoutTwice(pending, removed, {d.pendingId});
        var leaves := CarryOut(d, AliveAt(env, i), env.now, Without(pending, removed));
        if leaves {
          removed := removed + {d.pendingId};
        }
        i := i + 1;
      }
      assert decisions[..i] == decisions;
      pending := Without(pending, removed);
    }

    /** One dispatch cycle. */
    method MaybeDispatch(env: Env)
      requires Valid()
      modifies this
      ensures Valid() && View() == Dispatch(cfg, old(View()), env)
    {
      hide Inv, PlanOf, ShipAll, Expel, InfeasibleIds, ReestimateAll, Surveyed;
      ghost var start := View();
      DispatchKeepsInv(cfg, start, env);
      if pending == [] {
        return;
      }
      PreparedKeepsInv(cfg, start, env);
      ReestimatePending(env.now);
      StillDistinct(cfg, start, env.now);
      SweepInfeasible(env.sweep);
      if pending == [] {
        return;
      }
      SurveyedKeepsInv(cfg, View(), env);
      var plan := BuildDispatchPlan(env);
      PlannedOnce(cfg, View(), env);
      IndexIsIrrelevant(cfg, View(), plan.nextGpu);
      nextGpu := plan.nextGpu;
      CarryOutAll(plan.decisions, env);
    }

    // ----- results -----

    /** A result frees the worker it names, and may recycle it. */
    method FreeWorker(id: string, workerId: int)
      modifies this`workers, this`retiring
      ensures View() == ExecutorState.FreeWorker(cfg, old(View()), id, workerId)
    {
      var worker := FindWorker(workers, workerId);
      if worker.Some? && worker.value.current == Some(id) {
        var freed := worker.value.(current := None, tasksCompleted := worker.value.tasksCompleted + 1);
        if ShouldRecycle(cfg, freed) {
          RetireWorker(freed);
        } else {
          workers := Replace(workers, freed);
        }
      }
    }

    /** The locked part of handling a result: free its worker, take its task out of flight. */
    method TakeResult(id: string, workerId: int) returns (taken: Option<Work>)
      requires Valid()
      modifies this
      ensures Valid() && View() == ExecutorState.TakeResult(cfg, old(View()), id, workerId)
      ensures taken == Find(old(inFlight), id)
      ensures held == if taken.Some? then old(held)[id := Held(taken.value, ByResult)] else old(held)
    {
      hide Inv, Find, Without, ExecutorState.FreeWorker, ExecutorState.TakeResult;
      TakeResultKeepsInv(cfg, View(), id, workerId);
      FreeingCommutes(cfg, View(), id, workerId);
      FreeWorker(id, workerId);
      taken := Find(inFlight, id);
      if taken.Some? {
        inFlight := Without(inFlight, {id});
        held := held[id := Held(taken.value, ByResult)];
      }
    }

    /** Outside the lock: record what was observed, then resolve the future. */
    method FinishResult(w: Work, ok: bool, observation: Observation)
      requires Valid() && w.id in held && held[w.id] == Held(w, ByResult)
      modifies this
      ensures Valid() && View() == ExecutorState.FinishResult(old(View()), w.id, ok, observation)
    {
      hide Inv, Record, ExecutorState.Conclude;
      FinishResultKeepsInv(cfg, View(), w.id, ok, observation);
      store := Record(store, w.origin, Observed(observation));
      Conclude(w.id, ok);
    }

    /** A result from a worker, current or stale, first or late. */
    method ProcessResult(m: Message)
      requires Valid()
      modifies this
      ensures Valid() && View() == Process(cfg, old(View()), m)
    {
      hide Inv, ExecutorState.TakeResult, ExecutorState.FinishResult, Find;
      var taken := TakeResult(m.id, m.worker);
      if taken.Some? {
        FinishResult(taken.value, m.ok, m.observation);
      }
    }

    /** Everything a readable queue still holds. */
    method DrainQueue(k: Worker, messages: seq<Message>)
      requires Valid()
      modifies this
      ensures Valid() && View() == if k.poisoned then old(View()) else Drain(cfg, old(View()), messages)
    {
      hide Inv, Process;
      if k.poisoned {
        return;
      }
      ghost var before := View();
      var i := 0;
      while i < |messages|
        invariant 0 <= i <= |messages|
        invariant Valid() && View() == Drain(cfg, before, messages[..i])
      {
        assert messages[..i + 1][..i] == messages[..i];
        ProcessResult(messages[i]);
        i := i + 1;
      }
      assert messages[..i] == messages;
    }

    // ----- timeouts -----

    method PoisonWorker(k: Worker)
      modifies this`workers, this`retiring
      ensures View() == Poison(old(View()), k)
    {
      workers := WithoutWorkers(workers, {k.id});
      retiring := retiring + [k.(stopped := true, poisoned := true, current := None)];
    }

    method PutBack(k: Worker)
      modifies this`workers
      ensures View() == ExecutorState.PutBack(old(View()), k)
    {
      workers := Replace(workers, k);
    }

    /** A task goes from the in-flight table into a handler's hands. */
    method Pop(w: Work, into: Held)
      modifies this`inFlight, this`held
      ensures View() == Popped(old(View()), w, into)
    {
      inFlight := Without(inFlight, {w.id});
      held := held[w.id := into];
    }

    /** The locked part of a timeout: out of flight, and off its worker, which is poisoned and
        retired if it is to be killed. */
    method TakeTimeout(id: string) returns (taken: Option<Held>)
      requires Valid()
      modifies this
      ensures Valid() && View() == ExecutorState.TakeTimeout(cfg, old(View()), id)
      ensures taken.Some? <==> Find(old(inFlight), id).Some? && !(id in old(futures) && Done(old(futures)[id]))
      ensures taken.Some? ==> taken.value.handler.ByTimeout? && held == old(held)[id := taken.value]
    {
      hide Inv, Find, FindWorker, Popped, Poison, ExecutorState.PutBack;
      TakeTimeoutKeepsInv(cfg, View(), id);
      TimeoutHolds(cfg, View(), id);
      var found := Find(inFlight, id);
      if found == None || (id in futures && Done(futures[id])) {
        return None;
      }
      var w := found.value;
      var worker := if w.worker == None then None else FindWorker(workers, w.worker.value);
      var killing := cfg.killOnTimeout && w.worker.Some?;
      taken := Some(Held(if killing then w else w.(resultIgnored := true), ByTimeout));
      Pop(w, taken.value);
      if worker.Some? && killing {
        PoisonWorker(worker.value);
      } else if worker.Some? && worker.value.current == Some(id) {
        PutBack(worker.value.(current := None));
      }
      assert View() == ExecutorState.TakeTimeout(cfg, old(View()), id);
    }

    method HandleTimeout(id: string)
      requires Valid()
      modifies this
      ensures Valid()
      ensures View() ==
        if Find(old(inFlight), id).Some? && !(id in old(futures) && Done(old(futures)[id]))
        then FinishTimeout(ExecutorState.TakeTimeout(cfg, old(View()), id), id) else old(View())
    {
      hide Inv, Find;
      ghost var s := View();
      var taken := TakeTimeout(id);
      hide ExecutorState.TakeTimeout;
      if taken.Some? {
        FinishTimeoutKeepsInv(cfg, View(), id);
        hide ExecutorState.Conclude;
        Conclude(id, false);
      } else {
        NoTimeout(cfg, s, id);
      }
    }

    // ----- dead workers -----

    method Drop(w: Work)
      modifies this`inFlight, this`dropped
      ensures View() == Dropping(old(View()), w)
    {
      inFlight := Without(inFlight, {w.id});
      dropped := dropped + {w.id};
    }

    /** The locked part of losing a worker: its task, if still in flight, comes out. */
    method TakeLost(k: Worker) returns (lost: Option<Work>)
      requires Valid() && k in dead
      modifies this
      ensures Valid() && View() == ExecutorState.TakeLost(old(View()), k.id)
      ensures lost.Some? ==>
        k.current == Some(lost.value.id) && held == old(held)[lost.value.id := Held(lost.value, ByCrash)]
      ensures lost == None ==> held == old(held)
      ensures dead == WithoutWorkers(old(dead), {k.id})
    {
      hide Inv, Find, Without, WithoutWorkers;
      TakeLostKeepsInv(cfg, View(), k.id);
      DeadIsFound(cfg, View(), k);
      dead := WithoutWorkers(dead, {k.id});
      if k.current == None {
        return None;
      }
      lost := Find(inFlight, k.current.value);
      if lost == None {
        return;
      }
      if k.stopped {
        Drop(lost.value);
        return None;
      }
      Pop(lost.value, Held(lost.value, ByCrash));
    }

    /** An OOM-like crash: teach the profile a floor, and put the task back first, doubled and alone. */
    method Retry(w: Work)
      requires w.id in held
      modifies this`store, this`pending, this`held
      ensures View() == old(View()).(store := Record(old(store), w.origin, Crashed(w.estimate.memory)),
                                     pending := [Penalized(w)] + old(pending), held := old(held) - {w.id})
    {
      store := Record(store, w.origin, Crashed(w.estimate.memory));
      var penalized := w.(estimate := Estimate(Max(0.1, w.estimate.memory * 2.0), Max(0.0, w.estimate.vram * 2.0),
                                               Max(1.0, w.estimate.cpu), w.estimate.confidence, None),
                          exclusive := true);
      penalized := penalized.(retries := w.retries + 1, gpu := None, worker := None, startedAt := None,
                              resultIgnored := false, observedMemory := 0.0, observedVram := 0.0);
      pending := [penalized] + pending;
      held := held - {w.id};
    }

    method FinishLost(w: Work, exitCode: Option<int>)
      requires Valid() && w.id in held && held[w.id] == Held(w, ByCrash)
      modifies this`store, this`pending, this`held, this`finished, this`futures, this`log
      ensures Valid() && View() == ExecutorState.FinishLost(cfg, old(View()), w.id, exitCode)
    {
      hide Inv, Record, Penalized, ExecutorState.Conclude;
      FinishLostKeepsInv(cfg, View(), w.id, exitCode);
      if w.retries < cfg.maxRetries && LooksLikeOom(exitCode) {
        Retry(w);
      } else {
        Conclude(w.id, false);
      }
    }

    /** Drain what the worker delivered before dying, then retry or fail the task it died on. */
    method HandleDeadWorker(k: Worker, messages: seq<Message>, exitCode: Option<int>)
      requires Valid() && k in dead
      modifies this
      ensures Valid() && View() == Bury(cfg, old(View()), k, messages, exitCode)
      ensures dead == WithoutWorkers(old(dead), {k.id})
    {
      hide Inv, Drain, ExecutorState.TakeLost, ExecutorState.FinishLost;
      DrainLeavesTheDead(cfg, View(), messages);
      DrainQueue(k, messages);
      if k.current.Some? && k.current.value in held {
        NotYetLost(cfg, View(), k);
      }
      var lost := TakeLost(k);
      if lost.Some? {
        FinishLost(lost.value, exitCode);
      } else if k.current.Some? {
        NothingLost(cfg, View(), k.current.value, exitCode);
      }
    }

    /** The dead leave the pool one by one. */
    method CollectDead(gone: set<int>) returns (lost: seq<Worker>)
      requires NoDupWorkers(workers)
      modifies this`workers
      ensures workers == WithoutWorkers(old(workers), gone) && lost == PickWorkers(old(workers), gone, true)
    {
      hide PickWorkers, WithoutWorkers;
      var all := workers;
      lost := [];
      var i := 0;
      StartCollecting(all, gone);
      while i < |all|
        invariant 0 <= i <= |all| && lost == PickWorkers(all[..i], gone, true)
        invariant workers == WithoutWorkers(all[..i], gone) + all[i..]
      {
        var k := all[i];
        CollectStep(all, gone, i);
        if k.id in gone {
          DropOne(all, gone, i);
          lost := lost + [k];
          workers := WithoutWorkers(workers, {k.id});
        }
        i := i + 1;
      }
      assert all[..i] == all && all[i..] == [];
    }

    /** The retired that have exited leave the list of those still shutting down. */
    method CollectRetired(gone: set<int>) returns (reaped: seq<Worker>)
      modifies this`retiring
      ensures retiring == WithoutWorkers(old(retiring), gone) && reaped == PickWorkers(old(retiring), gone, true)
    {
      var still := [];
      reaped := [];
      var i := 0;
      while i < |retiring|
        invariant 0 <= i <= |retiring|
        invariant still == WithoutWorkers(retiring[..i], gone) && reaped == PickWorkers(retiring[..i], gone, true)
      {
        var k := retiring[i];
        assert retiring[..i + 1][..i] == retiring[..i];
        if k.id in gone {
          reaped := reaped + [k];
        } else {
          still := still + [k];
        }
        i := i + 1;
      }
      assert retiring[..i] == retiring;
      retiring := still;
    }

    /** The locked part of a worker sweep. */
    method CollectGone(gone: set<int>) returns (lost: seq<Worker>, reaped: seq<Worker>)
      requires Valid()
      modifies this`workers, this`retiring, this`dead
      ensures Valid() && View() == ExecutorState.CheckWorkers(old(View()), gone)
      ensures lost == PickWorkers(old(workers), gone, true) && reaped == PickWorkers(old(retiring), gone, true)
    {
      CheckWorkersKeepsInv(cfg, View(), gone);
      assert NoDupWorkers(workers);
      hide Inv, PickWorkers, WithoutWorkers;
      lost := CollectDead(gone);
      reaped := CollectRetired(gone);
      dead := dead + lost;
    }

    method ReapWorkers(reaped: seq<Worker>, remains: map<int, Remains>)
      requires Valid()
      modifies this
      ensures Valid() && View() == ReapAll(cfg, old(View()), reaped, remains)
    {
      hide Inv, Drain;
      ghost var before := View();
      var i := 0;
      while i < |reaped|
        invariant 0 <= i <= |reaped| && Valid() && View() == ReapAll(cfg, before, reaped[..i], remains)
      {
        assert reaped[..i + 1][..i] == reaped[..i];
        DrainQueue(reaped[i], RemainsOf(remains, reaped[i]).messages);
        i := i + 1;
      }
      assert reaped[..i] == reaped;
    }

    method BuryWorkers(lost: seq<Worker>, remains: map<int, Remains>)
      requires Valid() && NoDupWorkers(lost) && forall k :: k in lost ==> k in dead
      modifies this
      ensures Valid() && View() == BuryAll(cfg, old(View()), lost, remains)
    {
      hide Inv, Bury;
      ghost var before := View();
      var i := 0;
      while i < |lost|
        invariant 0 <= i <= |lost| && Valid() && View() == BuryAll(cfg, before, lost[..i], remains)
        invariant forall j :: i <= j < |lost| ==> lost[j] in dead
      {
        assert lost[..i + 1][..i] == lost[..i];
        var left := RemainsOf(remains, lost[i]);
        HandleDeadWorker(lost[i], left.messages, left.exitCode);
        i := i + 1;
      }
      assert lost[..i] == lost;
    }

    /** A whole worker sweep. */
    method CheckWorkers(gone: set<int>, remains: map<int, Remains>)
      requires Valid()
      modifies this
      ensures Valid() && View() == Draining.Sweep(cfg, old(View()), gone, remains)
    {
      hide Inv, ReapAll, BuryAll, ExecutorState.CheckWorkers, PickWorkers;
      ghost var start := View();
      LostAreDead(cfg, start, gone);
      var lost, reaped := CollectGone(gone);
      ReapedLeaveTheDead(cfg, View(), reaped, remains);
      ReapWorkers(reaped, remains);
      BuryWorkers(lost, remains);
    }

    // ----- shutdown -----

    /** Fail every queued task, first to last; a cancelled one just leaves. */
    method FailPendingFutures()
      requires Valid()
      modifies this
      ensures Valid() && View() == FailPending(old(View()))
    {
      hide Inv, Expel, Settle, Ids;
      ghost var start, failed := View(), [];
      ExpelKeepsInv(cfg, start, Ids(start.pending));
      NothingExpelled(start);
      while pending != []
        invariant failed + pending == start.pending && View() == Expelling(start, failed, pending)
        decreases |pending|
      {
        var w := pending[0];
        OneMoreGone(failed, pending);
        ExpelOneMore(start, failed, w, pending[1..]);
        pending := pending[1..];
        SettleFuture(w.id, false);
        finished := finished + {w.id};
        failed := failed + [w];
      }
      assert failed == start.pending;
      AllExpelled(start);
    }

    method StopAllWorkers()
      requires Valid()
      modifies this
      ensures Valid() && View() == StopAll(old(View()))
    {
      hide Inv;
      StopAllKeepsInv(cfg, View());
      ghost var all := workers;
      var i := 0;
      while i < |workers|
        invariant 0 <= i <= |workers| == |all|
        invariant forall j :: 0 <= j < |all| ==> workers[j] == if j < i then all[j].(stopped := true) else all[j]
        invariant View() == old(View()).(workers := workers)
      {
        workers := workers[i := workers[i].(stopped := true)];
        i := i + 1;
      }
      stopping := true;
      assert workers == StopAll(old(View())).workers;
    }
  }
}
