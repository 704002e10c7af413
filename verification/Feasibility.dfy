/** The infeasibility sweep against the planner: what it throws out could never have been
    admitted, and exactly what it overlooks. */
module Feasibility {
  import opened Quantities
  import opened Profiles
  import opened Stores
  import opened Accounting
  import opened Admission
  import opened Planning
  import opened Reservations
  import opened Plans
  import opened ExecutorState
  import opened ExecutorInvariants
  import opened ExecutorDispatch
  import opened ExecutorRuns
  import opened Headroom

  /** Anything the planner may be looking at: what is in flight, what the monitor reads, and
      the moment its pools are projected to. */
  datatype Situation = Situation(state: State, reading: Snapshot, now: real, moment: Moment)

  /** The same machine: totals as in `snapshot`, whatever is in use. */
  ghost predicate SameMachine(snapshot: Snapshot, reading: Snapshot) {
    && reading.memoryTotal == snapshot.memoryTotal && reading.memoryUsed >= 0.0
    && reading.gpus.Keys == snapshot.gpus.Keys
    && (forall g :: g in reading.gpus ==>
          reading.gpus[g].total == snapshot.gpus[g].total && reading.gpus[g].used >= 0.0)
  }

  function CapacityIn(cfg: Config, x: Situation): Capacity {
    CapacityFor(cfg, x.state, Some(x.reading))
  }

  /** The pools the planner would test a task against. */
  function PoolsIn(cfg: Config, x: Situation): Pools {
    var cap := CapacityIn(cfg, x);
    StateAt(Pools(cap.memoryFree, cap.gpuFree, cap.runningCount), RunningEntries(x.state.inFlight, x.now), x.moment)
  }

  /** On this machine there is a situation in which the planner would find that `task` fits. */
  ghost predicate EverFits(cfg: Config, snapshot: Snapshot, task: PendingEntry) {
    exists x: Situation :: SameMachine(snapshot, x.reading) && Fits(CapacityIn(cfg, x), task, PoolsIn(cfg, x))
  }

  /** The task is strictly within the totals less headroom, on a GPU of the rotation if it needs one. */
  ghost predicate WithinTotals(cfg: Config, snapshot: Snapshot, task: PendingEntry) {
    && task.memory < snapshot.memoryTotal - cfg.memoryHeadroom
    && (task.vram > 0.0 ==>
          exists i :: 0 <= i < |cfg.gpuIds| && cfg.gpuIds[i] in snapshot.gpus
            && task.vram < snapshot.gpus[cfg.gpuIds[i]].total - cfg.vramHeadroom)
  }

  // ----- releases give back what was committed, and no more -----

  lemma {:induction false} ReleasesAreBounded(p: Pools, ws: seq<Work>, now: real, t: Moment)
    requires p.memory.Finite? && forall g :: g in p.gpu ==> p.gpu[g].Finite?
    ensures var q := StateAt(p, RunningEntries(ws, now), t);
      && q.memory.Finite? && q.memory.gb <= p.memory.gb + TotalCommitted(MemoryUsages(ws))
      && q.gpu.Keys == p.gpu.Keys
      && (forall g :: g in p.gpu ==> q.gpu[g].Finite? && q.gpu[g].gb <= p.gpu[g].gb + CommittedOn(VramUsages(ws), g))
  {
    if ws != [] {
      var pre, w := ws[..|ws| - 1], ws[|ws| - 1];
      ReleasesAreBounded(p, pre, now, t);
      assert RunningEntries(ws, now)[..|ws| - 1] == RunningEntries(pre, now);
      assert ws == pre + [w];
      forall g ensures CommittedOn(VramUsages(ws), g) ==
        CommittedOn(VramUsages(pre), g)
        + (if w.gpu == Some(g) then CommittedGb(w.estimate.vram, w.observedVram) else 0.0)
      {
        CommittedSnoc(pre, w, g);
      }
      CommittedSnoc(pre, w, 0);
    }
  }

  /** No projection is ever roomier than the machine less its headroom. */
  lemma ProjectionWithinTotals(cfg: Config, snapshot: Snapshot, x: Situation)
    requires SameMachine(snapshot, x.reading)
    ensures var q := PoolsIn(cfg, x);
      && q.memory.Finite? && q.memory.gb <= snapshot.memoryTotal - cfg.memoryHeadroom
      && (forall g :: g in q.gpu ==>
            g in snapshot.gpus && q.gpu[g].Finite? && q.gpu[g].gb <= snapshot.gpus[g].total - cfg.vramHeadroom)
  {
    var cap := CapacityIn(cfg, x);
    ReleasesAreBounded(Pools(cap.memoryFree, cap.gpuFree, cap.runningCount), x.state.inFlight, x.now, x.moment);
  }

  /** The machine with nothing on it. */
  function Unoccupied(snapshot: Snapshot): Situation {
    Situation(INITIAL,
              Snapshot(0.0, snapshot.memoryTotal,
                       map g | g in snapshot.gpus :: GpuReading(0.0, snapshot.gpus[g].total)),
              0.0, At(0.0))
  }

  lemma IdleFits(cfg: Config, snapshot: Snapshot, task: PendingEntry)
    requires cfg.maxWorkers >= 1 && WithinTotals(cfg, snapshot, task)
    ensures SameMachine(snapshot, Unoccupied(snapshot).reading)
    ensures Fits(CapacityIn(cfg, Unoccupied(snapshot)), task, PoolsIn(cfg, Unoccupied(snapshot)))
  {
    var x := Unoccupied(snapshot);
    var cap, q := CapacityIn(cfg, x), PoolsIn(cfg, x);
    assert q == Pools(cap.memoryFree, cap.gpuFree, 0);
    if task.vram > 0.0 {
      var i :| 0 <= i < |cfg.gpuIds| && cfg.gpuIds[i] in snapshot.gpus
               && task.vram < snapshot.gpus[cfg.gpuIds[i]].total - cfg.vramHeadroom;
      assert HasRoom(q.gpu, cap.gpuOrder[i], task.vram);
    }
  }

  /** A task can ever be admitted on a machine exactly when it is strictly within its totals
      less headroom, whatever is running, in use or due to be released. */
  lemma EverFitsExactly(cfg: Config, snapshot: Snapshot, task: PendingEntry)
    requires cfg.maxWorkers >= 1
    ensures EverFits(cfg, snapshot, task) <==> WithinTotals(cfg, snapshot, task)
  {
    if WithinTotals(cfg, snapshot, task) {
      IdleFits(cfg, snapshot, task);
    }
    if EverFits(cfg, snapshot, task) {
      var x: Situation :| SameMachine(snapshot, x.reading) && Fits(CapacityIn(cfg, x), task, PoolsIn(cfg, x));
      FittingIsWithin(cfg, snapshot, task, x);
    }
  }

  lemma FittingIsWithin(cfg: Config, snapshot: Snapshot, task: PendingEntry, x: Situation)
    requires SameMachine(snapshot, x.reading) && Fits(CapacityIn(cfg, x), task, PoolsIn(cfg, x))
    ensures WithinTotals(cfg, snapshot, task)
  {
    ProjectionWithinTotals(cfg, snapshot, x);
    var q := PoolsIn(cfg, x);
    hide PoolsIn;
    if task.vram > 0.0 {
      var i :| 0 <= i < |cfg.gpuIds| && HasRoom(q.gpu, cfg.gpuIds[i], task.vram);
      assert q.gpu[cfg.gpuIds[i]].Finite?;
    }
  }

  // ----- the sweep -----

  /** A limit the sweep does not see: memory exactly at the limit, or of an unknown total; no GPU
      of the rotation big enough, though none is known at all or some known one is not too small. */
  ghost predicate Overlooked(cfg: Config, snapshot: Snapshot, e: Estimate) {
    || e.memory == snapshot.memoryTotal - cfg.memoryHeadroom
    || (snapshot.memoryTotal <= 0.0 && e.memory > snapshot.memoryTotal - cfg.memoryHeadroom)
    || (&& e.vram > 0.0
        && (|| snapshot.gpus == map[]
            || exists g :: g in snapshot.gpus && e.vram <= snapshot.gpus[g].total - cfg.vramHeadroom)
        && (forall i :: 0 <= i < |cfg.gpuIds| && cfg.gpuIds[i] in snapshot.gpus ==>
              e.vram >= snapshot.gpus[cfg.gpuIds[i]].total - cfg.vramHeadroom))
  }

  /** The sweep is sound: an estimate it rejects fits in no situation on that machine.  And it is
      complete but for the limits it overlooks. */
  lemma SweepIsSound(cfg: Config, snapshot: Snapshot, e: Estimate, task: PendingEntry)
    requires cfg.maxWorkers >= 1 && task.memory == e.memory && task.vram == e.vram
    ensures Infeasible(cfg, e, Some(snapshot)) ==> !EverFits(cfg, snapshot, task)
    ensures !Infeasible(cfg, e, Some(snapshot)) ==> (EverFits(cfg, snapshot, task) <==> !Overlooked(cfg, snapshot, e))
  {
    EverFitsExactly(cfg, snapshot, task);
    hide EverFits;
  }

  /** A task that needs all 8 GB that a 10 GB machine leaves above a 2 GB headroom is neither
      rejected nor ever admitted. */
  lemma LimitIsOverlooked(cfg: Config, snapshot: Snapshot, e: Estimate, task: PendingEntry)
    requires cfg.maxWorkers >= 1 && cfg.memoryHeadroom == 2.0 && snapshot == Snapshot(0.0, 10.0, map[])
    requires e.memory == 8.0 && e.vram == 0.0 && task.memory == e.memory && task.vram == e.vram
    ensures !Infeasible(cfg, e, Some(snapshot)) && !EverFits(cfg, snapshot, task)
  {
    EverFitsExactly(cfg, snapshot, task);
  }

  /** Nothing the sweep would reject is ever planned. */
  lemma RejectedIsNeverPlanned(cfg: Config, s: State, env: Env, snapshot: Snapshot, j: int)
    requires Inv(cfg, s) && cfg.maxWorkers >= 1 && env.snapshot.Some? && SameMachine(snapshot, env.snapshot.value)
    requires 0 <= j < |PlanOf(cfg, s, env).admitted|
    ensures EverFits(cfg, snapshot, PlanOf(cfg, s, env).admitted[j].task)
    ensures forall e: Estimate ::
      e.memory == PlanOf(cfg, s, env).admitted[j].task.memory && e.vram == PlanOf(cfg, s, env).admitted[j].task.vram ==>
        !Infeasible(cfg, e, Some(snapshot))
  {
    var admitted := PlanOf(cfg, s, env).admitted;
    var queue, running := Entries(s.pending), RunningEntries(s.inFlight, env.now);
    var cap := CapacityFor(cfg, s, env.snapshot);
    var pools, task := Start(queue, running, cap).pools, admitted[j].task;
    InputsAreSane(cfg, s, env);
    PlannedIsSized(cfg, s, env);
    assert Fits(cap, task, PoolsAfter(pools, admitted[..j])) by {
      EveryDecisionJustified(queue, running, cap);
      assert JustifiedAt(cap, pools, HeldBy(running), admitted, j);
    }
    hide Inv, PlanOf, Infeasible, EverFits;
    PlanShrinks(pools, admitted[..j]);
    FitsMonotone(cap, task, PoolsAfter(pools, admitted[..j]), pools);
    StateAtGrows(pools, running, Infinity, Infinity);
    FitsMonotone(cap, task, pools, StateAt(pools, running, Infinity));
    Witness(cfg, snapshot, task, Situation(s, env.snapshot.value, env.now, Infinity));
    forall e: Estimate | e.memory == task.memory && e.vram == task.vram ensures !Infeasible(cfg, e, Some(snapshot)) {
      SweepIsSound(cfg, snapshot, e, task);
    }
  }

  lemma Witness(cfg: Config, snapshot: Snapshot, task: PendingEntry, x: Situation)
    requires SameMachine(snapshot, x.reading) && Fits(CapacityIn(cfg, x), task, PoolsIn(cfg, x))
    ensures EverFits(cfg, snapshot, task)
  {
  }

  lemma {:induction false} PlanShrinks(p: Pools, admitted: seq<Placement>)
    requires forall i :: 0 <= i < |admitted| ==> Sized(admitted[i].task)
    ensures Roomier(PoolsAfter(p, admitted), p)
  {
    if admitted != [] {
      var pre, a := admitted[..|admitted| - 1], admitted[|admitted| - 1];
      PlanShrinks(p, pre);
      TakeShrinks(PoolsAfter(p, pre), a.task.memory, a.task.vram, a.gpu);
      RoomierTransitive(PoolsAfter(p, admitted), PoolsAfter(p, pre), p);
    }
  }

  /** What the sweep overlooks is not harmless: at the head of the queue, an estimate the sweep
      keeps but no situation can admit stalls everything behind it, in every cycle. */
  lemma OverlookedHeadStalls(cfg: Config, s: State, env: Env)
    requires Inv(cfg, s) && cfg.maxWorkers >= 1 && env.snapshot.Some? && s.pending != []
    requires SameMachine(env.snapshot.value, env.snapshot.value)
    requires !EverFits(cfg, env.snapshot.value, EntryOf(s.pending[0]))
    ensures PlanOf(cfg, s, env).admitted == []
  {
    var queue, running := Entries(s.pending), RunningEntries(s.inFlight, env.now);
    var cap := CapacityFor(cfg, s, env.snapshot);
    var start := Start(queue, running, cap);
    InputsAreSane(cfg, s, env);
    hide Inv, PlanOf;
    StateAtGrows(start.pools, running, Infinity, Infinity);
    assert !Fits(cap, queue[0], StateAt(start.pools, running, Infinity)) by {
      if Fits(cap, queue[0], StateAt(start.pools, running, Infinity)) {
        Witness(cfg, env.snapshot.value, queue[0], Situation(s, env.snapshot.value, env.now, Infinity));
      }
    }
    StalledFromTheStart(queue, running, cap);
    PlanIsPlanFor(cfg, s, env);
  }

  lemma PlanIsPlanFor(cfg: Config, s: State, env: Env)
    ensures PlanOf(cfg, s, env) ==
      PlanFor(Entries(s.pending), RunningEntries(s.inFlight, env.now), CapacityFor(cfg, s, env.snapshot))
  {
  }

  lemma StalledFromTheStart(queue: seq<PendingEntry>, running: seq<RunningEntry>, cap: Capacity)
    requires SoundInput(queue, running) && queue != []
    requires !Fits(cap, queue[0], StateAt(Start(queue, running, cap).pools, running, Infinity))
    ensures PlanFor(queue, running, cap).admitted == []
  {
    var start := Start(queue, running, cap);
    StateAtGrows(start.pools, running, Infinity, Infinity);
    if Fits(cap, queue[0], start.pools) {
      FitsMonotone(cap, queue[0], start.pools, StateAt(start.pools, running, Infinity));
    }
    FitsIsComputed(cap, queue[0], start.pools, start.rr);
    if !AnyExclusive(running) && !queue[0].exclusive {
      UnreachableHeadStallsPlan(queue, running, cap, start, queue[0]);
    }
  }
}
