/** Cores, rotation and missing measurements, for the executor. */
module ExecutorSpread {
  import opened Quantities
  import opened Admission
  import opened Rotation
  import opened Slots
  import opened Planning
  import opened Plans
  import opened Spread
  import opened ExecutorState
  import opened ExecutorInvariants
  import opened ExecutorDispatch
  import opened ExecutorRuns

  // ----- cores -----

  /** With `slots` tasks in flight there is a slot for this one: a worker; alone if it is exclusive; and
      where usage is measured, workers enough for everybody at its cores. */
  ghost predicate JoinsWithin(cfg: Config, measured: bool, w: Work, slots: int) {
    && slots < cfg.maxWorkers && (w.exclusive ==> slots <= 0)
    && (measured && w.estimate.cpu > 1.0 && slots > 0 ==>
          (slots + 1) as real * w.estimate.cpu <= cfg.maxWorkers as real)
  }

  /** What was sent stands no later among what was sent than in the plan. */
  lemma {:induction false} SentStandsEarlier(sent: seq<Work>, admitted: seq<Placement>, i: int) returns (j: int)
    requires SentFrom(sent, admitted) && 0 <= i < |sent|
    ensures i <= j < |admitted| && SentFor(sent[i], admitted[j])
    decreases |admitted|
  {
    var n := |admitted| - 1;
    var pre := admitted[..n];
    if SentFrom(sent, pre) {
      j := SentStandsEarlier(sent, pre, i);
    } else if i < |sent| - 1 {
      j := SentStandsEarlier(sent[..|sent| - 1], pre, i);
    } else {
      j := n;
      SentFromMembers(sent[..|sent| - 1], pre);
    }
  }

  lemma FewerSlots(cfg: Config, measured: bool, w: Work, few: int, many: int)
    requires JoinsWithin(cfg, measured, w, many) && few <= many
    ensures JoinsWithin(cfg, measured, w, few)
  {
    if measured && w.estimate.cpu > 1.0 && few > 0 {
      var cpu := w.estimate.cpu;
      assert (many - few) as real * cpu >= 0.0;
      assert (few + 1) as real * cpu + (many - few) as real * cpu == (many + 1) as real * cpu;
    }
  }

  lemma SlotMeansJoins(cfg: Config, s: State, env: Env, w: Work, a: Placement, slots: int)
    requires SentFor(w, a) && HasSlot(CapacityFor(cfg, s, env.snapshot), a.task, slots)
    ensures JoinsWithin(cfg, env.snapshot.Some?, w, slots)
  {
    hide MemoryFree, GpuFree;
  }

  /** What a plan sends joins within the cores, as does everything planned before it. */
  lemma SentJoinsWithin(cfg: Config, s: State, env: Env, sent: seq<Work>, i: int)
    requires SentFrom(sent, PlanOf(cfg, s, env).admitted) && 0 <= i < |sent|
    ensures JoinsWithin(cfg, env.snapshot.Some?, sent[i], |s.inFlight| + i)
  {
    hide PlanOf, SentFrom, SentFor, CapacityFor, HasSlot, JoinsWithin;
    var admitted := PlanOf(cfg, s, env).admitted;
    var j := SentStandsEarlier(sent, admitted, i);
    PlannedHasSlot(cfg, s, env, j);
    SlotMeansJoins(cfg, s, env, sent[i], admitted[j], |s.inFlight| + j);
    FewerSlots(cfg, env.snapshot.Some?, sent[i], |s.inFlight| + i, |s.inFlight| + j);
  }

  lemma PlannedHasSlot(cfg: Config, s: State, env: Env, j: int)
    requires 0 <= j < |PlanOf(cfg, s, env).admitted|
    ensures HasSlot(CapacityFor(cfg, s, env.snapshot), PlanOf(cfg, s, env).admitted[j].task, |s.inFlight| + j)
  {
    hide PlanFor, MemoryFree, GpuFree, HasSlot;
    PlanWithinCores(Entries(s.pending), RunningEntries(s.inFlight, env.now), CapacityFor(cfg, s, env.snapshot), j);
  }

  /** Over a dispatch cycle, task by task: whatever joins what is in flight finds a worker left and, where
      usage is measured, workers enough for all in flight by then at the cores it is estimated to use. */
  lemma DispatchWithinCores(cfg: Config, s: State, env: Env, k: int)
    requires Inv(cfg, s) && |s.inFlight| <= k < |Dispatch(cfg, s, env).inFlight|
    ensures JoinsWithin(cfg, env.snapshot.Some?, Dispatch(cfg, s, env).inFlight[k], k)
  {
    hide Inv, PlanOf, Dispatch, SentFrom, JoinsWithin;
    var sent := DispatchShips(cfg, s, env);
    SeenIsStamped(cfg, s, env);
    hide Seen;
    SentJoinsWithin(cfg, Seen(cfg, s, env), env, sent, k - |s.inFlight|);
  }

  // ----- the rotation -----

  lemma AcquireKeepsIndex(cfg: Config, s: State, pin: Option<int>, alive: set<int>)
    ensures var r := Acquire(cfg, s, pin, alive); r.Some? ==> r.value.1.nextGpu == s.nextGpu
  {
    hide FirstIdle, WithoutWorkers;
  }

  lemma ShipKeepsIndex(cfg: Config, s: State, d: Decision, alive: set<int>, now: real)
    ensures Ship(cfg, s, d, alive, now).nextGpu == s.nextGpu
  {
    hide Acquire, Find, Without, Replace, FindWorker;
    AcquireKeepsIndex(cfg, s, d.gpu, alive);
  }

  lemma {:induction false} ShipAllKeepsIndex(cfg: Config, s: State, decisions: seq<Decision>, env: Env)
    ensures ShipAll(cfg, s, decisions, env).nextGpu == s.nextGpu
  {
    hide Ship;
    if decisions != [] {
      var n := |decisions| - 1;
      ShipAllKeepsIndex(cfg, s, decisions[..n], env);
      ShipKeepsIndex(cfg, ShipAll(cfg, s, decisions[..n], env), decisions[n], AliveAt(env, n), env.now);
    }
  }

  /** The rotation goes on from cycle to cycle: a dispatch leaves the index just after the last GPU it
      planned for, or where it stood. */
  lemma RotationGoesOn(cfg: Config, s: State, env: Env)
    ensures var planned := if s.pending == [] || Prepared(cfg, s, env).pending == [] then []
                           else PlanOf(cfg, Seen(cfg, s, env), env).admitted;
      var last, next := LastGpu(planned), Dispatch(cfg, s, env).nextGpu;
      if last == None then next == s.nextGpu else JustAfter(cfg.gpuIds, next, last.value)
  {
    PreparedKeepsIndex(cfg, s, env);
    hide Prepared, ShipAll, PlanFor, LastGpu, JustAfter;
    var seen := Seen(cfg, s, env);
    var plan := PlanOf(cfg, seen, env);
    PlanIndexFollows(Entries(seen.pending), RunningEntries(seen.inFlight, env.now),
                     CapacityFor(cfg, seen, env.snapshot));
    ShipAllKeepsIndex(cfg, seen.(nextGpu := plan.rr), Decisions(plan.admitted), env);
    NoGpuYet();
  }

  lemma NoGpuYet()
    ensures LastGpu([]) == None
  {
  }

  lemma PreparedKeepsIndex(cfg: Config, s: State, env: Env)
    ensures Prepared(cfg, s, env).nextGpu == s.nextGpu
  {
  }

  // ----- nothing measured -----

  /** Before anything has been measured neither memory nor VRAM keeps a task waiting, nor do its cores: it
      is admissible exactly if a worker is left, it would be alone if it is exclusive, and there is any
      GPU at all if it needs one. */
  lemma UnmeasuredFitsExactly(cfg: Config, s: State, task: PendingEntry)
    ensures var cap := CapacityFor(cfg, s, None);
      Fits(cap, task, Pools(cap.memoryFree, cap.gpuFree, |s.inFlight|)) <==>
        && |s.inFlight| < cfg.maxWorkers && (task.exclusive ==> s.inFlight == [])
        && (task.vram > 0.0 ==> cfg.gpuIds != [])
  {
    var cap := CapacityFor(cfg, s, None);
    FitsExactly(cap, task, Pools(cap.memoryFree, cap.gpuFree, |s.inFlight|));
    if cfg.gpuIds != [] {
      assert cfg.gpuIds[0] in cfg.gpuIds && HasRoom(cap.gpuFree, cap.gpuOrder[0], task.vram);
    }
  }
}
