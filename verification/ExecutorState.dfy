/** The executor's state, and what each of its critical sections does to it.  A task popped
    from the in-flight table but not yet settled or re-queued is `held` by its handler, so
    that other threads may act in between. */
module ExecutorState {
  import opened Quantities
  import opened Profiles
  import opened Stores
  import opened Accounting
  import opened Admission
  import opened Planning

  /** A submitted task, from submission to settlement. */
  datatype Work = Work(
    id: string, origin: Origin, memoryHint: Option<real>, vramHint: Option<real>,
    estimate: Estimate, sampleCount: nat, refreshedAt: Option<real>, floorSeen: Option<real>,
    identity: Option<string>, cold: bool,
    gpu: Option<int>, worker: Option<int>, startedAt: Option<real>,
    observedMemory: real, observedVram: real,
    retries: nat, exclusive: bool, runningNotified: bool, resultIgnored: bool)

  datatype Worker = Worker(id: int, pinned: Option<int>, current: Option<string>, stopped: bool,
                           poisoned: bool, tasksCompleted: nat)

  datatype Future = Queued | Running | Cancelled | CancelledNotified | Finished(ok: bool)

  datatype Handler = ByResult | ByTimeout | ByCrash

  datatype Held = Held(work: Work, handler: Handler)

  /** What has happened to a task so far; nothing in the program reads it. */
  datatype Log = Log(handshakes: nat, dispatches: nat, settlements: nat, first: Option<Estimate>)

  datatype GpuReading = GpuReading(used: real, total: real)

  datatype Snapshot = Snapshot(memoryUsed: real, memoryTotal: real, gpus: map<int, GpuReading>)

  datatype Config = Config(
    maxWorkers: int, gpuIds: seq<int>, memoryHeadroom: real, vramHeadroom: real, maxRetries: nat,
    recycleAfter: Option<nat>, killOnTimeout: bool, reestimateInterval: real)

  datatype State = State(
    pending: seq<Work>, inFlight: seq<Work>, held: map<string, Held>,
    finished: set<string>, dropped: set<string>,
    futures: map<string, Future>, log: map<string, Log>,
    workers: seq<Worker>, retiring: seq<Worker>, dead: seq<Worker>, nextWorker: int,
    nextGpu: int, store: Store, stopping: bool, broken: bool)

  const INITIAL := State([], [], map[], {}, {}, map[], map[], [], [], [], 0, 0, map[], false, false)

  // ----- tables in insertion order -----

  function Ids(ws: seq<Work>): set<string> {
    set w | w in ws :: w.id
  }

  ghost predicate NoDup(ws: seq<Work>) {
    forall i, j :: 0 <= i < j < |ws| ==> ws[i].id != ws[j].id
  }

  function Find(ws: seq<Work>, id: string): (r: Option<Work>)
    ensures r.Some? ==> r.value in ws && r.value.id == id
    ensures r.None? ==> id !in Ids(ws)
  {
    if ws == [] then None
    else if ws[0].id == id then Some(ws[0])
    else Find(ws[1..], id)
  }

  function Without(ws: seq<Work>, ids: set<string>): (r: seq<Work>)
    ensures forall w :: w in r <==> w in ws && w.id !in ids
  {
    if ws == [] then []
    else
      var w := ws[|ws| - 1];
      assert ws == ws[..|ws| - 1] + [w];
      Without(ws[..|ws| - 1], ids) + (if w.id in ids then [] else [w])
  }

  function WorkerIds(ks: seq<Worker>): set<int> {
    set k | k in ks :: k.id
  }

  ghost predicate NoDupWorkers(ks: seq<Worker>) {
    forall i, j :: 0 <= i < j < |ks| ==> ks[i].id != ks[j].id
  }

  function FindWorker(ks: seq<Worker>, id: int): (r: Option<Worker>)
    ensures r.Some? ==> r.value in ks && r.value.id == id
    ensures r.None? ==> id !in WorkerIds(ks)
  {
    if ks == [] then None
    else if ks[0].id == id then Some(ks[0])
    else FindWorker(ks[1..], id)
  }

  /** The workers with an id in `ids`, or with the others. */
  function PickWorkers(ks: seq<Worker>, ids: set<int>, keep: bool): (r: seq<Worker>)
    ensures forall k :: k in r <==> k in ks && (k.id in ids <==> keep)
    ensures |r| <= |ks|
  {
    if ks == [] then []
    else
      var k := ks[|ks| - 1];
      assert ks == ks[..|ks| - 1] + [k];
      PickWorkers(ks[..|ks| - 1], ids, keep) + (if k.id in ids <==> keep then [k] else [])
  }

  function WithoutWorkers(ks: seq<Worker>, ids: set<int>): seq<Worker> {
    PickWorkers(ks, ids, false)
  }

  function Replace(ks: seq<Worker>, k: Worker): (r: seq<Worker>)
    ensures |r| == |ks|
  {
    seq(|ks|, i requires 0 <= i < |ks| => if ks[i].id == k.id then k else ks[i])
  }

  // ----- futures -----

  predicate Done(f: Future) {
    f.Cancelled? || f.CancelledNotified? || f.Finished?
  }

  /** Set a result or an exception, unless the future is already done. */
  function Settle(s: State, id: string, ok: bool): State {
    if id !in s.futures || Done(s.futures[id]) then s
    else s.(futures := s.futures[id := Finished(ok)],
            log := if id in s.log then s.log[id := Settled(s.log[id])] else s.log)
  }

  function Settled(l: Log): Log {
    l.(settlements := l.settlements + 1)
  }

  function Shaken(l: Log): Log {
    l.(handshakes := l.handshakes + 1)
  }

  function Dispatched(l: Log, e: Estimate): Log {
    l.(dispatches := l.dispatches + 1, first := if l.first == None then Some(e) else l.first)
  }

  function Cancel(s: State, id: string): State {
    if id in s.futures && s.futures[id].Queued? then s.(futures := s.futures[id := Cancelled]) else s
  }

  // ----- submission -----

  function Submit(s: State, id: string, origin: Origin, memoryHint: Option<real>, vramHint: Option<real>,
                  now: real): State {
    var p := Stores.Select(s.store, origin).0;
    var w := Work(id, origin, memoryHint, vramHint,
                  EstimateFrom(p, memoryHint, vramHint), |p.observations|, Some(now), p.floor,
                  None, false, None, None, None, 0.0, 0.0, 0, false, false, false);
    s.(pending := s.pending + [w], futures := s.futures[id := Queued], log := s.log[id := Log(0, 0, 0, None)])
  }

  /** An estimate beyond total capacity less headroom, where capacity is known. */
  predicate Infeasible(cfg: Config, e: Estimate, snapshot: Option<Snapshot>) {
    snapshot.Some? &&
    (|| (snapshot.value.memoryTotal > 0.0 && e.memory > snapshot.value.memoryTotal - cfg.memoryHeadroom)
     || (e.vram > 0.0 && snapshot.value.gpus != map[] &&
         forall g :: g in snapshot.value.gpus ==> e.vram > snapshot.value.gpus[g].total - cfg.vramHeadroom))
  }

  // ----- the dispatch cycle -----

  /** What the executor reads from outside during one cycle: the clock, the monitor at the sweep
      and again at the plan, and observed growth.  `alive[i]` says which worker processes are
      alive when decision `i` is carried out. */
  datatype Env = Env(now: real, sweep: Option<Snapshot>, snapshot: Option<Snapshot>,
                     readings: map<string, (real, real)>, alive: seq<set<int>>)

  function AliveAt(env: Env, i: int): set<int> {
    if 0 <= i < |env.alive| then env.alive[i] else {}
  }

  function Reestimate(cfg: Config, store: Store, now: real, w: Work): Work {
    if w.retries > 0 then w
    else if w.refreshedAt.Some? && now - w.refreshedAt.value < cfg.reestimateInterval then w
    else
      var p := Stores.Select(store, w.origin).0;
      var w' := w.(refreshedAt := Some(now));
      if |p.observations| == w.sampleCount && p.floor == w.floorSeen then w'
      else w'.(estimate := EstimateFrom(p, w.memoryHint, w.vramHint),
               sampleCount := |p.observations|, floorSeen := p.floor)
  }

  function ReestimateAll(cfg: Config, store: Store, now: real, ws: seq<Work>): (r: seq<Work>)
    ensures |r| == |ws|
  {
    seq(|ws|, i requires 0 <= i < |ws| => Reestimate(cfg, store, now, ws[i]))
  }

  function InfeasibleIds(cfg: Config, snapshot: Option<Snapshot>, ws: seq<Work>): set<string> {
    set w | w in ws && Infeasible(cfg, w.estimate, snapshot) :: w.id
  }

  function FailAll(futures: map<string, Future>, ids: set<string>): map<string, Future> {
    map id | id in futures :: if id in ids && !Done(futures[id]) then Finished(false) else futures[id]
  }

  function LogFailures(log: map<string, Log>, futures: map<string, Future>, ids: set<string>): map<string, Log> {
    map id | id in log :: if id in ids && id in futures && !Done(futures[id]) then Settled(log[id]) else log[id]
  }

  /** Queued tasks leave with an exception; a cancelled one just leaves. */
  function Expel(s: State, ids: set<string>): State {
    var gone := ids * Ids(s.pending);
    s.(pending := Without(s.pending, gone), futures := FailAll(s.futures, gone),
       log := LogFailures(s.log, s.futures, gone), finished := s.finished + gone)
  }

  function Observe(readings: map<string, (real, real)>, w: Work): Work {
    if w.id in readings
    then w.(observedMemory := Max(0.0, readings[w.id].0), observedVram := Max(0.0, readings[w.id].1))
    else w
  }

  function ObserveAll(readings: map<string, (real, real)>, ws: seq<Work>): (r: seq<Work>)
    ensures |r| == |ws|
  {
    seq(|ws|, i requires 0 <= i < |ws| => Observe(readings, ws[i]))
  }

  function MemoryUsages(ws: seq<Work>): (r: seq<Usage>)
    ensures |r| == |ws|
  {
    seq(|ws|, i requires 0 <= i < |ws| => Usage(ws[i].gpu, ws[i].estimate.memory, ws[i].observedMemory))
  }

  function VramUsages(ws: seq<Work>): (r: seq<Usage>)
    ensures |r| == |ws|
  {
    seq(|ws|, i requires 0 <= i < |ws| => Usage(ws[i].gpu, ws[i].estimate.vram, ws[i].observedVram))
  }

  function MemoryFree(cfg: Config, snapshot: Option<Snapshot>, ws: seq<Work>): Amount {
    if snapshot == None then Unbounded
    else Finite(snapshot.value.memoryTotal - snapshot.value.memoryUsed - cfg.memoryHeadroom
                - TotalCommitted(MemoryUsages(ws)))
  }

  function GpuFree(cfg: Config, snapshot: Option<Snapshot>, ws: seq<Work>): map<int, Amount> {
    if snapshot == None then (map g | g in cfg.gpuIds :: Unbounded)
    else (map g | g in cfg.gpuIds && g in snapshot.value.gpus :: Finite(VramFree(cfg, snapshot.value.gpus[g], ws, g)))
  }

  function VramFree(cfg: Config, gpu: GpuReading, ws: seq<Work>, g: int): real {
    gpu.total - gpu.used - cfg.vramHeadroom - CommittedOn(VramUsages(ws), g)
  }

  function CapacityFor(cfg: Config, s: State, snapshot: Option<Snapshot>): Capacity {
    Capacity(MemoryFree(cfg, snapshot, s.inFlight), GpuFree(cfg, snapshot, s.inFlight), cfg.gpuIds, s.nextGpu,
             cfg.maxWorkers, |s.inFlight|, snapshot.Some?)
  }

  /** Expected seconds until a task releases; unknown if never learned, or overrun. */
  function RemainingSeconds(w: Work, now: real): Option<real> {
    if w.estimate.duration == None || w.startedAt == None then None
    else if now - w.startedAt.value >= w.estimate.duration.value then None
    else Some(w.estimate.duration.value - (now - w.startedAt.value))
  }

  function RunningOf(w: Work, now: real): RunningEntry {
    RunningEntry(w.id, CommittedGb(w.estimate.memory, w.observedMemory), CommittedGb(w.estimate.vram, w.observedVram),
                 w.gpu, RemainingSeconds(w, now), w.exclusive, w.identity)
  }

  function RunningEntries(ws: seq<Work>, now: real): (r: seq<RunningEntry>)
    ensures |r| == |ws|
  {
    seq(|ws|, i requires 0 <= i < |ws| => RunningOf(ws[i], now))
  }

  /** The identity a queued task would be estimated from now, and whether it is cold. */
  function Stamp(store: Store, w: Work): Work {
    var (identity, count) := EstimationIdentity(store, w.origin);
    w.(identity := Some(identity), cold := count == 0 && w.memoryHint == None && w.vramHint == None)
  }

  function StampAll(store: Store, ws: seq<Work>): (r: seq<Work>)
    ensures |r| == |ws|
  {
    seq(|ws|, i requires 0 <= i < |ws| => Stamp(store, ws[i]))
  }

  function EntryOf(w: Work): PendingEntry {
    PendingEntry(w.id, w.estimate.memory, w.estimate.vram, w.estimate.cpu, w.estimate.duration,
                 w.exclusive, w.identity, w.cold)
  }

  function Entries(ws: seq<Work>): (r: seq<PendingEntry>)
    ensures |r| == |ws|
  {
    seq(|ws|, i requires 0 <= i < |ws| => EntryOf(ws[i]))
  }

  function PlanOf(cfg: Config, s: State, env: Env): PlanState {
    PlanFor(Entries(s.pending), RunningEntries(s.inFlight, env.now), CapacityFor(cfg, s, env.snapshot))
  }

  // ----- workers -----

  predicate Idle(k: Worker, alive: set<int>) {
    k.current == None && !k.stopped && k.id in alive
  }

  /** The first idle worker, pinned as wanted unless any pin will do. */
  function FirstIdle(ks: seq<Worker>, alive: set<int>, anyPin: bool, pin: Option<int>): (r: Option<Worker>)
    ensures r.Some? ==> r.value in ks && Idle(r.value, alive) && (anyPin || r.value.pinned == pin)
  {
    if ks == [] then None
    else if Idle(ks[0], alive) && (anyPin || ks[0].pinned == pin) then Some(ks[0])
    else FirstIdle(ks[1..], alive, anyPin, pin)
  }

  function Retire(s: State, k: Worker): State {
    s.(workers := WithoutWorkers(s.workers, {k.id}), retiring := s.retiring + [k.(stopped := true)])
  }

  function PutBack(s: State, k: Worker): State {
    s.(workers := Replace(s.workers, k))
  }

  function Spawn(s: State, pin: Option<int>): State {
    s.(workers := s.workers + [Worker(s.nextWorker, pin, None, false, false, 0)], nextWorker := s.nextWorker + 1)
  }

  /** Reuse an idle worker with the right pin, else spawn one, evicting an idle worker at the cap. */
  function Acquire(cfg: Config, s: State, pin: Option<int>, alive: set<int>): Option<(int, State)> {
    var idle := FirstIdle(s.workers, alive, false, pin);
    if idle.Some? then Some((idle.value.id, s))
    else if |s.workers| >= cfg.maxWorkers then
      var victim := FirstIdle(s.workers, alive, true, None);
      if victim == None then None
      else Some((s.nextWorker, Spawn(Retire(s, victim.value), pin)))
    else Some((s.nextWorker, Spawn(s, pin)))
  }

  // ----- shipping -----

  function Started(w: Work, gpu: Option<int>, worker: int, now: real): Work {
    w.(runningNotified := true, gpu := gpu, worker := Some(worker), startedAt := Some(now),
       observedMemory := 0.0, observedVram := 0.0)
  }

  /** What the running handshake makes of a future. */
  function ShakeFuture(f: Future): Future {
    match f
    case Queued => Running
    case Cancelled => CancelledNotified
    case _ => f
  }

  /** The handshake raises on a future that is running, notified or finished already. */
  predicate ShakeRaises(f: Future) {
    !f.Queued? && !f.Cancelled?
  }

  /** The running handshake: at most once per future. */
  function Handshake(s: State, w: Work): State {
    if w.runningNotified || w.id !in s.futures then s
    else s.(futures := s.futures[w.id := ShakeFuture(s.futures[w.id])],
            log := if w.id in s.log then s.log[w.id := Shaken(s.log[w.id])] else s.log,
            broken := s.broken || ShakeRaises(s.futures[w.id]))
  }

  /** Hand a task to worker `k`. */
  function Send(s: State, w: Work, gpu: Option<int>, k: int, now: real): State {
    var sent := Started(w, gpu, k, now);
    var worker := FindWorker(s.workers, k);
    s.(pending := Without(s.pending, {w.id}),
       inFlight := s.inFlight + [sent],
       workers := if worker.Some? then Replace(s.workers, worker.value.(current := Some(w.id))) else s.workers,
       log := if w.id in s.log then s.log[w.id := Dispatched(s.log[w.id], w.estimate)] else s.log)
  }

  /** Carry out one decision: no worker leaves the task queued, a cancelled task leaves. */
  function Ship(cfg: Config, s: State, d: Decision, alive: set<int>, now: real): State {
    match Find(s.pending, d.pendingId)
    case None => s
    case Some(w) =>
      match Acquire(cfg, s, d.gpu, alive)
      case None => s
      case Some((k, acquired)) =>
        var s' := Handshake(acquired, w);
        if s'.broken then s'
        else if w.id in s'.futures && s'.futures[w.id].CancelledNotified? && !w.runningNotified
        then s'.(pending := Without(s'.pending, {w.id}), finished := s'.finished + {w.id})
        else Send(s', w, d.gpu, k, now)
  }

  function ShipAll(cfg: Config, s: State, decisions: seq<Decision>, env: Env): State {
    if decisions == [] then s
    else
      var n := |decisions| - 1;
      Ship(cfg, ShipAll(cfg, s, decisions[..n], env), decisions[n], AliveAt(env, n), env.now)
  }

  /** The queue as the planner will see it: re-estimated, and rid of what can never fit. */
  function Prepared(cfg: Config, s: State, env: Env): State {
    var s' := s.(pending := ReestimateAll(cfg, s.store, env.now, s.pending));
    Expel(s', InfeasibleIds(cfg, env.sweep, s'.pending))
  }

  /** What the planner is given: stamped queue, observed in-flight tasks. */
  function Surveyed(s: State, env: Env): State {
    s.(inFlight := ObserveAll(env.readings, s.inFlight), pending := StampAll(s.store, s.pending))
  }

  function Dispatch(cfg: Config, s: State, env: Env): State {
    if s.pending == [] then s
    else
      var ready := Prepared(cfg, s, env);
      if ready.pending == [] then ready
      else
        var seen := Surveyed(ready, env);
        var plan := PlanOf(cfg, seen, env);
        ShipAll(cfg, seen.(nextGpu := plan.rr), Decisions(plan.admitted), env)
  }

  // ----- results -----

  predicate ShouldRecycle(cfg: Config, k: Worker) {
    cfg.recycleAfter.Some? && !k.stopped && k.tasksCompleted >= cfg.recycleAfter.value
  }

  /** A result frees the worker it names, if that worker is on that task. */
  function FreeWorker(cfg: Config, s: State, id: string, workerId: int): State {
    match FindWorker(s.workers, workerId)
    case None => s
    case Some(k) =>
      if k.current != Some(id) then s
      else
        var freed := k.(current := None, tasksCompleted := k.tasksCompleted + 1);
        if ShouldRecycle(cfg, freed) then Retire(s, freed) else PutBack(s, freed)
  }

  /** `s` with the in-flight task `w` in the hands of a handler. */
  function Popped(s: State, w: Work, held: Held): State {
    s.(inFlight := Without(s.inFlight, {w.id}), held := s.held[w.id := held])
  }

  function TakeResult(cfg: Config, s: State, id: string, workerId: int): State {
    match Find(s.inFlight, id)
    case None => FreeWorker(cfg, s, id, workerId)
    case Some(w) =>
      if w.resultIgnored
      then FreeWorker(cfg, s.(inFlight := Without(s.inFlight, {id}), finished := s.finished + {id}), id, workerId)
      else FreeWorker(cfg, Popped(s, w, Held(w, ByResult)), id, workerId)
  }

  /** The task leaves its handler, settled. */
  function Conclude(s: State, id: string, ok: bool): State {
    Settle(s, id, ok).(held := s.held - {id}, finished := s.finished + {id})
  }

  function FinishResult(s: State, id: string, ok: bool, observation: Observation): State {
    if id in s.held && s.held[id].handler.ByResult?
    then Conclude(s.(store := Record(s.store, s.held[id].work.origin, Observed(observation))), id, ok)
    else s
  }

  // ----- timeouts -----

  /** A worker about to be killed leaves the pool, its queue never to be read again. */
  function Poison(s: State, k: Worker): State {
    s.(workers := WithoutWorkers(s.workers, {k.id}),
       retiring := s.retiring + [k.(stopped := true, poisoned := true, current := None)])
  }

  /** A worker left running is taken off the task. */
  function Detach(s: State, k: Worker, id: string): State {
    if k.current == Some(id) then PutBack(s, k.(current := None)) else s
  }

  function TakeTimeout(cfg: Config, s: State, id: string): State {
    match Find(s.inFlight, id)
    case None => s
    case Some(w) =>
      if id in s.futures && Done(s.futures[id]) then s
      else
        var worker := if w.worker == None then None else FindWorker(s.workers, w.worker.value);
        var killing := cfg.killOnTimeout && w.worker.Some?;
        var popped := Popped(s, w, Held(if killing then w else w.(resultIgnored := true), ByTimeout));
        if worker == None then popped
        else if killing then Poison(popped, worker.value)
        else Detach(popped, worker.value, id)
  }

  function FinishTimeout(s: State, id: string): State {
    if id in s.held && s.held[id].handler.ByTimeout? then Conclude(s, id, false) else s
  }

  // ----- dead workers -----

  /** Workers whose process is gone leave the pool for their handler; retired ones are reaped. */
  function CheckWorkers(s: State, gone: set<int>): State {
    s.(workers := WithoutWorkers(s.workers, gone),
       dead := s.dead + PickWorkers(s.workers, gone, true),
       retiring := WithoutWorkers(s.retiring, gone))
  }

  /** The dead worker is off its handler's hands. */
  function Buried(s: State, k: Worker): State {
    s.(dead := WithoutWorkers(s.dead, {k.id}))
  }

  /** A task leaves flight and goes nowhere. */
  function Dropping(s: State, w: Work): State {
    s.(inFlight := Without(s.inFlight, {w.id}), dropped := s.dropped + {w.id})
  }

  function TakeLost(s: State, workerId: int): State {
    match FindWorker(s.dead, workerId)
    case None => s
    case Some(k) =>
      var s' := Buried(s, k);
      if k.current == None then s'
      else
        match Find(s.inFlight, k.current.value)
        case None => s'
        case Some(w) =>
          if k.stopped then Dropping(s', w) else Popped(s', w, Held(w, ByCrash))
  }

  /** SIGKILL, as a negative signal number or as a shell reports it. */
  predicate LooksLikeOom(exitCode: Option<int>) {
    exitCode == Some(-9) || exitCode == Some(137)
  }

  function Penalized(w: Work): Work {
    w.(estimate := Estimate(Max(0.1, w.estimate.memory * 2.0), Max(0.0, w.estimate.vram * 2.0),
                            Max(1.0, w.estimate.cpu), w.estimate.confidence, None),
       exclusive := true, retries := w.retries + 1,
       gpu := None, worker := None, startedAt := None, resultIgnored := false,
       observedMemory := 0.0, observedVram := 0.0)
  }

  /** A crash that looks like an OOM is retried at the front of the queue, doubled and alone;
      any other crash, or one too many, fails the task. */
  function FinishLost(cfg: Config, s: State, id: string, exitCode: Option<int>): State {
    if id !in s.held || !s.held[id].handler.ByCrash? then s
    else
      var w := s.held[id].work;
      if w.retries < cfg.maxRetries && LooksLikeOom(exitCode)
      then s.(store := Record(s.store, w.origin, Crashed(w.estimate.memory)),
              pending := [Penalized(w)] + s.pending, held := s.held - {id})
      else Conclude(s, id, false)
  }

  // ----- shutdown -----

  function FailPending(s: State): State {
    Expel(s, Ids(s.pending))
  }

  function StopAll(s: State): State {
    s.(workers := seq(|s.workers|, i requires 0 <= i < |s.workers| => s.workers[i].(stopped := true)), stopping := true)
  }

  // ----- any step of any thread -----

  datatype Action =
    | ASubmit(id: string, origin: Origin, memoryHint: Option<real>, vramHint: Option<real>, now: real)
    | ACancel(id: string)
    | ADispatch(env: Env)
    | ATakeResult(id: string, worker: int)
    | AFinishResult(id: string, ok: bool, observation: Observation)
    | ATakeTimeout(id: string)
    | AFinishTimeout(id: string)
    | ACheckWorkers(gone: set<int>)
    | ATakeLost(worker: int)
    | AFinishLost(id: string, exitCode: Option<int>)
    | AFailPending
    | AStopAll

  function Apply(cfg: Config, s: State, a: Action): State {
    match a
    case ASubmit(id, origin, memoryHint, vramHint, now) =>
      if id in s.futures then s else Submit(s, id, origin, memoryHint, vramHint, now)
    case ACancel(id) => Cancel(s, id)
    case ADispatch(env) => Dispatch(cfg, s, env)
    case ATakeResult(id, worker) => TakeResult(cfg, s, id, worker)
    case AFinishResult(id, ok, observation) => FinishResult(s, id, ok, observation)
    case ATakeTimeout(id) => TakeTimeout(cfg, s, id)
    case AFinishTimeout(id) => FinishTimeout(s, id)
    case ACheckWorkers(gone) => CheckWorkers(s, gone)
    case ATakeLost(worker) => TakeLost(s, worker)
    case AFinishLost(id, exitCode) => FinishLost(cfg, s, id, exitCode)
    case AFailPending => FailPending(s)
    case AStopAll => StopAll(s)
  }
}
